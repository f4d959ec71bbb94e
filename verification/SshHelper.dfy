/** One run of the SSH helper: a cached or new OpenBao token signs one certificate. Every command it
  starts may answer anything, fail to start, time out or be interrupted. */
module SshHelper {
  import opened Json
  import opened TokenCache
  import opened Wrappers

  // ---------- What the commands answer ----------

  const MAX_RESPONSE_BYTES: nat := 65_536
  const MAX_TTL_SECONDS: nat := 28_800

  /** `Interrupted` is an exception no handler of the helper names; `refuses` says that the diagnostic
    holds a rejection marker; `text` and `document` decode the output, where it decodes. */
  datatype Reply =
    | Interrupted
    | NotRun
    | Ran(code: int, outSize: nat, errSize: nat, refuses: bool, text: Option<string>, document: Option<Value>)

  datatype Verdict = Valid | Rejected | ContractInvalid | Indeterminate | LookupAborted
  datatype Revocation = Confirmed | Unconfirmed | RevocationAborted
  datatype Signing = Issued | Refused | NotSigned

  predicate Oversized(reply: Reply)
    requires reply.Ran?
  {
    reply.outSize > MAX_RESPONSE_BYTES || reply.errSize > MAX_RESPONSE_BYTES
  }

  predicate Policies(v: Option<Value>) {
    v == Some(Array([Text("homelab-ssh-client-sign")]))
  }

  predicate MeetsContract(data: Value) {
    var ttl, meta, path := Get(data, "ttl"), Get(data, "meta"), Get(data, "path");
    && ttl.Some? && ttl.value.Number? && 0 < ttl.value.n <= MAX_TTL_SECONDS
    && Policies(Get(data, "policies"))
    && meta.Some? && Get(meta.value, "role") == Some(Text("ssh"))
    && Get(data, "type") == Some(Text("service"))
    && (Get(data, "token_policies").None? || Policies(Get(data, "token_policies")))
    && (var p := Get(data, "identity_policies"); p.None? || p == Some(Null) || p == Some(Array([])))
    && (path.None? || (path.value.Text? && "auth/oidc/" <= path.value.text))
  }

  /** `_lookup_token`. */
  function VerdictOf(reply: Reply): Verdict {
    if reply.Interrupted? then LookupAborted
    else if reply.NotRun? || Oversized(reply) then Indeterminate
    else if reply.code != 0 then (if reply.refuses then Rejected else Indeterminate)
    else if reply.document.None? || !reply.document.value.Object? then Indeterminate
    else
      var data := Get(reply.document.value, "data");
      if data.None? || !data.value.Object? then Indeterminate
      else if MeetsContract(data.value) then Valid
      else ContractInvalid
  }

  /** `_revoke_token`. */
  function RevocationOf(reply: Reply): Revocation {
    if reply.Interrupted? then RevocationAborted
    else if reply.Ran? && reply.code == 0 && !Oversized(reply) then Confirmed
    else Unconfirmed
  }

  /** `_sign`; `written` says whether the certificate file could be written. */
  function SigningOf(reply: Reply, written: bool): Signing {
    if !reply.Ran? then NotSigned
    else if reply.code != 0 then (if !Oversized(reply) && reply.refuses then Refused else NotSigned)
    else if 0 < reply.outSize <= MAX_RESPONSE_BYTES && written then Issued
    else NotSigned
  }

  // ---------- Answers by their raw fields ----------

  /** The command ran, succeeded within bounds and printed an object whose `data` is this object. */
  predicate Answers(reply: Reply, data: map<string, Value>) {
    && reply.Ran? && reply.code == 0 && reply.outSize <= 65536 && reply.errSize <= 65536
    && reply.document.Some? && reply.document.value.Object? && "data" in reply.document.value.fields
    && reply.document.value.fields["data"] == Object(data)
  }

  /** The token contract, field by field. */
  predicate Conforms(data: map<string, Value>) {
    var policies := Array([Text("homelab-ssh-client-sign")]);
    && "ttl" in data && data["ttl"].Number? && 1 <= data["ttl"].n <= 28800
    && "policies" in data && data["policies"] == policies
    && "type" in data && data["type"] == Text("service")
    && "meta" in data && data["meta"].Object?
    && "role" in data["meta"].fields && data["meta"].fields["role"] == Text("ssh")
    && ("token_policies" in data ==> data["token_policies"] == policies)
    && ("identity_policies" in data ==> data["identity_policies"] == Null || data["identity_policies"] == Array([]))
    && ("path" in data ==> data["path"].Text? && "auth/oidc/" <= data["path"].text)
  }

  predicate RejectedBy(reply: Reply) {
    reply.Ran? && reply.code != 0 && reply.outSize <= 65536 && reply.errSize <= 65536 && reply.refuses
  }

  /** Which answers to a lookup are which verdict, over all answers: a valid token is one whose lookup succeeded
    with an answer that meets the contract in every field, and only an answered contract can be broken. */
  lemma VerdictIff(reply: Reply)
    ensures VerdictOf(reply) == Valid <==> exists data :: Answers(reply, data) && Conforms(data)
    ensures VerdictOf(reply) == ContractInvalid <==> exists data :: Answers(reply, data) && !Conforms(data)
    ensures VerdictOf(reply) == Rejected <==> RejectedBy(reply)
    ensures VerdictOf(reply) == LookupAborted <==> reply == Interrupted
    ensures VerdictOf(reply) == Indeterminate <==>
      reply != Interrupted && !RejectedBy(reply) && forall data :: !Answers(reply, data)
  {
    if reply.Ran? && reply.document.Some? {
      var data := Get(reply.document.value, "data");
      if data.Some? && data.value.Object? {
        ContractIff(data.value.fields);
        assert reply.code == 0 && !Oversized(reply) ==> Answers(reply, data.value.fields);
      }
    }
  }

  lemma ContractIff(data: map<string, Value>)
    ensures MeetsContract(Object(data)) <==> Conforms(data)
  {
  }

  /** Which answers confirm a revocation. */
  lemma RevocationIff(reply: Reply)
    ensures RevocationOf(reply) == Confirmed <==>
      reply.Ran? && reply.code == 0 && reply.outSize <= 65536 && reply.errSize <= 65536
    ensures RevocationOf(reply) == RevocationAborted <==> reply == Interrupted
  {
  }

  /** Which answers issue a certificate, and which refuse the token. */
  lemma SigningIff(reply: Reply, written: bool)
    ensures SigningOf(reply, written) == Issued <==>
      reply.Ran? && reply.code == 0 && 1 <= reply.outSize <= 65536 && written
    ensures SigningOf(reply, written) == Refused <==> RejectedBy(reply)
  {
  }

  function StripLeft(s: string): string {
    if s != "" && IsSpace(s[0]) then StripLeft(s[1..]) else s
  }

  function StripRight(s: string): string {
    if s != "" && IsSpace(s[|s| - 1]) then StripRight(s[..|s| - 1]) else s
  }

  predicate Spaces(s: string) {
    forall i :: 0 <= i < |s| ==> IsSpace(s[i])
  }

  predicate IsWord(s: string) {
    s != "" && forall i :: 0 <= i < |s| ==> !IsSpace(s[i])
  }

  /** `_login`: one word of output, whatever white space surrounds it. */
  function TokenOf(reply: Reply): Option<string> {
    if !reply.Ran? || reply.code != 0 || reply.outSize > MAX_RESPONSE_BYTES || reply.text.None? then None
    else
      var token := StripRight(StripLeft(reply.text.value));
      if IsWord(token) then Some(token) else None
  }

  lemma {:induction false} StripLeftOfText(a: string, t: string)
    requires Spaces(a) && (t == "" || !IsSpace(t[0]))
    ensures StripLeft(a + t) == t
  {
    if a == "" {
      assert a + t == t;
    } else {
      assert (a + t)[1..] == a[1..] + t;
      StripLeftOfText(a[1..], t);
    }
  }

  lemma {:induction false} StrippedLeft(s: string) returns (a: string)
    ensures Spaces(a) && s == a + StripLeft(s)
  {
    if s != "" && IsSpace(s[0]) {
      a := StrippedLeft(s[1..]);
      assert s == [s[0]] + (a + StripLeft(s));
      a := [s[0]] + a;
    } else {
      a := "";
    }
  }

  lemma {:induction false} StripRightOfWord(t: string, b: string)
    requires IsWord(t) && Spaces(b)
    ensures StripRight(t + b) == t
  {
    if b == "" {
      assert t + b == t;
    } else {
      assert (t + b)[..|t + b| - 1] == t + b[..|b| - 1];
      StripRightOfWord(t, b[..|b| - 1]);
    }
  }

  lemma {:induction false} StrippedRight(s: string) returns (b: string)
    ensures Spaces(b) && s == StripRight(s) + b
  {
    if s != "" && IsSpace(s[|s| - 1]) {
      b := StrippedRight(s[..|s| - 1]);
      assert s == StripRight(s) + (b + [s[|s| - 1]]);
      b := b + [s[|s| - 1]];
    } else {
      b := "";
      assert s == s + b;
    }
  }

  /** `text` is one word in white space. */
  ghost predicate OneWord(text: string, token: string) {
    IsWord(token) && exists a, b :: Spaces(a) && Spaces(b) && text == a + (token + b)
  }

  /** A login yields a token exactly when it succeeds with a bounded text that is that one word. */
  lemma TokenIff(reply: Reply, token: string)
    ensures TokenOf(reply) == Some(token) <==>
            && reply.Ran? && reply.code == 0 && reply.outSize <= MAX_RESPONSE_BYTES && reply.text.Some?
            && OneWord(reply.text.value, token)
  {
    if reply.Ran? && reply.text.Some? {
      var text := reply.text.value;
      if IsWord(token) && StripRight(StripLeft(text)) == token {
        var a := StrippedLeft(text);
        var b := StrippedRight(StripLeft(text));
        assert text == a + (token + b);
      }
      if a, b :| IsWord(token) && Spaces(a) && Spaces(b) && text == a + (token + b) {
        StripLeftOfText(a, token + b);
        StripRightOfWord(token, b);
      }
    }
  }

  // ---------- The protocol ----------

  datatype Request = Logout | Connect(reauth: bool)

  datatype Failure =
    | LocalFailure | CacheFailure | Interruption | LoginFailure | UnfitToken | UndeterminedCache
    | UndeterminedToken | SigningFailure | RefusedToken | WarningFailure

  datatype Exit = Exit(code: int) | Raised(failure: Failure)

  // `Ready` and `Stopped` stand for the local work between two commands; `Warned` is the warning that a
  // revocation is unconfirmed, which raises when it cannot be printed.
  datatype Event =
    | Loaded(load: Load)
    | Ready
    | Stopped
    | Login(given: Option<string>, reply: Reply)
    | LookedUp(token: string, verdict: Verdict, reply: Reply)
    | Revoked(token: string, revocation: Revocation, reply: Reply)
    | Signed(token: string, signing: Signing, reply: Reply, written: bool)
    | Saved(token: string, save: Save)
    | Warned(ok: bool)
    | Cleared(ok: bool)
    | Connected(code: int)

  /** What an event says is what its command answered. */
  predicate Faithful(e: Event) {
    match e
    case Login(given, reply) => given == TokenOf(reply)
    case LookedUp(_, verdict, reply) => verdict == VerdictOf(reply)
    case Revoked(_, revocation, reply) => revocation == RevocationOf(reply)
    case Signed(_, signing, reply, written) => signing == SigningOf(reply, written)
    case _ => true
  }

  predicate AllFaithful(trace: seq<Event>) {
    forall i :: 0 <= i < |trace| ==> Faithful(trace[i])
  }

  /** What follows a warning. */
  datatype Afterwards = DropCached(token: string) | EvictCached(token: string) | EndReset | Raise(failure: Failure)

  datatype Stage =
    | Loading
    | Starting(cached: Option<string>)
    | Resetting(token: string)
    | Forgetting(revocation: Revocation)
    | Checking(token: string)
    | Condemning(token: string)
    | Dropping(token: string)
    | LoggingIn(retry: bool)
    | Validating(token: string, retry: bool)
    | Discarding(token: string, verdict: Verdict)
    | Saving(token: string, retry: bool)
    | Preparing(token: string, isNew: bool)
    | Requesting(token: string, isNew: bool)
    | Refusing(token: string, isNew: bool)
    | Evicting(token: string, isNew: bool, doubtful: bool)
    | Warning(next: Afterwards)
    | Certified(token: string)
    | Done(exit: Exit)

  datatype State = State(stage: Stage, file: File)

  function Finish(s: State, exit: Exit): Option<State> {
    Some(s.(stage := Done(exit)))
  }

  function Fail(s: State, failure: Failure): Option<State> {
    Finish(s, Raised(failure))
  }

  function Go(s: State, stage: Stage): Option<State> {
    Some(s.(stage := stage))
  }

  function LoadStep(origin: string, request: Request, s: State, e: Event): Option<State>
    requires s.stage.Loading?
  {
    if e.Stopped? then Fail(s, LocalFailure)
    else if !e.Loaded? then None
    else
      var file :- AfterLoad(s.file, origin, e.load);
      var s := s.(file := file);
      if e.load.LoadRaised? then Fail(s, CacheFailure)
      else if e.load.Found? then Go(s, Starting(Some(e.load.token)))
      else if request.Logout? then Finish(s, Exit(0))
      else Go(s, Starting(None))
  }

  /** Where a run begins once its arguments are known to be good. */
  function FirstStage(request: Request, cached: Option<string>): Stage {
    if cached.None? then LoggingIn(false)
    else if request.Logout? || request.reauth then Resetting(cached.value)
    else Checking(cached.value)
  }

  function ReadyStep(request: Request, s: State, e: Event): Option<State>
    requires s.stage.Starting?
  {
    if e.Stopped? then Fail(s, LocalFailure)
    else if !e.Ready? then None
    else Go(s, FirstStage(request, s.stage.cached))
  }

  function EndOfReset(request: Request, s: State): Option<State> {
    if request.Logout? then Finish(s, Exit(0)) else Go(s, LoggingIn(false))
  }

  /** Logging out and authenticating again revoke the cached token and then clear the cache, even if
    the revocation is interrupted; the warning comes last. */
  function ResetStep(request: Request, s: State, e: Event): Option<State>
    requires s.stage.Resetting? || s.stage.Forgetting?
  {
    if s.stage.Resetting? then
      if e.Revoked? && e.token == s.stage.token then Go(s, Forgetting(e.revocation)) else None
    else if !e.Cleared? then None
    else
      var file :- AfterClear(s.file, e.ok);
      var s' := s.(file := file);
      if !e.ok then Fail(s', CacheFailure)
      else if s.stage.revocation.RevocationAborted? then Fail(s', Interruption)
      else if s.stage.revocation.Unconfirmed? then Go(s', Warning(EndReset))
      else EndOfReset(request, s')
  }

  function CheckStep(s: State, e: Event): Option<State>
    requires s.stage.Checking?
  {
    if !e.LookedUp? || e.token != s.stage.token then None
    else
      match e.verdict
      case LookupAborted => Fail(s, Interruption)
      case Indeterminate => Fail(s, UndeterminedCache)
      case ContractInvalid => Go(s, Condemning(e.token))
      case Rejected => Go(s, Dropping(e.token))
      case Valid => Go(s, Preparing(e.token, false))
  }

  function DropStep(s: State, e: Event): Option<State>
    requires s.stage.Condemning? || s.stage.Dropping?
  {
    if s.stage.Condemning? then
      if !e.Revoked? || e.token != s.stage.token then None
      else if e.revocation.RevocationAborted? then Fail(s, Interruption)
      else if e.revocation.Unconfirmed? then Go(s, Warning(DropCached(e.token)))
      else Go(s, Dropping(e.token))
    else if !e.Cleared? then None
    else
      var file :- AfterClear(s.file, e.ok);
      var s' := s.(file := file);
      if e.ok then Go(s', LoggingIn(false)) else Fail(s', CacheFailure)
  }

  /** Why a new token is not used. */
  function UnusableToken(v: Verdict): Failure {
    if v.Indeterminate? then UndeterminedToken else UnfitToken
  }

  /** `_login_validate_and_save`. */
  function LoginStep(origin: string, s: State, e: Event): Option<State>
    requires s.stage.LoggingIn? || s.stage.Validating? || s.stage.Discarding? || s.stage.Saving?
  {
    match s.stage
    case LoggingIn(retry) =>
      if !e.Login? then None
      else if e.given.None? then Fail(s, LoginFailure)
      else Go(s, Validating(e.given.value, retry))
    case Validating(token, retry) =>
      if !e.LookedUp? || e.token != token then None
      else if e.verdict.LookupAborted? then Fail(s, Interruption)
      else if e.verdict.Valid? then Go(s, Saving(token, retry))
      else Go(s, Discarding(token, e.verdict))
    case Discarding(token, verdict) =>
      if !e.Revoked? || e.token != token then None
      else if e.revocation.RevocationAborted? then Fail(s, Interruption)
      else if e.revocation.Unconfirmed? then Go(s, Warning(Raise(UnusableToken(verdict))))
      else Fail(s, UnusableToken(verdict))
    case Saving(token, retry) =>
      if !e.Saved? || e.token != token then None
      else
        var file :- AfterSave(s.file, origin, token, e.save);
        var s' := s.(file := file);
        if !e.save.Stored? then Fail(s', CacheFailure)
        else if retry then Go(s', Requesting(token, true))
        else Go(s', Preparing(token, true))
  }

  function SignStep(s: State, e: Event): Option<State>
    requires s.stage.Preparing? || s.stage.Requesting? || s.stage.Refusing? || s.stage.Evicting? || s.stage.Certified?
  {
    match s.stage
    case Preparing(token, isNew) =>
      if e.Ready? then Go(s, Requesting(token, isNew))
      else if e.Stopped? then Fail(s, LocalFailure)
      else None
    case Requesting(token, isNew) =>
      if !e.Signed? || e.token != token then None
      else if e.signing.Issued? then Go(s, Certified(token))
      else if e.signing.Refused? then Go(s, Refusing(token, isNew))
      else Fail(s, SigningFailure)
    case Refusing(token, isNew) =>
      if !e.Revoked? || e.token != token then None
      else if e.revocation.RevocationAborted? then Fail(s, Interruption)
      else if e.revocation.Unconfirmed? && !isNew then Go(s, Warning(EvictCached(token)))
      else Go(s, Evicting(token, isNew, e.revocation.Unconfirmed?))
    case Evicting(token, isNew, doubtful) =>
      if !e.Cleared? then None
      else
        var file :- AfterClear(s.file, e.ok);
        var s' := s.(file := file);
        if !e.ok then Fail(s', CacheFailure)
        else if !isNew then Go(s', LoggingIn(true))
        else if doubtful then Go(s', Warning(Raise(RefusedToken)))
        else Fail(s', RefusedToken)
    case Certified(token) =>
      if e.Connected? then Finish(s, Exit(e.code))
      else if e.Stopped? then Fail(s, LocalFailure)
      else None
  }

  /** A warning comes before the clearing of a cached token and after everything else. */
  function WarnStep(request: Request, s: State, e: Event): Option<State>
    requires s.stage.Warning?
  {
    if !e.Warned? then None
    else if !e.ok then Fail(s, WarningFailure)
    else
      match s.stage.next
      case DropCached(token) => Go(s, Dropping(token))
      case EvictCached(token) => Go(s, Evicting(token, false, true))
      case EndReset => EndOfReset(request, s)
      case Raise(failure) => Fail(s, failure)
  }

  function Next(origin: string, request: Request, s: State, e: Event): Option<State> {
    match s.stage
    case Loading => LoadStep(origin, request, s, e)
    case Starting(_) => ReadyStep(request, s, e)
    case Resetting(_) => ResetStep(request, s, e)
    case Forgetting(_) => ResetStep(request, s, e)
    case Checking(_) => CheckStep(s, e)
    case Condemning(_) => DropStep(s, e)
    case Dropping(_) => DropStep(s, e)
    case LoggingIn(_) => LoginStep(origin, s, e)
    case Validating(_, _) => LoginStep(origin, s, e)
    case Discarding(_, _) => LoginStep(origin, s, e)
    case Saving(_, _) => LoginStep(origin, s, e)
    case Warning(_) => WarnStep(request, s, e)
    case Done(_) => None
    case _ => SignStep(s, e)
  }

  /** The state after a trace, if the protocol allows it. */
  function Follow(origin: string, request: Request, file: File, trace: seq<Event>): Option<State> {
    if trace == [] then Some(State(Loading, file))
    else
      var s :- Follow(origin, request, file, trace[..|trace| - 1]);
      Next(origin, request, s, trace[|trace| - 1])
  }

  // ---------- The world of a run ----------

  /** What the world does at each step of a run: whether local work succeeds, what a command answers, whether the first
    and the second call of a file operation (or a warning) work, and what the session returns. */
  datatype World = World(ready: nat -> bool, reply: nat -> Reply, works: nat -> bool, worksToo: nat -> bool,
                         code: nat -> int)

  /** The event is what the world did at step `i`, with the file as it was. */
  predicate Occurs(w: World, i: nat, origin: string, file: File, e: Event) {
    match e
    case Loaded(load) => w.ready(i) && load == LoadOf(file, origin, w.works(i), w.worksToo(i))
    case Ready => w.ready(i)
    case Stopped => !w.ready(i)
    case Login(_, reply) => reply == w.reply(i)
    case LookedUp(_, _, reply) => reply == w.reply(i)
    case Revoked(_, _, reply) => reply == w.reply(i)
    case Signed(_, _, reply, written) => reply == w.reply(i) && written == w.works(i)
    case Saved(token, save) => save == SaveOf(file, origin, token, w.works(i), w.worksToo(i))
    case Warned(ok) => ok == w.works(i)
    case Cleared(ok) => ok == ClearWorks(file, w.works(i))
    case Connected(code) => w.ready(i) && code == w.code(i)
  }

  /** The state after a trace that the protocol and the world allow. */
  function Drive(w: World, origin: string, request: Request, file: File, trace: seq<Event>): Option<State> {
    if trace == [] then Some(State(Loading, file))
    else
      var i := |trace| - 1;
      var s :- Drive(w, origin, request, file, trace[..i]);
      if Faithful(trace[i]) && Occurs(w, i, origin, s.file, trace[i]) then Next(origin, request, s, trace[i]) else None
  }

  // ---------- The helper ----------

  class Helper {
    const origin: string
    const request: Request
    const world: World
    const cache: Cache
    ghost const found: File
    var trace: seq<Event>

    constructor (origin: string, request: Request, world: World, cache: Cache)
      ensures this.origin == origin && this.request == request && this.world == world && this.cache == cache
      ensures found == cache.file && At(Loading)
    {
      this.origin, this.request, this.world, this.cache, trace := origin, request, world, cache, [];
      found := cache.file;
    }

    ghost function Now(): Option<State>
      reads this
    {
      Drive(world, origin, request, found, trace)
    }

    ghost predicate At(stage: Stage)
      reads this, cache
    {
      Now() == Some(State(stage, cache.file))
    }

    /** The protocol allows `e` after `s`. */
    ghost predicate Allows(s: Option<State>, e: Event)
      reads this
    {
      s.Some? && Now() == Next(origin, request, s.value, e)
    }

    method Note(e: Event)
      requires Now().Some? && Faithful(e) && Occurs(world, |trace|, origin, Now().value.file, e)
      modifies this`trace
      ensures trace == old(trace) + [e] && Allows(old(Now()), e)
    {
      trace := trace + [e];
      assert trace[..|trace| - 1] == old(trace);
    }

    /** Arguments, executables, the temporary key and the inspection of the certificate. */
    method Local() returns (ok: bool)
      requires Now().Some?
      modifies this`trace
      ensures Allows(old(Now()), if ok then Ready else Stopped)
    {
      ok := world.ready(|trace|);
      Note(if ok then Ready else Stopped);
    }

    method LogIn() returns (token: Option<string>, reply: Reply)
      requires Now().Some?
      modifies this`trace
      ensures token == TokenOf(reply) && Allows(old(Now()), Login(token, reply))
    {
      reply := world.reply(|trace|);
      token := TokenOf(reply);
      Note(Login(token, reply));
    }

    method Lookup(token: string) returns (v: Verdict, reply: Reply)
      requires Now().Some?
      modifies this`trace
      ensures v == VerdictOf(reply) && Allows(old(Now()), LookedUp(token, v, reply))
    {
      reply := world.reply(|trace|);
      v := VerdictOf(reply);
      Note(LookedUp(token, v, reply));
    }

    method Revoke(token: string) returns (r: Revocation, reply: Reply)
      requires Now().Some?
      modifies this`trace
      ensures r == RevocationOf(reply) && Allows(old(Now()), Revoked(token, r, reply))
    {
      reply := world.reply(|trace|);
      r := RevocationOf(reply);
      Note(Revoked(token, r, reply));
    }

    method Sign(token: string) returns (r: Signing, reply: Reply, written: bool)
      requires Now().Some?
      modifies this`trace
      ensures r == SigningOf(reply, written) && Allows(old(Now()), Signed(token, r, reply, written))
    {
      reply, written := world.reply(|trace|), world.works(|trace|);
      r := SigningOf(reply, written);
      Note(Signed(token, r, reply, written));
    }

    method ClearCache() returns (ok: bool)
      requires Now().Some? && Now().value.file == cache.file
      modifies this`trace, cache
      ensures Allows(old(Now()), Cleared(ok)) && AfterClear(old(cache.file), ok) == Some(cache.file)
    {
      ok := cache.Clear(world.works(|trace|));
      Note(Cleared(ok));
    }

    method Warn() returns (ok: bool)
      requires Now().Some?
      modifies this`trace
      ensures Allows(old(Now()), Warned(ok))
    {
      ok := world.works(|trace|);
      Note(Warned(ok));
    }

    /** Clears the cache of a token that is no longer to be used. */
    method Forget(ghost token: string, ghost retry: bool, ghost doubtful: bool) returns (r: Option<Failure>)
      requires At(if retry then Evicting(token, false, doubtful) else Dropping(token))
      modifies this`trace, cache
      ensures At(if r.Some? then Done(Raised(r.value)) else LoggingIn(retry))
    {
      var cleared := ClearCache();
      return if cleared then None else Some(CacheFailure);
    }

    /** Revokes a cached token that was refused or breaks the contract, warns if that is unconfirmed, and
      then clears the cache. */
    method EvictCachedToken(token: string, ghost retry: bool) returns (r: Option<Failure>)
      requires At(if retry then Refusing(token, false) else Condemning(token))
      modifies this`trace, cache
      ensures At(if r.Some? then Done(Raised(r.value)) else LoggingIn(retry))
    {
      var revoked, _ := Revoke(token);
      if revoked.RevocationAborted? {
        return Some(Interruption);
      }
      if revoked.Unconfirmed? {
        var warned := Warn();
        if !warned {
          return Some(WarningFailure);
        }
      }
      r := Forget(token, retry, revoked.Unconfirmed?);
    }

    /** Revokes a refused new token, clears the cache and warns if the revocation is unconfirmed. */
    method EvictNewToken(token: string) returns (failure: Failure)
      requires At(Refusing(token, true))
      modifies this`trace, cache
      ensures At(Done(Raised(failure)))
    {
      var revoked, _ := Revoke(token);
      if revoked.RevocationAborted? {
        return Interruption;
      }
      failure := ForgetRefused(token, revoked.Unconfirmed?);
    }

    method ForgetRefused(ghost token: string, doubtful: bool) returns (failure: Failure)
      requires At(Evicting(token, true, doubtful))
      modifies this`trace, cache
      ensures At(Done(Raised(failure)))
    {
      var cleared := ClearCache();
      if !cleared {
        return CacheFailure;
      }
      if doubtful {
        var warned := Warn();
        if !warned {
          return WarningFailure;
        }
      }
      return RefusedToken;
    }

    /** Revokes a new token that was not found valid, and warns if that is unconfirmed. */
    method DiscardToken(token: string, verdict: Verdict) returns (failure: Failure)
      requires At(Discarding(token, verdict))
      modifies this`trace
      ensures At(Done(Raised(failure)))
    {
      var revoked, _ := Revoke(token);
      if revoked.RevocationAborted? {
        return Interruption;
      }
      if revoked.Unconfirmed? {
        var warned := Warn();
        if !warned {
          return WarningFailure;
        }
      }
      return UnusableToken(verdict);
    }

    method LoginValidateAndSave(ghost retry: bool) returns (r: Result<string, Failure>)
      requires At(LoggingIn(retry))
      modifies this`trace, cache
      ensures r.Err? ==> At(Done(Raised(r.error)))
      ensures r.Ok? ==> At(if retry then Requesting(r.value, true) else Preparing(r.value, true))
    {
      var login, _ := LogIn();
      if login.None? {
        return Err(LoginFailure);
      }
      var token := login.value;
      var verdict, _ := Lookup(token);
      if verdict.LookupAborted? {
        return Err(Interruption);
      }
      if !verdict.Valid? {
        var failure := DiscardToken(token, verdict);
        return Err(failure);
      }
      var stored := SaveToken(token, retry);
      return if stored then Ok(token) else Err(CacheFailure);
    }

    method SaveToken(token: string, ghost retry: bool) returns (stored: bool)
      requires At(Saving(token, retry))
      modifies this`trace, cache
      ensures At(if !stored then Done(Raised(CacheFailure))
                 else if retry then Requesting(token, true) else Preparing(token, true))
    {
      var saved := cache.Write(origin, token, world.works(|trace|), world.worksToo(|trace|));
      Note(Saved(token, saved));
      return saved.Stored?;
    }

    /** Revokes and forgets the cached token; the clearing is a `finally` block. */
    method Reset(token: string) returns (r: Option<Failure>)
      requires At(Resetting(token))
      modifies this`trace, cache
      ensures r.Some? ==> At(Done(Raised(r.value)))
      ensures r.None? ==> At(if request.Logout? then Done(Exit(0)) else LoggingIn(false))
    {
      var revoked, _ := Revoke(token);
      var cleared := ClearCache();
      if !cleared {
        return Some(CacheFailure);
      }
      if revoked.RevocationAborted? {
        return Some(Interruption);
      }
      if revoked.Unconfirmed? {
        var warned := Warn();
        if !warned {
          return Some(WarningFailure);
        }
      }
      return None;
    }

    /** The token to sign with, and whether it is the cached one. */
    method ChooseToken(cached: Option<string>) returns (r: Result<(string, bool), Failure>)
      requires request.Connect?
      requires At(FirstStage(request, cached))
      modifies this`trace, cache
      ensures r.Err? ==> At(Done(Raised(r.error)))
      ensures r.Ok? ==> At(Preparing(r.value.0, !r.value.1))
    {
      if cached.Some? && request.reauth {
        var failure := Reset(cached.value);
        if failure.Some? {
          return Err(failure.value);
        }
      } else if cached.Some? {
        var verdict, _ := Lookup(cached.value);
        if verdict.LookupAborted? {
          return Err(Interruption);
        }
        if verdict.Indeterminate? {
          return Err(UndeterminedCache);
        }
        if verdict.Valid? {
          return Ok((cached.value, true));
        }
        if verdict.ContractInvalid? {
          var failure := EvictCachedToken(cached.value, false);
          if failure.Some? {
            return Err(failure.value);
          }
        } else {
          var failure := Forget(cached.value, false, false);
          if failure.Some? {
            return Err(failure.value);
          }
        }
      }
      var token := LoginValidateAndSave(false);
      return if token.Ok? then Ok((token.value, false)) else Err(token.error);
    }

    /** Signs; a refused cached token is replaced once. */
    method Certify(first: string, cachedToken: bool) returns (r: Option<Failure>)
      requires At(Requesting(first, !cachedToken))
      modifies this`trace, cache
      ensures r.Some? ==> At(Done(Raised(r.value)))
      ensures r.None? ==> exists token :: At(Certified(token))
    {
      var signing, _, _ := Sign(first);
      if signing.Refused? {
        if !cachedToken {
          var refused := EvictNewToken(first);
          return Some(refused);
        }
        var failure := EvictCachedToken(first, true);
        if failure.Some? {
          return failure;
        }
        var login := LoginValidateAndSave(true);
        if login.Err? {
          return Some(login.error);
        }
        var second, _, _ := Sign(login.value);
        if second.Refused? {
          var refused := EvictNewToken(login.value);
          return Some(refused);
        }
        signing := second;
      }
      return if signing.Issued? then None else Some(SigningFailure);
    }

    /** Opens the session once the arguments are known to be good. */
    method OpenSession(cached: Option<string>) returns (exit: Exit)
      requires request.Connect?
      requires At(FirstStage(request, cached))
      modifies this`trace, cache
      ensures At(Done(exit))
    {
      var token := ChooseToken(cached);
      if token.Err? {
        return Raised(token.error);
      }
      var ready := Local();
      if !ready {
        return Raised(LocalFailure);
      }
      var failure := Certify(token.value.0, token.value.1);
      if failure.Some? {
        return Raised(failure.value);
      }
      exit := Connect();
    }

    /** Inspects the certificate and hands over to the session. */
    method Connect() returns (exit: Exit)
      requires exists token :: At(Certified(token))
      modifies this`trace
      ensures At(Done(exit))
    {
      var connects, code := world.ready(|trace|), world.code(|trace|);
      Note(if connects then Connected(code) else Stopped);
      return if connects then Exit(code) else Raised(LocalFailure);
    }

    method LoadToken() returns (load: Load)
      requires At(Loading) && world.ready(|trace|)
      modifies this`trace, cache
      ensures At(match load
                 case LoadRaised => Done(Raised(CacheFailure))
                 case Found(token) => Starting(Some(token))
                 case Nothing => if request.Logout? then Done(Exit(0)) else Starting(None))
    {
      load := cache.Read(origin, world.works(|trace|), world.worksToo(|trace|));
      Note(Loaded(load));
    }

    /** `run`: every run is one the protocol allows, down to the content of the cache. */
    method Run() returns (exit: Exit)
      requires At(Loading)
      modifies this`trace, cache
      ensures At(Done(exit))
    {
      if !world.ready(|trace|) {
        Note(Stopped);
        return Raised(LocalFailure);
      }
      var load := LoadToken();
      if load.LoadRaised? {
        return Raised(CacheFailure);
      }
      var cached := if load.Found? then Some(load.token) else None;
      if request.Logout? && cached.None? {
        return Exit(0);
      }
      var ready := Local();
      if !ready {
        return Raised(LocalFailure);
      }
      if request.Logout? {
        var failure := Reset(cached.value);
        return if failure.Some? then Raised(failure.value) else Exit(0);
      }
      exit := OpenSession(cached);
    }
  }
}
