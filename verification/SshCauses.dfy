/** Why the SSH helper does what it does: its tokens, revocations, logins and failures trace back to what the
  commands answered. */
module SshCauses {
  import opened SshHelper
  import opened SshProofs
  import opened TokenCache
  import opened Wrappers

  // ---------- One world, one run ----------

  /** What the world drives the helper through is a run of the protocol. */
  lemma {:induction false} DriveFollows(w: World, origin: string, request: Request, file: File, trace: seq<Event>)
    requires Drive(w, origin, request, file, trace).Some?
    ensures Follow(origin, request, file, trace) == Drive(w, origin, request, file, trace)
  {
    if trace != [] {
      DriveFollows(w, origin, request, file, Init(trace));
    }
  }

  lemma LastIsFaithful(w: World, origin: string, request: Request, file: File, trace: seq<Event>)
    requires Drive(w, origin, request, file, trace).Some? && trace != []
    ensures Drive(w, origin, request, file, Init(trace)).Some? && Faithful(Last(trace))
  {
  }

  lemma FaithfulToLast(trace: seq<Event>)
    requires trace != [] && AllFaithful(Init(trace)) && Faithful(Last(trace))
    ensures AllFaithful(trace)
  {
    assert trace == Init(trace) + [Last(trace)];
  }

  /** Every event of such a run is what a command answered. */
  lemma {:induction false} DriveIsFaithful(w: World, origin: string, request: Request, file: File, trace: seq<Event>)
    requires Drive(w, origin, request, file, trace).Some?
    ensures AllFaithful(trace)
  {
    if trace != [] {
      LastIsFaithful(w, origin, request, file, trace);
      DriveIsFaithful(w, origin, request, file, Init(trace));
      FaithfulToLast(trace);
    }
  }

  /** The only event that can come next in this world. */
  function Due(w: World, i: nat, origin: string, s: State): Event {
    match s.stage
    case Loading =>
      if w.ready(i) then Loaded(LoadOf(s.file, origin, w.works(i), w.worksToo(i))) else Stopped
    case Certified(_) => if w.ready(i) then Connected(w.code(i)) else Stopped
    case Resetting(token) => Revoked(token, RevocationOf(w.reply(i)), w.reply(i))
    case Condemning(token) => Revoked(token, RevocationOf(w.reply(i)), w.reply(i))
    case Discarding(token, _) => Revoked(token, RevocationOf(w.reply(i)), w.reply(i))
    case Refusing(token, _) => Revoked(token, RevocationOf(w.reply(i)), w.reply(i))
    case Forgetting(_) => Cleared(ClearWorks(s.file, w.works(i)))
    case Dropping(_) => Cleared(ClearWorks(s.file, w.works(i)))
    case Evicting(_, _, _) => Cleared(ClearWorks(s.file, w.works(i)))
    case Checking(token) => LookedUp(token, VerdictOf(w.reply(i)), w.reply(i))
    case Validating(token, _) => LookedUp(token, VerdictOf(w.reply(i)), w.reply(i))
    case LoggingIn(_) => Login(TokenOf(w.reply(i)), w.reply(i))
    case Saving(token, _) => Saved(token, SaveOf(s.file, origin, token, w.works(i), w.worksToo(i)))
    case Requesting(token, _) => Signed(token, SigningOf(w.reply(i), w.works(i)), w.reply(i), w.works(i))
    case Warning(_) => Warned(w.works(i))
    case _ => if w.ready(i) then Ready else Stopped
  }

  lemma AcquiringIsDue(w: World, i: nat, origin: string, s: State, e: Event)
    requires Acquiring(s.stage) && LoginStep(origin, s, e).Some?
    requires Faithful(e) && Occurs(w, i, origin, s.file, e)
    ensures e == Due(w, i, origin, s)
  {
  }

  lemma EarlyIsDue(w: World, i: nat, origin: string, request: Request, s: State, e: Event)
    requires Early(s.stage) || s.stage.Condemning? || s.stage.Dropping? || s.stage.Warning?
    requires Faithful(e) && Occurs(w, i, origin, s.file, e) && Next(origin, request, s, e).Some?
    ensures e == Due(w, i, origin, s)
  {
  }

  lemma SigningIsDue(w: World, i: nat, origin: string, request: Request, s: State, e: Event)
    requires Faithful(e) && Occurs(w, i, origin, s.file, e) && SignStage(s.stage) && SignStep(s, e).Some?
    ensures e == Due(w, i, origin, s)
  {
  }

  predicate SignStage(stage: Stage) {
    stage.Preparing? || stage.Requesting? || stage.Refusing? || stage.Evicting? || stage.Certified?
  }

  /** In one world at most one event can come next. */
  lemma StepIsDetermined(w: World, i: nat, origin: string, request: Request, s: State, e: Event)
    requires Faithful(e) && Occurs(w, i, origin, s.file, e) && Next(origin, request, s, e).Some?
    ensures e == Due(w, i, origin, s)
  {
    if Acquiring(s.stage) {
      AcquiringIsDue(w, i, origin, s, e);
    } else if SignStage(s.stage) {
      SigningIsDue(w, i, origin, request, s, e);
    } else {
      EarlyIsDue(w, i, origin, request, s, e);
    }
  }

  lemma {:induction false} PrefixesDrive(w: World, origin: string, request: Request, file: File, trace: seq<Event>,
          i: nat)
    requires Drive(w, origin, request, file, trace).Some? && i <= |trace|
    ensures Drive(w, origin, request, file, trace[..i]).Some?
  {
    if i == |trace| {
      assert trace[..i] == trace;
    } else {
      PrefixesDrive(w, origin, request, file, Init(trace), i);
      assert Init(trace)[..i] == trace[..i];
    }
  }

  lemma EventIsDue(w: World, origin: string, request: Request, file: File, trace: seq<Event>, i: nat)
    requires Drive(w, origin, request, file, trace).Some? && i < |trace|
    ensures Drive(w, origin, request, file, trace[..i]).Some?
    ensures trace[i] == Due(w, i, origin, Drive(w, origin, request, file, trace[..i]).value)
  {
    PrefixesDrive(w, origin, request, file, trace, i);
    PrefixesDrive(w, origin, request, file, trace, i + 1);
    assert trace[..i + 1][..i] == trace[..i];
    StepIsDetermined(w, i, origin, request, Drive(w, origin, request, file, trace[..i]).value, trace[i]);
  }

  lemma NextAgrees(w: World, origin: string, request: Request, file: File, a: seq<Event>, b: seq<Event>, i: nat)
    requires Drive(w, origin, request, file, a).Some? && Drive(w, origin, request, file, b).Some?
    requires i < |a| && i < |b| && a[..i] == b[..i]
    ensures a[i] == b[i]
  {
    EventIsDue(w, origin, request, file, a, i);
    EventIsDue(w, origin, request, file, b, i);
  }

  lemma {:induction false} PrefixesAgree(w: World, origin: string, request: Request, file: File, a: seq<Event>,
          b: seq<Event>, i: nat)
    requires Drive(w, origin, request, file, a).Some? && Drive(w, origin, request, file, b).Some?
    requires i <= |a| && i <= |b|
    ensures a[..i] == b[..i]
  {
    if i > 0 {
      PrefixesAgree(w, origin, request, file, a, b, i - 1);
      NextAgrees(w, origin, request, file, a, b, i - 1);
      LongerAgree(a, b, i);
    }
  }

  lemma LongerAgree(a: seq<Event>, b: seq<Event>, i: nat)
    requires 0 < i <= |a| && i <= |b| && a[..i - 1] == b[..i - 1] && a[i - 1] == b[i - 1]
    ensures a[..i] == b[..i]
  {
    assert a[..i] == a[..i - 1] + [a[i - 1]] && b[..i] == b[..i - 1] + [b[i - 1]];
  }

  /** The world alone decides what the helper does: there is one run to an end in each world, so whatever ends where
    the protocol ends has done exactly this, event by event. */
  lemma RunsAreDetermined(w: World, origin: string, request: Request, file: File, a: seq<Event>, b: seq<Event>)
    requires Drive(w, origin, request, file, a).Some? && Drive(w, origin, request, file, a).value.stage.Done?
    requires Drive(w, origin, request, file, b).Some? && Drive(w, origin, request, file, b).value.stage.Done?
    ensures a == b
  {
    var n := if |a| <= |b| then |a| else |b|;
    PrefixesAgree(w, origin, request, file, a, b, n);
    assert a[..|a|] == a && b[..|b|] == b;
    if |a| < |b| {
      EndsOnce(w, origin, request, file, b, n);
    } else if |b| < |a| {
      EndsOnce(w, origin, request, file, a, n);
    }
  }

  lemma EndsOnce(w: World, origin: string, request: Request, file: File, trace: seq<Event>, i: nat)
    requires Drive(w, origin, request, file, trace).Some? && i < |trace|
    ensures Drive(w, origin, request, file, trace[..i]).Some?
    ensures !Drive(w, origin, request, file, trace[..i]).value.stage.Done?
  {
    PrefixesDrive(w, origin, request, file, trace, i);
    PrefixesDrive(w, origin, request, file, trace, i + 1);
    assert trace[..i + 1][..i] == trace[..i];
    DoneIsFinal(origin, request, Drive(w, origin, request, file, trace[..i]).value, trace[i]);
  }

  // ---------- Tokens and answers ----------

  /** The answer to a lookup shows a token that meets the contract. */
  ghost predicate ShowsConforming(e: Event) {
    e.LookedUp? && exists data :: Answers(e.reply, data) && Conforms(data)
  }

  /** An answer that speaks against the token it is about. */
  ghost predicate SpeaksAgainst(e: Event, token: string) {
    || (e.LookedUp? && e.token == token &&
        (RejectedBy(e.reply) || exists data :: Answers(e.reply, data) && !Conforms(data)))
    || (e.Signed? && e.token == token && RejectedBy(e.reply))
  }

  lemma JudgedByAnswer(known: Option<bool>, token: string, e: Event)
    requires Faithful(e) && Judge(known, token, e) == Some(true)
    ensures !SpeaksAgainst(e, token)
    ensures known == Some(true) || (ShowsConforming(e) && e.token == token)
  {
    if e.LookedUp? {
      VerdictIff(e.reply);
    }
    if e.Signed? {
      SigningIff(e.reply, e.written);
    }
  }

  lemma {:induction false} ValidLookup(trace: seq<Event>, token: string) returns (k: nat)
    requires AllFaithful(trace) && LastVerdict(trace, token) == Some(true)
    ensures k < |trace| && ShowsConforming(trace[k]) && trace[k].token == token
    ensures forall j :: k <= j < |trace| ==> !SpeaksAgainst(trace[j], token)
  {
    JudgedByAnswer(LastVerdict(Init(trace), token), token, Last(trace));
    if ShowsConforming(Last(trace)) && Last(trace).token == token {
      k := |trace| - 1;
    } else {
      k := ValidLookup(Init(trace), token);
      assert forall j :: 0 <= j < |Init(trace)| ==> trace[j] == Init(trace)[j];
    }
  }

  /** A certificate is asked for only with a token for which the server, earlier in this run, showed an answer that
    meets the contract, and against which nothing it answered since speaks. */
  lemma SignedTokensConform(origin: string, request: Request, file: File, trace: seq<Event>, i: nat) returns (k: nat)
    requires Follow(origin, request, file, trace).Some? && AllFaithful(trace)
    requires i < |trace| && trace[i].Signed?
    ensures k < i && ShowsConforming(trace[k]) && trace[k].token == trace[i].token
    ensures forall j :: k <= j < i ==> !SpeaksAgainst(trace[j], trace[i].token)
  {
    SigningsAreJustified(origin, request, file, trace, i);
    k := ValidLookup(trace[..i], trace[i].token);
    assert forall j :: 0 <= j < i ==> trace[..i][j] == trace[j];
  }

  /** A token is cached only if a login just printed it, and nothing but it, and the server just showed an answer for
    it that meets the contract. */
  lemma StoredTokensConform(origin: string, request: Request, file: File, trace: seq<Event>, i: nat)
    requires Follow(origin, request, file, trace).Some? && AllFaithful(trace) && i < |trace| && trace[i].Saved?
    ensures i >= 2 && ShowsConforming(trace[i - 1]) && trace[i - 1].token == trace[i].token
    ensures var printed := trace[i - 2];
            && printed.Login? && printed.reply.Ran? && printed.reply.code == 0 && printed.reply.text.Some?
            && OneWord(printed.reply.text.value, trace[i].token)
  {
    StoredTokensWereValid(origin, request, file, trace, i);
    VerdictIff(trace[i - 1].reply);
    TokenIff(trace[i - 2].reply, trace[i].token);
  }

  // ---------- Revocations ----------

  predicate IsReset(request: Request) {
    request.Logout? || request.reauth
  }

  lemma DueStep(origin: string, request: Request, found: File, s: State, e: Event)
    requires FileKnown(origin, found, s) && Next(origin, request, s, e).Some?
    ensures var s' := Next(origin, request, s, e).value;
            s'.stage.Resetting? ==> IsReset(request) && Held(found, origin) == Some(s'.stage.token)
  {
    if Acquiring(s.stage) {
      assert LoginStep(origin, s, e).Some?;
    }
  }

  /** A revocation is tried only for the cached token of a logout or renewed authentication, or directly after the
    command that found its token unusable. */
  lemma RevocationsAreDue(origin: string, request: Request, file: File, trace: seq<Event>, i: nat)
    requires Follow(origin, request, file, trace).Some? && i < |trace| && trace[i].Revoked?
    ensures || (IsReset(request) && Held(file, origin) == Some(trace[i].token) && NoVerdicts(trace[..i]))
            || (i > 0 && CallsForRevocation(trace, i - 1) && trace[i - 1].token == trace[i].token)
  {
    NothingAfterDone(origin, request, file, trace, i);
    NothingAfterDone(origin, request, file, trace, i + 1);
    assert trace[..i + 1][..i] == trace[..i];
    var s := Follow(origin, request, file, trace[..i]).value;
    RecentEvents(origin, request, file, trace[..i]);
    RevokedAt(origin, request, s, trace[i]);
    if s.stage.Resetting? {
      ResettingIsDue(origin, request, file, trace[..i]);
      NoEarlyVerdicts(origin, request, file, trace[..i]);
    } else {
      assert i > 0 && Last(trace[..i]) == trace[i - 1];
      assert s.stage.Discarding? ==> i > 1 && Last(Init(trace[..i])) == trace[i - 2];
    }
  }

  lemma RevokedAt(origin: string, request: Request, s: State, e: Event)
    requires Next(origin, request, s, e).Some? && e.Revoked?
    ensures (Revoking(s.stage) || s.stage.Resetting?) && e.token == s.stage.token
  {
    if Acquiring(s.stage) {
      assert LoginStep(origin, s, e).Some?;
    }
  }

  lemma ResettingIsDue(origin: string, request: Request, file: File, trace: seq<Event>)
    requires Follow(origin, request, file, trace).Some?
    requires Follow(origin, request, file, trace).value.stage.Resetting?
    ensures IsReset(request) && Held(file, origin) == Some(Follow(origin, request, file, trace).value.stage.token)
  {
    assert trace != [];
    FileIsKnown(origin, request, file, Init(trace));
    DueStep(origin, request, file, Follow(origin, request, file, Init(trace)).value, Last(trace));
  }

  // ---------- Failures ----------

  function EventsOf(trace: seq<Event>): set<Event> {
    set e | e in trace
  }

  predicate GotVerdict(seen: set<Event>, verdict: Verdict) {
    exists e :: e in seen && e.LookedUp? && e.verdict == verdict
  }

  predicate GotSigning(seen: set<Event>, signing: Signing) {
    exists e :: e in seen && e.Signed? && e.signing == signing
  }

  predicate GotInterrupted(seen: set<Event>) {
    exists e :: e in seen && e.Revoked? && e.revocation.RevocationAborted?
  }

  predicate GotNoToken(seen: set<Event>) {
    exists e :: e in seen && e.Login? && e.given.None?
  }

  predicate NotSaved(seen: set<Event>) {
    exists e :: e in seen && e.Saved? && !e.save.Stored?
  }

  /** What must have happened for a failure. */
  predicate Cause(seen: set<Event>, f: Failure) {
    match f
    case LocalFailure => Stopped in seen
    case CacheFailure => Loaded(LoadRaised) in seen || Cleared(false) in seen || NotSaved(seen)
    case Interruption => GotVerdict(seen, LookupAborted) || GotInterrupted(seen)
    case LoginFailure => GotNoToken(seen)
    case UnfitToken => GotVerdict(seen, Rejected) || GotVerdict(seen, ContractInvalid)
    case UndeterminedCache => GotVerdict(seen, Indeterminate)
    case UndeterminedToken => GotVerdict(seen, Indeterminate)
    case SigningFailure => GotSigning(seen, NotSigned)
    case RefusedToken => GotSigning(seen, Refused)
    case WarningFailure => Warned(false) in seen
  }

  predicate Accounted(request: Request, stage: Stage, seen: set<Event>) {
    match stage
    case Discarding(_, v) => !v.Valid? && !v.LookupAborted? && GotVerdict(seen, v)
    case Refusing(_, _) => GotSigning(seen, Refused)
    case Evicting(_, _, _) => GotSigning(seen, Refused)
    case Forgetting(r) => r.RevocationAborted? ==> GotInterrupted(seen)
    case Warning(EvictCached(_)) => GotSigning(seen, Refused)
    case Warning(Raise(f)) => Cause(seen, f)
    case Done(Raised(f)) => Cause(seen, f)
    case Done(Exit(code)) => if request.Logout? then code == 0 else Connected(code) in seen
    case _ => true
  }

  lemma SomeStays(seen: set<Event>, e: Event)
    ensures forall v :: GotVerdict(seen, v) ==> GotVerdict(seen + {e}, v)
    ensures forall v :: GotSigning(seen, v) ==> GotSigning(seen + {e}, v)
    ensures GotInterrupted(seen) ==> GotInterrupted(seen + {e})
    ensures e.LookedUp? ==> GotVerdict(seen + {e}, e.verdict)
    ensures e.Signed? ==> GotSigning(seen + {e}, e.signing)
    ensures e.Revoked? && e.revocation.RevocationAborted? ==> GotInterrupted(seen + {e})
    ensures e.Login? && e.given.None? ==> GotNoToken(seen + {e})
    ensures e.Saved? && !e.save.Stored? ==> NotSaved(seen + {e})
  {
    assert e in seen + {e};
  }

  lemma AccountedAcquiring(origin: string, request: Request, s: State, e: Event, seen: set<Event>)
    requires Acquiring(s.stage) && Accounted(request, s.stage, seen) && LoginStep(origin, s, e).Some?
    ensures Accounted(request, LoginStep(origin, s, e).value.stage, seen + {e})
  {
    SomeStays(seen, e);
  }

  lemma AccountedEarly(origin: string, request: Request, found: File, s: State, e: Event, seen: set<Event>)
    requires Early(s.stage) || s.stage.Condemning? || s.stage.Dropping?
    requires FileKnown(origin, found, s) && LogoutKnown(request, s.stage)
    requires Accounted(request, s.stage, seen) && Next(origin, request, s, e).Some?
    ensures Accounted(request, Next(origin, request, s, e).value.stage, seen + {e})
  {
    SomeStays(seen, e);
  }

  lemma AccountedSigning(request: Request, s: State, e: Event, seen: set<Event>)
    requires SignStage(s.stage) && SignStep(s, e).Some? && LogoutKnown(request, s.stage)
    requires Accounted(request, s.stage, seen)
    ensures Accounted(request, SignStep(s, e).value.stage, seen + {e})
  {
    SomeStays(seen, e);
  }

  lemma AccountedWarning(request: Request, s: State, e: Event, seen: set<Event>)
    requires s.stage.Warning? && WarnStep(request, s, e).Some? && LogoutKnown(request, s.stage)
    requires Accounted(request, s.stage, seen)
    ensures Accounted(request, WarnStep(request, s, e).value.stage, seen + {e})
  {
    SomeStays(seen, e);
  }

  lemma AccountedStep(origin: string, request: Request, found: File, s: State, e: Event, seen: set<Event>)
    requires FileKnown(origin, found, s) && LogoutKnown(request, s.stage)
    requires Accounted(request, s.stage, seen) && Next(origin, request, s, e).Some?
    ensures Accounted(request, Next(origin, request, s, e).value.stage, seen + {e})
  {
    if Acquiring(s.stage) {
      AccountedAcquiring(origin, request, s, e, seen);
    } else if SignStage(s.stage) {
      AccountedSigning(request, s, e, seen);
    } else if s.stage.Warning? {
      AccountedWarning(request, s, e, seen);
    } else {
      AccountedEarly(origin, request, found, s, e, seen);
    }
  }

  /** A logout never comes to the stages of a connection. */
  predicate LogoutKnown(request: Request, stage: Stage) {
    request.Logout? ==>
      || stage.Loading? || (stage.Starting? && stage.cached.Some?) || stage.Resetting? || stage.Forgetting?
      || stage == Warning(EndReset) || stage.Done?
  }

  lemma LogoutKnownStep(origin: string, request: Request, s: State, e: Event)
    requires LogoutKnown(request, s.stage) && Next(origin, request, s, e).Some?
    ensures LogoutKnown(request, Next(origin, request, s, e).value.stage)
  {
  }

  lemma {:induction false} RunIsAccounted(origin: string, request: Request, file: File, trace: seq<Event>)
    requires Follow(origin, request, file, trace).Some?
    ensures LogoutKnown(request, Follow(origin, request, file, trace).value.stage)
    ensures Accounted(request, Follow(origin, request, file, trace).value.stage, EventsOf(trace))
  {
    if trace != [] {
      var s := Follow(origin, request, file, Init(trace)).value;
      RunIsAccounted(origin, request, file, Init(trace));
      FileIsKnown(origin, request, file, Init(trace));
      LogoutKnownStep(origin, request, s, Last(trace));
      AccountedStep(origin, request, file, s, Last(trace), EventsOf(Init(trace)));
      assert trace == Init(trace) + [Last(trace)];
      assert EventsOf(trace) == EventsOf(Init(trace)) + {Last(trace)};
    }
  }

  /** Every end of a run has its cause in the run: a failure in an answer or a refusal of the system, a code in the
    session that returned it. */
  lemma EndsHaveCauses(origin: string, request: Request, file: File, trace: seq<Event>, exit: Exit, end: File)
    requires Follow(origin, request, file, trace) == Some(State(Done(exit), end))
    ensures exit.Raised? ==> Cause(EventsOf(trace), exit.failure)
    ensures exit.Exit? && request.Connect? ==> Connected(exit.code) in trace
    ensures exit.Exit? && request.Logout? ==> exit.code == 0
  {
    RunIsAccounted(origin, request, file, trace);
  }

  // ---------- Logins ----------

  /** Why a login is needed: nothing usable was cached, it was asked for, or the cached token proved bad. */
  predicate LoginDue(request: Request, cached: Option<string>, known: Option<bool>) {
    request.Connect? && (cached.None? || request.reauth || known == Some(false))
  }

  /** The stages before a login, with what is known about the cached token. */
  predicate OnTheWayToLogin(request: Request, cached: Option<string>, stage: Stage, known: Option<bool>) {
    match stage
    case Starting(c) => c == cached
    case Checking(token) => cached == Some(token)
    case Condemning(token) => cached == Some(token) && known == Some(false)
    case Dropping(token) => cached == Some(token) && known == Some(false)
    case Preparing(token, isNew) => !isNew ==> cached == Some(token)
    case Requesting(token, isNew) => !isNew ==> cached == Some(token)
    case Refusing(token, isNew) => !isNew ==> cached == Some(token) && known == Some(false)
    case Evicting(token, isNew, _) => !isNew ==> cached == Some(token) && known == Some(false)
    case Warning(DropCached(token)) => cached == Some(token) && known == Some(false)
    case Warning(EvictCached(token)) => cached == Some(token) && known == Some(false)
    case Warning(EndReset) => IsReset(request)
    case Resetting(_) => IsReset(request)
    case Forgetting(_) => IsReset(request)
    case LoggingIn(_) => LoginDue(request, cached, known)
    case _ => true
  }

  function Knows(known: Option<bool>, cached: Option<string>, e: Event): Option<bool> {
    if cached.Some? then Judge(known, cached.value, e) else known
  }

  lemma LoginDueWarning(origin: string, request: Request, found: File, s: State, e: Event, known: Option<bool>)
    requires s.stage.Warning? && WarnStep(request, s, e).Some? && LogoutKnown(request, s.stage)
    requires OnTheWayToLogin(request, Held(found, origin), s.stage, known)
    ensures var cached := Held(found, origin);
            OnTheWayToLogin(request, cached, WarnStep(request, s, e).value.stage, Knows(known, cached, e))
  {
  }

  lemma LoginDueEarly(origin: string, request: Request, found: File, s: State, e: Event, known: Option<bool>)
    requires (Early(s.stage) && !s.stage.Warning?) || s.stage.Condemning? || s.stage.Dropping?
    requires FileKnown(origin, found, s) && LogoutKnown(request, s.stage) && Next(origin, request, s, e).Some?
    requires OnTheWayToLogin(request, Held(found, origin), s.stage, known)
    ensures var cached := Held(found, origin);
            OnTheWayToLogin(request, cached, Next(origin, request, s, e).value.stage, Knows(known, cached, e))
  {
  }

  lemma LoginDueSigning(origin: string, request: Request, found: File, s: State, e: Event, known: Option<bool>)
    requires s.stage.Preparing? || s.stage.Requesting? || s.stage.Refusing? || s.stage.Evicting?
    requires FileKnown(origin, found, s) && LogoutKnown(request, s.stage) && Next(origin, request, s, e).Some?
    requires OnTheWayToLogin(request, Held(found, origin), s.stage, known)
    ensures var cached := Held(found, origin);
            OnTheWayToLogin(request, cached, Next(origin, request, s, e).value.stage, Knows(known, cached, e))
  {
  }

  lemma LoginDueStep(origin: string, request: Request, found: File, s: State, e: Event, known: Option<bool>)
    requires FileKnown(origin, found, s) && LogoutKnown(request, s.stage) && Next(origin, request, s, e).Some?
    requires OnTheWayToLogin(request, Held(found, origin), s.stage, known)
    ensures var cached := Held(found, origin);
            OnTheWayToLogin(request, cached, Next(origin, request, s, e).value.stage, Knows(known, cached, e))
  {
    if s.stage.Warning? {
      LoginDueWarning(origin, request, found, s, e, known);
    } else if Early(s.stage) || s.stage.Condemning? || s.stage.Dropping? {
      LoginDueEarly(origin, request, found, s, e, known);
    } else if Acquiring(s.stage) {
      assert LoginStep(origin, s, e).Some?;
    } else if !s.stage.Certified? {
      LoginDueSigning(origin, request, found, s, e, known);
    }
  }

  function KnownOf(trace: seq<Event>, cached: Option<string>): Option<bool> {
    if cached.Some? then LastVerdict(trace, cached.value) else None
  }

  lemma {:induction false} RunIsOnTheWay(origin: string, request: Request, file: File, trace: seq<Event>)
    requires Follow(origin, request, file, trace).Some?
    ensures OnTheWayToLogin(request, Held(file, origin), Follow(origin, request, file, trace).value.stage,
                            KnownOf(trace, Held(file, origin)))
  {
    if trace != [] {
      RunIsOnTheWay(origin, request, file, Init(trace));
      RunIsAccounted(origin, request, file, Init(trace));
      FileIsKnown(origin, request, file, Init(trace));
      LoginDueStep(origin, request, file, Follow(origin, request, file, Init(trace)).value, Last(trace),
                   KnownOf(Init(trace), Held(file, origin)));
    }
  }

  /** The user is asked to log in only by a connection that found no token, was asked to authenticate again, or has
    learned that the token it found is bad; and the cache is empty by then. */
  lemma LoginsAreNeeded(origin: string, request: Request, file: File, trace: seq<Event>, i: nat)
    requires Follow(origin, request, file, trace).Some? && i < |trace| && trace[i].Login?
    ensures request.Connect?
    ensures var cached := Held(file, origin);
            cached.None? || request.reauth || LastVerdict(trace[..i], cached.value) == Some(false)
    ensures Follow(origin, request, file, trace[..i]).Some?
    ensures Follow(origin, request, file, trace[..i]).value.file == Absent
  {
    NothingAfterDone(origin, request, file, trace, i);
    NothingAfterDone(origin, request, file, trace, i + 1);
    assert trace[..i + 1][..i] == trace[..i];
    RunIsOnTheWay(origin, request, file, trace[..i]);
    FileIsKnown(origin, request, file, trace[..i]);
    LoginAt(origin, request, Follow(origin, request, file, trace[..i]).value, trace[i]);
  }

  lemma LoginAt(origin: string, request: Request, s: State, e: Event)
    requires Next(origin, request, s, e).Some? && e.Login?
    ensures s.stage.LoggingIn?
  {
  }

  /** Authenticating again uses nothing but the token of its own login. */
  predicate StartsOver(stage: Stage) {
    && !stage.Checking? && !stage.Condemning? && !stage.Dropping?
    && (stage.Preparing? || stage.Requesting? || stage.Refusing? || stage.Evicting? ==> stage.isNew)
    && (stage.Warning? ==> !stage.next.DropCached? && !stage.next.EvictCached?)
  }

  lemma StartsOverStep(origin: string, s: State, e: Event)
    requires StartsOver(s.stage) && Next(origin, Connect(true), s, e).Some?
    ensures StartsOver(Next(origin, Connect(true), s, e).value.stage)
    ensures e.LookedUp? ==> s.stage.Validating?
    ensures e.Signed? ==> s.stage.Requesting? && s.stage.isNew
  {
    if Acquiring(s.stage) {
      assert LoginStep(origin, s, e).Some?;
    }
  }

  lemma {:induction false} RunStartsOver(origin: string, file: File, trace: seq<Event>)
    requires Follow(origin, Connect(true), file, trace).Some?
    ensures StartsOver(Follow(origin, Connect(true), file, trace).value.stage)
  {
    if trace != [] {
      RunStartsOver(origin, file, Init(trace));
      StartsOverStep(origin, Follow(origin, Connect(true), file, Init(trace)).value, Last(trace));
    }
  }

  /** When the user asks to authenticate again, every lookup and every certificate comes after a new login. */
  lemma ReauthStartsOver(origin: string, file: File, trace: seq<Event>, i: nat)
    requires Follow(origin, Connect(true), file, trace).Some? && i < |trace|
    requires trace[i].LookedUp? || trace[i].Signed?
    ensures Logins(trace[..i]) == 1
  {
    NothingAfterDone(origin, Connect(true), file, trace, i);
    NothingAfterDone(origin, Connect(true), file, trace, i + 1);
    assert trace[..i + 1][..i] == trace[..i];
    RunStartsOver(origin, file, trace[..i]);
    Counts(origin, Connect(true), file, trace[..i]);
    StartsOverStep(origin, Follow(origin, Connect(true), file, trace[..i]).value, trace[i]);
  }
}
