/** What every run of the SSH helper keeps, however its commands answer and wherever it is interrupted. */
module SshProofs {
  import opened SshHelper
  import opened TokenCache
  import opened Wrappers

  function Init(trace: seq<Event>): seq<Event>
    requires trace != []
  {
    trace[..|trace| - 1]
  }

  function Last(trace: seq<Event>): Event
    requires trace != []
  {
    trace[|trace| - 1]
  }

  /** No token has been judged yet. */
  predicate Early(stage: Stage) {
    || stage.Loading? || stage.Starting? || stage.Resetting? || stage.Forgetting? || stage.Checking?
    || stage == Warning(EndReset)
  }

  predicate Acquiring(stage: Stage) {
    stage.LoggingIn? || stage.Validating? || stage.Discarding? || stage.Saving?
  }

  /** A warning is due before a cached token is cleared. */
  predicate WarnsOf(stage: Stage, token: string) {
    stage == Warning(DropCached(token)) || stage == Warning(EvictCached(token))
  }

  // ---------- Measures of a trace ----------

  function Logins(trace: seq<Event>): nat {
    if trace == [] then 0 else Logins(Init(trace)) + if Last(trace).Login? then 1 else 0
  }

  function Signings(trace: seq<Event>): nat {
    if trace == [] then 0 else Signings(Init(trace)) + if Last(trace).Signed? then 1 else 0
  }

  /** What an event says about a token, after what was known. */
  function Judge(known: Option<bool>, token: string, e: Event): Option<bool> {
    if e.LookedUp? && e.token == token && (e.verdict.Valid? || e.verdict.Rejected? || e.verdict.ContractInvalid?)
    then Some(e.verdict.Valid?)
    else if e.Signed? && e.token == token && e.signing.Refused? then Some(false)
    else known
  }

  /** The last thing the run learned about a token: `Some(false)` once it was rejected, found to break
    the contract or refused while signing. */
  function LastVerdict(trace: seq<Event>, token: string): Option<bool> {
    if trace == [] then None else Judge(LastVerdict(Init(trace), token), token, Last(trace))
  }

  predicate IsRefusal(e: Event, cached: Option<string>) {
    e.Signed? && e.signing.Refused? && cached == Some(e.token)
  }

  /** Every signing so far was a refusal of the token the run found in the cache. */
  predicate OnlyRefusals(trace: seq<Event>, cached: Option<string>) {
    forall i :: 0 <= i < |trace| && trace[i].Signed? ==> IsRefusal(trace[i], cached)
  }

  // ---------- How many commands ----------

  function StepsLeft(stage: Stage): nat {
    match stage
    case Loading => 15
    case Starting(_) => 14
    case Resetting(_) => 11
    case Forgetting(_) => 10
    case Checking(_) => 13
    case Condemning(_) => 11
    case Dropping(_) => 9
    case LoggingIn(retry) => if retry then 7 else 8
    case Validating(_, retry) => if retry then 6 else 7
    case Discarding(_, _) => 2
    case Saving(_, retry) => if retry then 5 else 6
    case Preparing(_, isNew) => if isNew then 5 else 12
    case Requesting(_, isNew) => if isNew then 4 else 11
    case Refusing(_, isNew) => if isNew then 3 else 10
    case Evicting(_, isNew, _) => if isNew then 2 else 8
    case Warning(next) => if next.DropCached? then 10 else if next.Raise? then 1 else 9
    case Certified(_) => 1
    case Done(_) => 0
  }

  lemma LoginStepCounts(origin: string, s: State, e: Event)
    requires Acquiring(s.stage) && LoginStep(origin, s, e).Some?
    ensures StepsLeft(LoginStep(origin, s, e).value.stage) < StepsLeft(s.stage)
  {
  }

  lemma EveryStepCounts(origin: string, request: Request, s: State, e: Event)
    requires Next(origin, request, s, e).Some?
    ensures StepsLeft(Next(origin, request, s, e).value.stage) < StepsLeft(s.stage)
  {
    if Acquiring(s.stage) {
      LoginStepCounts(origin, s, e);
    }
  }

  /** A run takes at most 15 steps. */
  lemma {:induction false} RunsAreBounded(origin: string, request: Request, file: File, trace: seq<Event>)
    requires Follow(origin, request, file, trace).Some?
    ensures |trace| + StepsLeft(Follow(origin, request, file, trace).value.stage) <= 15
  {
    if trace != [] {
      RunsAreBounded(origin, request, file, Init(trace));
      EveryStepCounts(origin, request, Follow(origin, request, file, Init(trace)).value, Last(trace));
    }
  }

  /** Logins and signings already made, as far as the stage tells. */
  predicate Counted(stage: Stage, logins: nat, signings: nat) {
    match stage
    case Saving(_, retry) => logins == 1 && signings == (if retry then 1 else 0)
    case Validating(_, retry) => logins == 1 && signings == (if retry then 1 else 0)
    case Discarding(_, _) => logins == 1 && signings <= 1
    case LoggingIn(retry) => logins == 0 && signings == (if retry then 1 else 0)
    case Preparing(_, isNew) => logins == (if isNew then 1 else 0) && signings == 0
    case Requesting(_, isNew) => logins == (if isNew then 1 else 0) && signings <= logins
    case Refusing(_, isNew) => logins == (if isNew then 1 else 0) && 1 <= signings <= logins + 1
    case Evicting(_, isNew, _) => logins == (if isNew then 1 else 0) && 1 <= signings <= logins + 1
    case Warning(next) =>
      && logins == (if next.Raise? then 1 else 0)
      && (if next.EvictCached? then signings == 1 else signings <= 2 * logins)
    case Certified(_) => logins <= 1 && signings <= logins + 1
    case Done(_) => logins <= 1 && signings <= logins + 1
    case _ => logins == 0 && signings == 0
  }

  lemma LoginIsCounted(origin: string, s: State, logins: nat, signings: nat, e: Event)
    requires Acquiring(s.stage) && Counted(s.stage, logins, signings) && LoginStep(origin, s, e).Some?
    ensures Counted(LoginStep(origin, s, e).value.stage, logins + if e.Login? then 1 else 0, signings)
    ensures !e.Signed?
  {
  }

  lemma CountsStep(origin: string, request: Request, s: State, logins: nat, signings: nat, e: Event)
    requires Counted(s.stage, logins, signings) && Next(origin, request, s, e).Some?
    ensures Counted(Next(origin, request, s, e).value.stage,
                    logins + if e.Login? then 1 else 0, signings + if e.Signed? then 1 else 0)
  {
    if Acquiring(s.stage) {
      LoginIsCounted(origin, s, logins, signings, e);
    }
  }

  lemma {:induction false} Counts(origin: string, request: Request, file: File, trace: seq<Event>)
    requires Follow(origin, request, file, trace).Some?
    ensures Counted(Follow(origin, request, file, trace).value.stage, Logins(trace), Signings(trace))
  {
    if trace != [] {
      Counts(origin, request, file, Init(trace));
      CountsStep(origin, request, Follow(origin, request, file, Init(trace)).value,
                 Logins(Init(trace)), Signings(Init(trace)), Last(trace));
    }
  }

  // ---------- What each stage knows ----------

  /** What the file holds at a stage; `found` is the file the run started with. */
  predicate FileKnown(origin: string, found: File, s: State) {
    match s.stage
    case Loading => s.file == found
    case Starting(cached) =>
      Held(s.file, origin) == cached && (if cached.Some? then s.file == found else s.file == Absent)
    case Resetting(token) => s.file == found && Held(s.file, origin) == Some(token)
    case Forgetting(_) => s.file == found
    case Checking(token) => s.file == found && Held(s.file, origin) == Some(token)
    case Condemning(token) => Held(s.file, origin) == Some(token)
    case Dropping(token) => Held(s.file, origin) == Some(token)
    case Preparing(token, isNew) => Held(s.file, origin) == Some(token) && (!isNew ==> s.file == found)
    case Requesting(token, isNew) => Held(s.file, origin) == Some(token) && (!isNew ==> s.file == found)
    case Refusing(token, isNew) => Held(s.file, origin) == Some(token) && (!isNew ==> s.file == found)
    case Evicting(token, _, _) => Held(s.file, origin) == Some(token)
    case Warning(DropCached(token)) => Held(s.file, origin) == Some(token)
    case Warning(EvictCached(token)) => Held(s.file, origin) == Some(token)
    case Certified(token) => Held(s.file, origin) == Some(token)
    case Done(_) => true
    case _ => s.file == Absent
  }

  lemma FileKnownStarting(origin: string, request: Request, found: File, s: State, e: Event)
    requires s.stage.Loading? || s.stage.Starting?
    requires FileKnown(origin, found, s) && Next(origin, request, s, e).Some?
    ensures FileKnown(origin, found, Next(origin, request, s, e).value)
  {
  }

  lemma FileKnownEarly(origin: string, request: Request, found: File, s: State, e: Event)
    requires (Early(s.stage) || s.stage.Condemning? || s.stage.Dropping?) && !s.stage.Warning?
    requires !s.stage.Loading? && !s.stage.Starting?
    requires FileKnown(origin, found, s) && Next(origin, request, s, e).Some?
    ensures FileKnown(origin, found, Next(origin, request, s, e).value)
  {
  }

  lemma FileKnownWarning(origin: string, request: Request, found: File, s: State, e: Event)
    requires s.stage.Warning?
    requires FileKnown(origin, found, s) && Next(origin, request, s, e).Some?
    ensures FileKnown(origin, found, Next(origin, request, s, e).value)
  {
  }

  lemma FileKnownAcquiring(origin: string, request: Request, found: File, s: State, e: Event)
    requires Acquiring(s.stage)
    requires FileKnown(origin, found, s) && Next(origin, request, s, e).Some?
    ensures FileKnown(origin, found, Next(origin, request, s, e).value)
  {
    assert LoginStep(origin, s, e).Some?;
    if s.stage.Saving? {
      WrittenReadsBack(origin, s.stage.token);
    }
  }

  lemma FileKnownSigning(origin: string, request: Request, found: File, s: State, e: Event)
    requires !Early(s.stage) && !Acquiring(s.stage) && !s.stage.Condemning? && !s.stage.Dropping? && !s.stage.Warning?
    requires FileKnown(origin, found, s) && Next(origin, request, s, e).Some?
    ensures FileKnown(origin, found, Next(origin, request, s, e).value)
  {
  }

  lemma {:induction false} FileIsKnown(origin: string, request: Request, file: File, trace: seq<Event>)
    requires Follow(origin, request, file, trace).Some?
    ensures FileKnown(origin, file, Follow(origin, request, file, trace).value)
  {
    if trace != [] {
      FileIsKnown(origin, request, file, Init(trace));
      var s := Follow(origin, request, file, Init(trace)).value;
      if Acquiring(s.stage) {
        FileKnownAcquiring(origin, request, file, s, Last(trace));
      } else if s.stage.Warning? {
        FileKnownWarning(origin, request, file, s, Last(trace));
      } else if s.stage.Loading? || s.stage.Starting? {
        FileKnownStarting(origin, request, file, s, Last(trace));
      } else if Early(s.stage) || s.stage.Condemning? || s.stage.Dropping? {
        FileKnownEarly(origin, request, file, s, Last(trace));
      } else {
        FileKnownSigning(origin, request, file, s, Last(trace));
      }
    }
  }

  predicate NoVerdicts(trace: seq<Event>) {
    forall i :: 0 <= i < |trace| ==> !trace[i].LookedUp? && !trace[i].Signed?
  }

  function Latest(trace: seq<Event>): Option<Event> {
    if trace == [] then None else Some(Last(trace))
  }

  function SecondLatest(trace: seq<Event>): Option<Event> {
    if trace == [] then None else Latest(Init(trace))
  }

  predicate Gave(e: Option<Event>, token: string) {
    e.Some? && e.value.Login? && e.value.given == Some(token)
  }

  predicate Judged(e: Option<Event>, token: string, verdict: Verdict) {
    e.Some? && e.value.LookedUp? && e.value.token == token && e.value.verdict == verdict
  }

  predicate Tried(e: Option<Event>, token: string, signing: Signing) {
    e.Some? && e.value.Signed? && e.value.token == token && e.value.signing == signing
  }

  predicate Withdrew(e: Option<Event>, token: string) {
    e.Some? && e.value.Revoked? && e.value.token == token
  }

  predicate InDoubt(e: Option<Event>, token: string) {
    Withdrew(e, token) && e.value.revocation.Unconfirmed?
  }

  /** The last event `e` and the one before it, `d`, at a stage. */
  predicate Recent(stage: Stage, d: Option<Event>, e: Option<Event>) {
    match stage
    case Condemning(token) => Judged(e, token, ContractInvalid)
    case Validating(token, _) => Gave(e, token)
    case Discarding(token, v) => !v.Valid? && !v.LookupAborted? && Judged(e, token, v) && Gave(d, token)
    case Saving(token, _) => Judged(e, token, Valid) && Gave(d, token)
    case Refusing(token, _) => Tried(e, token, Refused)
    case Evicting(token, isNew, _) => isNew ==> Withdrew(e, token) && Tried(d, token, Refused)
    case Warning(DropCached(token)) => InDoubt(e, token) && Judged(d, token, ContractInvalid)
    case Warning(EvictCached(token)) => InDoubt(e, token) && Tried(d, token, Refused)
    case Warning(EndReset) => e == Some(Cleared(true))
    case Warning(Raise(_)) => e == Some(Cleared(true)) || (e.Some? && e.value.Revoked? && d.Some? && d.value.LookedUp?)
    case Certified(token) => Tried(e, token, Issued)
    case _ => true
  }

  lemma RecentStep(origin: string, request: Request, s: State, c: Option<Event>, d: Option<Event>, e: Event)
    requires Recent(s.stage, c, d) && Next(origin, request, s, e).Some?
    ensures Recent(Next(origin, request, s, e).value.stage, d, Some(e))
  {
    if Acquiring(s.stage) {
      assert LoginStep(origin, s, e).Some?;
    }
  }

  /** The events that lead into a stage. */
  lemma {:induction false} RecentEvents(origin: string, request: Request, file: File, trace: seq<Event>)
    requires Follow(origin, request, file, trace).Some?
    ensures Recent(Follow(origin, request, file, trace).value.stage, SecondLatest(trace), Latest(trace))
  {
    if trace != [] {
      RecentEvents(origin, request, file, Init(trace));
      RecentStep(origin, request, Follow(origin, request, file, Init(trace)).value,
                 SecondLatest(Init(trace)), Latest(Init(trace)), Last(trace));
    }
  }

  /** Logging in never leads back, and ends a run only by raising. */
  lemma AcquiringOnward(origin: string, request: Request, s: State, e: Event)
    ensures Acquiring(s.stage) && Next(origin, request, s, e).Some? ==>
            var stage := Next(origin, request, s, e).value.stage;
            !Early(stage) && (stage.Done? ==> stage.exit.Raised?) && (forall token :: !Distrusts(stage, token))
  {
    if Acquiring(s.stage) && Next(origin, request, s, e).Some? {
      assert LoginStep(origin, s, e).Some?;
    }
  }

  lemma StaysEarly(origin: string, request: Request, s: State, e: Event)
    requires Next(origin, request, s, e).Some? && Early(Next(origin, request, s, e).value.stage)
    ensures Early(s.stage) && !e.LookedUp? && !e.Signed?
  {
    AcquiringOnward(origin, request, s, e);
  }

  lemma {:induction false} NoEarlyVerdicts(origin: string, request: Request, file: File, trace: seq<Event>)
    requires Follow(origin, request, file, trace).Some? && Early(Follow(origin, request, file, trace).value.stage)
    ensures NoVerdicts(trace)
  {
    if trace != [] {
      StaysEarly(origin, request, Follow(origin, request, file, Init(trace)).value, Last(trace));
      NoEarlyVerdicts(origin, request, file, Init(trace));
      assert trace == Init(trace) + [Last(trace)];
    }
  }

  lemma {:induction false} NoVerdictsNoJudgement(trace: seq<Event>, token: string)
    requires NoVerdicts(trace)
    ensures LastVerdict(trace, token) == None
  {
    if trace != [] {
      NoVerdictsNoJudgement(Init(trace), token);
    }
  }

  predicate Trusts(stage: Stage, token: string) {
    || (stage.Saving? && stage.token == token) || (stage.Preparing? && stage.token == token)
    || (stage.Requesting? && stage.token == token) || (stage.Certified? && stage.token == token)
  }

  predicate Distrusts(stage: Stage, token: string) {
    || (stage.Condemning? && stage.token == token) || (stage.Dropping? && stage.token == token)
    || (stage.Refusing? && stage.token == token) || (stage.Evicting? && stage.token == token)
    || WarnsOf(stage, token)
  }

  predicate Justified(stage: Stage, token: string, known: Option<bool>) {
    && (Trusts(stage, token) ==> known == Some(true))
    && (Distrusts(stage, token) ==> known == Some(false))
  }

  lemma TrustStep(origin: string, request: Request, s: State, token: string, known: Option<bool>, e: Event)
    requires Justified(s.stage, token, known) && Next(origin, request, s, e).Some?
    ensures Trusts(Next(origin, request, s, e).value.stage, token) ==> Judge(known, token, e) == Some(true)
  {
    if Acquiring(s.stage) {
      assert LoginStep(origin, s, e).Some?;
    }
  }

  lemma DistrustStep(origin: string, request: Request, s: State, token: string, known: Option<bool>, e: Event)
    requires Justified(s.stage, token, known) && Next(origin, request, s, e).Some?
    ensures Distrusts(Next(origin, request, s, e).value.stage, token) ==> Judge(known, token, e) == Some(false)
  {
    AcquiringOnward(origin, request, s, e);
  }

  /** A token is used only while the last word on it is that it is valid, and dropped only after the
    last word on it was that it is not. */
  lemma {:induction false} StagesAreJustified(origin: string, request: Request, file: File, trace: seq<Event>,
          token: string)
    requires Follow(origin, request, file, trace).Some?
    ensures Justified(Follow(origin, request, file, trace).value.stage, token, LastVerdict(trace, token))
  {
    if trace != [] {
      StagesAreJustified(origin, request, file, Init(trace), token);
      var s, known := Follow(origin, request, file, Init(trace)).value, LastVerdict(Init(trace), token);
      TrustStep(origin, request, s, token, known, Last(trace));
      DistrustStep(origin, request, s, token, known, Last(trace));
    }
  }

  // ---------- What a run leaves in the cache ----------

  /** The cache holds a token that the run knows to be bad. */
  predicate KeepsBadToken(file: File, origin: string, trace: seq<Event>) {
    Held(file, origin).Some? && LastVerdict(trace, Held(file, origin).value) == Some(false)
  }

  /** The last event revokes a token the cache holds, after a verdict on it. (A new token is looked up
    before it is stored.) */
  predicate RevokesKept(trace: seq<Event>) {
    && trace != [] && Last(trace).Revoked? && SecondLatest(trace).Some?
    && (|| SecondLatest(trace).value.Signed?
        || (SecondLatest(trace).value.LookedUp? && Logins(trace) == 0))
  }

  /** The run broke off on its way from a verdict to the clearing: the revocation was interrupted, the
    warning that it is unconfirmed could not be printed before the clearing, or the clearing raised. */
  predicate CutShort(trace: seq<Event>) {
    && trace != []
    && (|| (Last(trace) == Cleared(false) && !NoVerdicts(trace))
        || (Last(trace) == Warned(false) && RevokesKept(Init(trace)))
        || (RevokesKept(trace) && Last(trace).revocation.RevocationAborted?))
  }

  predicate EndsClean(origin: string, s: State, trace: seq<Event>) {
    KeepsBadToken(s.file, origin, trace) <==> CutShort(trace)
  }

  /** A run that ends before any verdict knows of no bad token. */
  lemma CleanWithoutVerdicts(origin: string, s: State, trace: seq<Event>)
    requires NoVerdicts(trace)
    ensures EndsClean(origin, s, trace)
  {
    if Held(s.file, origin).Some? {
      NoVerdictsNoJudgement(trace, Held(s.file, origin).value);
    }
    if trace != [] && Init(trace) != [] {
      assert Last(Init(trace)) == trace[|trace| - 2];
      if Init(Init(trace)) != [] {
        assert Last(Init(Init(trace))) == trace[|trace| - 3];
      }
    }
  }

  /** The lookup of the cached token ends a run only without a verdict. */
  lemma CleanChecking(origin: string, request: Request, file: File, trace: seq<Event>)
    requires trace != []
    requires Follow(origin, request, file, Init(trace)).Some? && Follow(origin, request, file, trace).Some?
    requires Follow(origin, request, file, Init(trace)).value.stage.Checking?
    requires Follow(origin, request, file, trace).value.stage.Done?
    ensures EndsClean(origin, Follow(origin, request, file, trace).value, trace)
  {
    var s := Follow(origin, request, file, trace).value;
    NoEarlyVerdicts(origin, request, file, Init(trace));
    if Held(s.file, origin).Some? {
      NoVerdictsNoJudgement(Init(trace), Held(s.file, origin).value);
    }
  }

  lemma CleanEarly(origin: string, request: Request, file: File, trace: seq<Event>)
    requires trace != []
    requires Follow(origin, request, file, Init(trace)).Some? && Follow(origin, request, file, trace).Some?
    requires var stage := Follow(origin, request, file, Init(trace)).value.stage; Early(stage) && !stage.Warning?
    requires Follow(origin, request, file, trace).value.stage.Done?
    ensures EndsClean(origin, Follow(origin, request, file, trace).value, trace)
  {
    if Follow(origin, request, file, Init(trace)).value.stage.Checking? {
      CleanChecking(origin, request, file, trace);
    } else {
      NoEarlyVerdicts(origin, request, file, Init(trace));
      assert trace == Init(trace) + [Last(trace)];
      CleanWithoutVerdicts(origin, Follow(origin, request, file, trace).value, trace);
    }
  }

  lemma CleanAcquiring(origin: string, request: Request, file: File, trace: seq<Event>)
    requires trace != []
    requires Follow(origin, request, file, Init(trace)).Some? && Follow(origin, request, file, trace).Some?
    requires Acquiring(Follow(origin, request, file, Init(trace)).value.stage)
    requires Follow(origin, request, file, trace).value.stage.Done?
    ensures EndsClean(origin, Follow(origin, request, file, trace).value, trace)
  {
    var p, s := Follow(origin, request, file, Init(trace)).value, Follow(origin, request, file, trace).value;
    assert LoginStep(origin, p, Last(trace)).Some?;
    FileIsKnown(origin, request, file, Init(trace));
    RecentEvents(origin, request, file, Init(trace));
    Counts(origin, request, file, Init(trace));
    if p.stage.Saving? {
      WrittenReadsBack(origin, p.stage.token);
      StagesAreJustified(origin, request, file, Init(trace), p.stage.token);
    }
  }

  lemma CleanJudging(origin: string, request: Request, file: File, trace: seq<Event>)
    requires trace != []
    requires Follow(origin, request, file, Init(trace)).Some? && Follow(origin, request, file, trace).Some?
    requires var stage := Follow(origin, request, file, Init(trace)).value.stage;
             !Early(stage) && !Acquiring(stage) && !stage.Warning?
    requires Follow(origin, request, file, trace).value.stage.Done?
    ensures EndsClean(origin, Follow(origin, request, file, trace).value, trace)
  {
    var p := Follow(origin, request, file, Init(trace)).value;
    FileIsKnown(origin, request, file, Init(trace));
    RecentEvents(origin, request, file, Init(trace));
    Counts(origin, request, file, Init(trace));
    StagesAreJustified(origin, request, file, Init(trace), p.stage.token);
    if p.stage.Dropping? || p.stage.Evicting? {
      SomeVerdict(Init(trace), p.stage.token);
    }
  }

  lemma CleanWarning(origin: string, request: Request, file: File, trace: seq<Event>)
    requires trace != []
    requires Follow(origin, request, file, Init(trace)).Some? && Follow(origin, request, file, trace).Some?
    requires Follow(origin, request, file, Init(trace)).value.stage.Warning?
    requires Follow(origin, request, file, trace).value.stage.Done?
    ensures EndsClean(origin, Follow(origin, request, file, trace).value, trace)
  {
    var p := Follow(origin, request, file, Init(trace)).value;
    FileIsKnown(origin, request, file, Init(trace));
    RecentEvents(origin, request, file, Init(trace));
    Counts(origin, request, file, Init(trace));
    if p.stage.next.DropCached? || p.stage.next.EvictCached? {
      StagesAreJustified(origin, request, file, Init(trace), p.stage.next.token);
    }
  }

  lemma SomeVerdict(trace: seq<Event>, token: string)
    requires LastVerdict(trace, token).Some?
    ensures !NoVerdicts(trace)
  {
    if NoVerdicts(trace) {
      NoVerdictsNoJudgement(trace, token);
    }
  }

  /** However a run ends, the cache holds no token the run knows to be bad, except exactly when the
    run broke off on its way from a verdict to the clearing. */
  lemma CacheIsClean(origin: string, request: Request, file: File, trace: seq<Event>, exit: Exit, end: File)
    requires Follow(origin, request, file, trace) == Some(State(Done(exit), end))
    ensures KeepsBadToken(end, origin, trace) <==> CutShort(trace)
  {
    var p := Follow(origin, request, file, Init(trace)).value;
    if p.stage.Warning? {
      CleanWarning(origin, request, file, trace);
    } else if Early(p.stage) {
      CleanEarly(origin, request, file, trace);
    } else if Acquiring(p.stage) {
      CleanAcquiring(origin, request, file, trace);
    } else {
      CleanJudging(origin, request, file, trace);
    }
  }

  // ---------- Logins and signings ----------

  /** Stages in which no certificate was asked for with a new token. */
  predicate OldSignings(stage: Stage) {
    || Acquiring(stage) || stage.Condemning? || stage.Dropping? || stage.Preparing? || stage.Requesting?
    || ((stage.Refusing? || stage.Evicting?) && !stage.isNew)
    || (stage.Warning? && (stage.next.DropCached? || stage.next.EvictCached?))
  }

  lemma RefusalStep(origin: string, request: Request, found: File, s: State, e: Event)
    requires FileKnown(origin, found, s) && Next(origin, request, s, e).Some?
    ensures OldSignings(Next(origin, request, s, e).value.stage) ==>
            (Early(s.stage) || OldSignings(s.stage)) && (e.Signed? ==> IsRefusal(e, Held(found, origin)))
    ensures e.Signed? ==> s.stage.Requesting?
  {
    if Acquiring(s.stage) {
      assert LoginStep(origin, s, e).Some?;
    }
  }

  lemma {:induction false} RefusalsBefore(origin: string, request: Request, file: File, trace: seq<Event>)
    requires Follow(origin, request, file, trace).Some?
    requires OldSignings(Follow(origin, request, file, trace).value.stage)
    ensures OnlyRefusals(trace, Held(file, origin))
  {
    if trace != [] {
      var s := Follow(origin, request, file, Init(trace)).value;
      FileIsKnown(origin, request, file, Init(trace));
      RefusalStep(origin, request, file, s, Last(trace));
      assert trace == Init(trace) + [Last(trace)];
      if Early(s.stage) {
        NoEarlyVerdicts(origin, request, file, Init(trace));
      } else {
        RefusalsBefore(origin, request, file, Init(trace));
      }
    }
  }

  /** Every certificate is asked for with a token that was looked up valid and not judged since, and
    before it only the cached token can have been refused. */
  lemma {:induction false} SigningsAreJustified(origin: string, request: Request, file: File, trace: seq<Event>, i: nat)
    requires Follow(origin, request, file, trace).Some? && i < |trace| && trace[i].Signed?
    ensures LastVerdict(trace[..i], trace[i].token) == Some(true)
    ensures OnlyRefusals(trace[..i], Held(file, origin))
  {
    if i < |trace| - 1 {
      SigningsAreJustified(origin, request, file, Init(trace), i);
      assert Init(trace)[..i] == trace[..i];
    } else {
      var s := Follow(origin, request, file, Init(trace)).value;
      FileIsKnown(origin, request, file, Init(trace));
      RefusalStep(origin, request, file, s, Last(trace));
      StagesAreJustified(origin, request, file, Init(trace), s.stage.token);
      RefusalsBefore(origin, request, file, Init(trace));
    }
  }

  /** At most one login and two signings; the second only after the cached token was refused. */
  lemma LoginsAndSignings(origin: string, request: Request, file: File, trace: seq<Event>)
    requires Follow(origin, request, file, trace).Some?
    ensures Logins(trace) <= 1 && Signings(trace) <= Logins(trace) + 1
  {
    Counts(origin, request, file, trace);
  }

  /** A token is cached only directly after a login returned it and a lookup found it valid. */
  lemma {:induction false} StoredTokensWereValid(origin: string, request: Request, file: File, trace: seq<Event>,
          i: nat)
    requires Follow(origin, request, file, trace).Some? && i < |trace| && trace[i].Saved?
    ensures i >= 2
    ensures Gave(Some(trace[i - 2]), trace[i].token) && Judged(Some(trace[i - 1]), trace[i].token, Valid)
  {
    if i < |trace| - 1 {
      StoredTokensWereValid(origin, request, file, Init(trace), i);
    } else {
      RecentEvents(origin, request, file, Init(trace));
      assert Follow(origin, request, file, Init(trace)).value.stage.Saving?;
    }
  }

  // ---------- Lookups without an answer ----------

  lemma {:induction false} PrefixesFollow(origin: string, request: Request, file: File, trace: seq<Event>, i: nat)
    requires Follow(origin, request, file, trace).Some? && i <= |trace|
    ensures Follow(origin, request, file, trace[..i]).Some?
  {
    if i == |trace| {
      assert trace[..i] == trace;
    } else {
      PrefixesFollow(origin, request, file, Init(trace), i);
      assert Init(trace)[..i] == trace[..i];
    }
  }

  lemma NothingAfterDone(origin: string, request: Request, file: File, trace: seq<Event>, i: nat)
    requires Follow(origin, request, file, trace).Some? && i <= |trace|
    ensures Follow(origin, request, file, trace[..i]).Some?
    ensures i < |trace| ==> !Follow(origin, request, file, trace[..i]).value.stage.Done?
  {
    PrefixesFollow(origin, request, file, trace, i);
    if i < |trace| {
      PrefixesFollow(origin, request, file, trace, i + 1);
      assert trace[..i + 1][..i] == trace[..i];
      DoneIsFinal(origin, request, Follow(origin, request, file, trace[..i]).value, trace[i]);
    }
  }

  lemma DoneIsFinal(origin: string, request: Request, s: State, e: Event)
    requires Next(origin, request, s, e).Some?
    ensures !s.stage.Done?
  {
  }

  /** A lookup of the cached token without an answer ends the run and leaves the cache as it was. */
  lemma IndeterminateKeepsTheCache(origin: string, request: Request, file: File, trace: seq<Event>, i: nat)
    requires Follow(origin, request, file, trace).Some? && i < |trace|
    requires trace[i].LookedUp? && (trace[i].verdict.Indeterminate? || trace[i].verdict.LookupAborted?)
    requires Logins(trace[..i]) == 0
    ensures i == |trace| - 1
    ensures var s := Follow(origin, request, file, trace).value; s.file == file && s.stage.Done? && s.stage.exit.Raised?
  {
    NothingAfterDone(origin, request, file, trace, i);
    NothingAfterDone(origin, request, file, trace, i + 1);
    assert trace[..i + 1][..i] == trace[..i];
    Counts(origin, request, file, trace[..i]);
    FileIsKnown(origin, request, file, trace[..i]);
    assert i + 1 == |trace| ==> trace[..i + 1] == trace;
  }

  // ---------- Sessions ----------

  /** A session is opened with a certificate for a token that the cache still holds and that nothing
    the run learned speaks against. */
  lemma SessionsUseTheCachedToken(origin: string, request: Request, file: File, trace: seq<Event>, code: int, end: File)
    requires request.Connect? && Follow(origin, request, file, trace) == Some(State(Done(Exit(code)), end))
    ensures Held(end, origin).Some?
    ensures Latest(trace) == Some(Connected(code))
    ensures Tried(SecondLatest(trace), Held(end, origin).value, Issued)
    ensures LastVerdict(trace, Held(end, origin).value) == Some(true)
  {
    var p := Follow(origin, request, file, Init(trace)).value;
    FileIsKnown(origin, request, file, Init(trace));
    RecentEvents(origin, request, file, Init(trace));
    AcquiringOnward(origin, request, p, Last(trace));
    StagesAreJustified(origin, request, file, Init(trace), p.stage.token);
  }

  // ---------- Revocations ----------

  /** A refused or contract-invalid token, or a new token that was not found valid. */
  predicate CallsForRevocation(trace: seq<Event>, i: nat)
    requires i < |trace|
  {
    var e := trace[i];
    || (e.Signed? && e.signing.Refused?)
    || (e.LookedUp? && e.verdict.ContractInvalid?)
    || (e.LookedUp? && !e.verdict.Valid? && !e.verdict.LookupAborted? && i > 0 && trace[i - 1].Login?)
  }

  /** The next thing the run does is to run, or try to run, a revocation of such a token. */
  lemma BadTokensAreRevoked(origin: string, request: Request, file: File, trace: seq<Event>, i: nat)
    requires Follow(origin, request, file, trace).Some? && i < |trace| && CallsForRevocation(trace, i)
    ensures if i + 1 < |trace| then trace[i + 1].Revoked? && trace[i + 1].token == trace[i].token
            else !Follow(origin, request, file, trace).value.stage.Done?
  {
    NothingAfterDone(origin, request, file, trace, i);
    NothingAfterDone(origin, request, file, trace, i + 1);
    assert trace[..i + 1][..i] == trace[..i];
    Counts(origin, request, file, trace[..i]);
    BadTokenStep(origin, request, Follow(origin, request, file, trace[..i]).value, trace[i], Logins(trace[..i]));
    if i + 1 < |trace| {
      NothingAfterDone(origin, request, file, trace, i + 2);
      assert trace[..i + 2][..i + 1] == trace[..i + 1];
      RevocationStep(origin, request, Follow(origin, request, file, trace[..i + 1]).value, trace[i + 1]);
    } else {
      assert trace[..i + 1] == trace;
    }
  }

  predicate Revoking(stage: Stage) {
    stage.Condemning? || stage.Discarding? || stage.Refusing?
  }

  lemma BadTokenStep(origin: string, request: Request, s: State, e: Event, logins: nat)
    requires Next(origin, request, s, e).Some? && (s.stage.Checking? ==> logins == 0)
    requires || (e.Signed? && e.signing.Refused?) || (e.LookedUp? && e.verdict.ContractInvalid?)
             || (e.LookedUp? && !e.verdict.Valid? && !e.verdict.LookupAborted? && logins > 0)
    ensures var stage := Next(origin, request, s, e).value.stage; Revoking(stage) && stage.token == e.token
  {
    if Acquiring(s.stage) {
      assert LoginStep(origin, s, e).Some?;
    }
  }

  lemma RevocationStep(origin: string, request: Request, s: State, e: Event)
    requires Next(origin, request, s, e).Some? && Revoking(s.stage)
    ensures e.Revoked? && e.token == s.stage.token
  {
    if Acquiring(s.stage) {
      assert LoginStep(origin, s, e).Some?;
    }
  }

  // ---------- Logging out ----------

  /** What a logout has done to the token it found. */
  predicate LoggingOut(s: State, cached: Option<string>, revoked: bool) {
    if s.stage.Forgetting? then cached.Some? && revoked
    else if s.stage.Warning? then s.stage.next.EndReset? && s.file == Absent && cached.Some? && revoked
    else if s.stage.Done? then s.stage.exit.Exit? ==>
        s.file == Absent && s.stage.exit.code == 0 && (cached.Some? ==> revoked)
    else s.stage.Loading? || (s.stage.Starting? && s.stage.cached.Some?) || s.stage.Resetting?
  }

  predicate Revokes(e: Event, cached: Option<string>) {
    e.Revoked? && cached == Some(e.token)
  }

  lemma LogoutStep(origin: string, found: File, s: State, revoked: bool, e: Event)
    requires FileKnown(origin, found, s) && Next(origin, Logout, s, e).Some?
    requires LoggingOut(s, Held(found, origin), revoked)
    ensures LoggingOut(Next(origin, Logout, s, e).value, Held(found, origin),
                       revoked || Revokes(e, Held(found, origin)))
  {
  }

  predicate SomeRevoked(trace: seq<Event>, cached: Option<string>) {
    exists i :: 0 <= i < |trace| && Revokes(trace[i], cached)
  }

  lemma SomeRevokedStep(before: seq<Event>, e: Event, cached: Option<string>)
    ensures SomeRevoked(before + [e], cached) <==> SomeRevoked(before, cached) || Revokes(e, cached)
  {
    var longer := before + [e];
    assert longer[|before|] == e;
    assert forall i :: 0 <= i < |before| ==> longer[i] == before[i];
  }

  /** In a logout a token is only ever revoked, and after that the cache is always cleared or the
    clearing raises, even if the revocation was interrupted. */
  lemma {:induction false} LogoutStages(origin: string, file: File, trace: seq<Event>)
    requires Follow(origin, Logout, file, trace).Some?
    ensures LoggingOut(Follow(origin, Logout, file, trace).value, Held(file, origin),
                       SomeRevoked(trace, Held(file, origin)))
  {
    if trace != [] {
      var cached := Held(file, origin);
      LogoutStages(origin, file, Init(trace));
      FileIsKnown(origin, Logout, file, Init(trace));
      SomeRevokedStep(Init(trace), Last(trace), cached);
      assert trace == Init(trace) + [Last(trace)];
      LogoutStep(origin, file, Follow(origin, Logout, file, Init(trace)).value, SomeRevoked(Init(trace), cached),
          Last(trace));
    }
  }

  /** A logout that returns has revoked the token that was cached, or tried to, and left no file. */
  lemma LogoutForgets(origin: string, file: File, trace: seq<Event>, code: int, end: File)
    requires Follow(origin, Logout, file, trace) == Some(State(Done(Exit(code)), end))
    ensures end == Absent && code == 0
    ensures Held(file, origin).Some? ==> SomeRevoked(trace, Held(file, origin))
  {
    LogoutStages(origin, file, trace);
  }

  /** Where a logout stops short: at arguments that are refused, a load that raised, a missing executable
    or a clearing that raised. */
  predicate StopsShort(e: Event) {
    e == Loaded(LoadRaised) || e == Stopped || e == Cleared(false)
  }

  /** A logout leaves no file exactly when there was none or it did not stop short; it can still raise
    after the clearing. */
  lemma LogoutClearsIff(origin: string, file: File, trace: seq<Event>, exit: Exit, end: File)
    requires Follow(origin, Logout, file, trace) == Some(State(Done(exit), end))
    ensures trace != [] && (end == Absent <==> file == Absent || !StopsShort(Last(trace)))
  {
    LogoutStages(origin, file, Init(trace));
    FileIsKnown(origin, Logout, file, Init(trace));
  }

  // ---------- New tokens ----------

  predicate RevokedFrom(trace: seq<Event>, i: nat, token: string) {
    exists k :: i <= k < |trace| && trace[k].Revoked? && trace[k].token == token
  }

  predicate Carries(stage: Stage, token: string) {
    || (Acquiring(stage) && !stage.LoggingIn? && stage.token == token)
    || ((stage.Preparing? || stage.Requesting? || stage.Refusing? || stage.Evicting?) && stage.isNew &&
        stage.token == token)
    || (stage.Certified? && stage.token == token)
  }

  predicate Lost(trace: seq<Event>, token: string) {
    Latest(trace) == Some(Saved(token, NotStored)) || Judged(Latest(trace), token, LookupAborted)
  }

  lemma CarriedStep(origin: string, request: Request, found: File, s: State, token: string, e: Event)
    requires FileKnown(origin, found, s) && Next(origin, request, s, e).Some? && Carries(s.stage, token)
    ensures var s' := Next(origin, request, s, e).value;
            var revokes := e.Revoked? && e.token == token;
            if s'.stage.Done? then
              || s.stage.Evicting? || revokes || Held(s'.file, origin) == Some(token)
              || e == Saved(token, NotStored) || Judged(Some(e), token, LookupAborted)
            else if s'.stage.Warning? then s'.stage.next.Raise? && (s.stage.Evicting? || revokes)
            else Carries(s'.stage, token) && (s'.stage.Evicting? ==> revokes)
  {
    if Acquiring(s.stage) {
      assert LoginStep(origin, s, e).Some?;
    }
    if s.stage.Saving? {
      WrittenReadsBack(origin, token);
    }
  }

  lemma {:induction false} NewTokensAreCarried(origin: string, request: Request, file: File, trace: seq<Event>, i: nat)
    requires Follow(origin, request, file, trace).Some? && i < |trace| && trace[i].Login? && trace[i].given.Some?
    ensures var s, token := Follow(origin, request, file, trace).value, trace[i].given.value;
            if s.stage.Done?
            then Held(s.file, origin) == Some(token) || RevokedFrom(trace, i, token) || Lost(trace, token)
            else if s.stage.Warning? then s.stage.next.Raise? && RevokedFrom(trace, i, token)
            else Carries(s.stage, token) && (s.stage.Evicting? ==> RevokedFrom(trace, i, token))
  {
    var s, token := Follow(origin, request, file, Init(trace)).value, trace[i].given.value;
    if i < |trace| - 1 {
      NewTokensAreCarried(origin, request, file, Init(trace), i);
      FileIsKnown(origin, request, file, Init(trace));
      if s.stage.Warning? {
        assert WarnStep(request, s, Last(trace)).Some?;
      } else {
        CarriedStep(origin, request, file, s, token, Last(trace));
      }
      if RevokedFrom(Init(trace), i, token) {
        var k :| i <= k < |Init(trace)| && Init(trace)[k].Revoked? && Init(trace)[k].token == token;
        assert trace[k].Revoked?;
      }
    }
  }

  lemma {:induction false} LoginsCounted(trace: seq<Event>, i: nat)
    requires i < |trace| && trace[i].Login?
    ensures Logins(trace) >= 1
    ensures forall j :: i < j < |trace| && trace[j].Login? ==> Logins(trace) >= 2
  {
    if i < |trace| - 1 {
      LoginsCounted(Init(trace), i);
      assert forall j :: i < j < |Init(trace)| ==> Init(trace)[j] == trace[j];
    }
  }

  /** A loss comes directly after the only login. */
  lemma LostAfterLogin(origin: string, request: Request, file: File, trace: seq<Event>, i: nat)
    requires Follow(origin, request, file, trace).Some? && i < |trace| && trace[i].Login? && trace[i].given.Some?
    requires Lost(trace, trace[i].given.value)
    ensures i == if Last(trace).Saved? then |trace| - 3 else |trace| - 2
    ensures Last(trace).Saved? ==> trace[|trace| - 2].LookedUp?
  {
    RecentEvents(origin, request, file, Init(trace));
    LoginsAndSignings(origin, request, file, trace);
    LoginsCounted(Init(trace), i);
    Counts(origin, request, file, Init(trace));
    LostStep(origin, request, Follow(origin, request, file, Init(trace)).value, trace[i].given.value, Last(trace));
    var j := if Last(trace).Saved? then |trace| - 3 else |trace| - 2;
    assert trace[j].Login?;
    LoginsCounted(trace, j);
    LoginsCounted(trace, i);
  }

  lemma LostTokensAreGone(origin: string, request: Request, file: File, trace: seq<Event>, i: nat)
    requires Follow(origin, request, file, trace).Some? && i < |trace| && trace[i].Login? && trace[i].given.Some?
    requires Lost(trace, trace[i].given.value)
    ensures Held(Follow(origin, request, file, trace).value.file, origin).None?
    ensures !RevokedFrom(trace, i, trace[i].given.value)
  {
    LostAfterLogin(origin, request, file, trace, i);
    FileIsKnown(origin, request, file, Init(trace));
    LoginsCounted(Init(trace), i);
    Counts(origin, request, file, Init(trace));
    LostStep(origin, request, Follow(origin, request, file, Init(trace)).value, trace[i].given.value, Last(trace));
  }

  lemma LostStep(origin: string, request: Request, s: State, token: string, e: Event)
    requires Next(origin, request, s, e).Some? && !s.stage.Checking?
    requires e == Saved(token, NotStored) || Judged(Some(e), token, LookupAborted)
    ensures if e.Saved? then s.stage.Saving? else s.stage.Validating?
    ensures s.stage.token == token && Next(origin, request, s, e).value.file == s.file
  {
    if Acquiring(s.stage) {
      assert LoginStep(origin, s, e).Some?;
    }
  }

  /** However a run ends, a token it logged in for is cached, or a revocation of it was run or at least tried
    to start, except exactly when storing it failed or its lookup was interrupted. */
  lemma NewTokensAreAccountedFor(origin: string, request: Request, file: File, trace: seq<Event>, i: nat, exit: Exit,
          end: File)
    requires Follow(origin, request, file, trace) == Some(State(Done(exit), end))
    requires i < |trace| && trace[i].Login? && trace[i].given.Some?
    ensures var token := trace[i].given.value;
            Held(end, origin) != Some(token) && !RevokedFrom(trace, i, token) <==> Lost(trace, token)
  {
    NewTokensAreCarried(origin, request, file, trace, i);
    if Lost(trace, trace[i].given.value) {
      LostTokensAreGone(origin, request, file, trace, i);
    }
  }
}
