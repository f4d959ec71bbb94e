/** Runs of the SSH helper: the ones it is for, and the ones that end with less than its documentation promises. */
module SshRuns {
  import opened Json
  import opened SshHelper
  import opened SshProofs
  import opened TokenCache
  import opened Wrappers

  lemma FollowOn(origin: string, request: Request, file: File, trace: seq<Event>, e: Event)
    requires Follow(origin, request, file, trace).Some?
    ensures Follow(origin, request, file, trace + [e]) ==
        Next(origin, request, Follow(origin, request, file, trace).value, e)
  {
    assert (trace + [e])[..|trace|] == trace;
  }

  lemma JudgeOn(trace: seq<Event>, e: Event, token: string)
    ensures LastVerdict(trace + [e], token) == Judge(LastVerdict(trace, token), token, e)
  {
    assert Init(trace + [e]) == trace;
  }

  lemma FaithfulOn(trace: seq<Event>, e: Event)
    requires AllFaithful(trace) && Faithful(e)
    ensures AllFaithful(trace + [e])
  {
  }

  // ---------- Answers ----------

  /** A command that fails with a rejection in its diagnostic. */
  const REJECTION: Reply := Ran(1, 0, 0, true, None, None)

  /** A lookup that answers with this `data`. */
  function Answer(data: map<string, Value>): Reply {
    Ran(0, 1, 0, false, None, Some(Object(map["data" := Object(data)])))
  }

  /** What the server says about a token as the role issues it. */
  const ISSUED: map<string, Value> := map[
    "ttl" := Number(3600), "policies" := Array([Text("homelab-ssh-client-sign")]), "type" := Text("service"),
    "meta" := Object(map["role" := Text("ssh")])]

  function ReplyOf(verdict: Verdict): Reply {
    match verdict
    case Valid => Answer(ISSUED)
    case Rejected => REJECTION
    case ContractInvalid => Answer(ISSUED["policies" := Array([Text("root")])])
    case Indeterminate => NotRun
    case LookupAborted => Interrupted
  }

  /** Every verdict has its answer. */
  lemma ReplyOfGives(verdict: Verdict)
    ensures VerdictOf(ReplyOf(verdict)) == verdict
  {
    match verdict
    case Valid => ContractIff(ISSUED);
    case ContractInvalid => ContractIff(ISSUED["policies" := Array([Text("root")])]);
    case _ =>
  }

  function Looks(token: string, verdict: Verdict): Event {
    LookedUp(token, verdict, ReplyOf(verdict))
  }

  /** A login that prints the token. */
  function Gives(token: string): Event {
    Login(Some(token), Ran(0, 0, 0, false, Some(token), None))
  }

  lemma GivesFaithfully(token: string)
    requires IsWord(token)
    ensures Faithful(Gives(token))
  {
    assert Spaces("") && token == "" + (token + "");
    TokenIff(Gives(token).reply, token);
  }

  /** A signing whose certificate is printed and written. */
  function Certifies(token: string): Event {
    Signed(token, Issued, Ran(0, 1, 0, false, None, None), true)
  }

  /** A run that has found a token in the cache and is about to use it. */
  function Starts(token: string): seq<Event> {
    [] + [Loaded(Found(token))]
  }

  lemma StartsWithToken(origin: string, request: Request, token: string)
    requires Storable(origin, token)
    ensures Follow(origin, request, Written(origin, token), Starts(token))
         == Some(State(Starting(Some(token)), Written(origin, token)))
  {
    WrittenReadsBack(origin, token);
    FollowOn(origin, request, Written(origin, token), [], Loaded(Found(token)));
  }

  /** A logout without its executable keeps the token it found. */
  lemma LogoutCanKeepTheToken(origin: string, token: string)
    requires Storable(origin, token)
    ensures Follow(origin, Logout, Written(origin, token), Starts(token) + [Stopped])
         == Some(State(Done(Raised(LocalFailure)), Written(origin, token)))
    ensures Held(Written(origin, token), origin) == Some(token)
  {
    WrittenReadsBack(origin, token);
    StartsWithToken(origin, Logout, token);
    FollowOn(origin, Logout, Written(origin, token), Starts(token), Stopped);
  }

  function Looked(token: string, verdict: Verdict): seq<Event> {
    Starts(token) + [Ready] + [Looks(token, verdict)]
  }

  lemma LooksUp(origin: string, token: string, verdict: Verdict)
    requires Storable(origin, token) && (verdict.Valid? || verdict.ContractInvalid? || verdict.Rejected?)
    ensures Follow(origin, Connect(false), Written(origin, token), Looked(token, verdict))
         == Some(State(if verdict.Valid? then Preparing(token, false)
                       else if verdict.Rejected? then Dropping(token) else Condemning(token), Written(origin, token)))
    ensures LastVerdict(Looked(token, verdict), token) == Some(verdict.Valid?) && AllFaithful(Looked(token, verdict))
  {
    ReplyOfGives(verdict);
    var file := Written(origin, token);
    StartsWithToken(origin, Connect(false), token);
    FollowOn(origin, Connect(false), file, Starts(token), Ready);
    FollowOn(origin, Connect(false), file, Starts(token) + [Ready], Looks(token, verdict));
    JudgeOn(Starts(token) + [Ready], Looks(token, verdict), token);
  }

  predicate EndsWithBadToken(origin: string, token: string, trace: seq<Event>, failure: Failure) {
    && Follow(origin, Connect(false), Written(origin, token), trace)
       == Some(State(Done(Raised(failure)), Written(origin, token)))
    && KeepsBadToken(Written(origin, token), origin, trace) && AllFaithful(trace)
  }

  /** A rejected token stays when the clearing raises. */
  lemma KeptWhenClearingRaises(origin: string, token: string)
    requires Storable(origin, token)
    ensures EndsWithBadToken(origin, token, Looked(token, Rejected) + [Cleared(false)], CacheFailure)
  {
    WrittenReadsBack(origin, token);
    LooksUp(origin, token, Rejected);
    FollowOn(origin, Connect(false), Written(origin, token), Looked(token, Rejected), Cleared(false));
    JudgeOn(Looked(token, Rejected), Cleared(false), token);
  }

  /** A token that breaks the contract stays when its revocation is interrupted. */
  lemma KeptWhenInterrupted(origin: string, token: string)
    requires Storable(origin, token)
    ensures EndsWithBadToken(origin, token,
                             Looked(token, ContractInvalid) + [Revoked(token, RevocationAborted, Interrupted)],
                             Interruption)
  {
    var revoked := Revoked(token, RevocationAborted, Interrupted);
    WrittenReadsBack(origin, token);
    LooksUp(origin, token, ContractInvalid);
    FollowOn(origin, Connect(false), Written(origin, token), Looked(token, ContractInvalid), revoked);
    JudgeOn(Looked(token, ContractInvalid), revoked, token);
  }

  /** It stays, too, when the warning that the revocation is unconfirmed cannot be printed. */
  lemma KeptWhenWarningRaises(origin: string, token: string)
    requires Storable(origin, token)
    ensures EndsWithBadToken(origin, token,
                             Looked(token, ContractInvalid) + [Revoked(token, Unconfirmed, REJECTION)]
                             + [Warned(false)],
                             WarningFailure)
  {
    var revoked := Revoked(token, Unconfirmed, REJECTION);
    WrittenReadsBack(origin, token);
    LooksUp(origin, token, ContractInvalid);
    FollowOn(origin, Connect(false), Written(origin, token), Looked(token, ContractInvalid), revoked);
    JudgeOn(Looked(token, ContractInvalid), revoked, token);
    FollowOn(origin, Connect(false), Written(origin, token), Looked(token, ContractInvalid) + [revoked], Warned(false));
    JudgeOn(Looked(token, ContractInvalid) + [revoked], Warned(false), token);
  }

  function LoggedIn(token: string): seq<Event> {
    [] + [Loaded(Nothing)] + [Ready] + [Gives(token)]
  }

  lemma LogsIn(origin: string, token: string)
    ensures Follow(origin, Connect(false), Absent, LoggedIn(token)) == Some(State(Validating(token, false), Absent))
  {
    FollowOn(origin, Connect(false), Absent, [], Loaded(Nothing));
    FollowOn(origin, Connect(false), Absent, [] + [Loaded(Nothing)], Ready);
    FollowOn(origin, Connect(false), Absent, [] + [Loaded(Nothing)] + [Ready], Gives(token));
  }

  /** A new token is lost when its lookup is interrupted ... */
  lemma LostWhenInterrupted(origin: string, token: string)
    ensures Follow(origin, Connect(false), Absent, LoggedIn(token) + [Looks(token, LookupAborted)])
         == Some(State(Done(Raised(Interruption)), Absent))
    ensures !RevokedFrom(LoggedIn(token) + [Looks(token, LookupAborted)], 0, token)
  {
    LogsIn(origin, token);
    FollowOn(origin, Connect(false), Absent, LoggedIn(token), Looks(token, LookupAborted));
  }

  /** ... and, although it is valid, when it cannot be stored. */
  lemma LostWhenNotStored(origin: string, token: string)
    ensures var trace := LoggedIn(token) + [Looks(token, Valid)] + [Saved(token, NotStored)];
            && Follow(origin, Connect(false), Absent, trace) == Some(State(Done(Raised(CacheFailure)), Absent))
            && LastVerdict(trace, token) == Some(true) && !RevokedFrom(trace, 0, token)
  {
    var looked := LoggedIn(token) + [Looks(token, Valid)];
    LogsIn(origin, token);
    FollowOn(origin, Connect(false), Absent, LoggedIn(token), Looks(token, Valid));
    JudgeOn(LoggedIn(token), Looks(token, Valid), token);
    FollowOn(origin, Connect(false), Absent, looked, Saved(token, NotStored));
    JudgeOn(looked, Saved(token, NotStored), token);
  }

  // ---------- Runs that succeed ----------

  /** The trace leads to the stage and the file, and every event is what a command answered. */
  predicate Leads(origin: string, request: Request, found: File, trace: seq<Event>, stage: Stage, file: File) {
    Follow(origin, request, found, trace) == Some(State(stage, file)) && AllFaithful(trace)
  }

  lemma LeadsOn(origin: string, request: Request, found: File, trace: seq<Event>, s: State, e: Event, s': State)
    requires Leads(origin, request, found, trace, s.stage, s.file) && Faithful(e)
    requires Next(origin, request, s, e) == Some(s')
    ensures Leads(origin, request, found, trace + [e], s'.stage, s'.file)
  {
    FollowOn(origin, request, found, trace, e);
  }

  /** A certificate is issued for the token, and the session opens. */
  lemma Connects(origin: string, request: Request, found: File, trace: seq<Event>, token: string, isNew: bool,
          file: File, code: int)
    requires Leads(origin, request, found, trace, Requesting(token, isNew), file)
    ensures Leads(origin, request, found, trace + [Certifies(token)] + [Connected(code)], Done(Exit(code)), file)
  {
    LeadsOn(origin, request, found, trace, State(Requesting(token, isNew), file), Certifies(token),
            State(Certified(token), file));
    LeadsOn(origin, request, found, trace + [Certifies(token)], State(Certified(token), file), Connected(code),
            State(Done(Exit(code)), file));
  }

  lemma CachedTokenIsTried(origin: string, token: string)
    requires Storable(origin, token)
    ensures Leads(origin, Connect(false), Written(origin, token), Looked(token, Valid) + [Ready],
                  Requesting(token, false), Written(origin, token))
  {
    var file := Written(origin, token);
    LooksUp(origin, token, Valid);
    LeadsOn(origin, Connect(false), file, Looked(token, Valid), State(Preparing(token, false), file), Ready,
            State(Requesting(token, false), file));
  }

  /** A cached token that is valid opens a session with whatever code the session returns, and stays cached. */
  lemma CachedTokenConnects(origin: string, token: string, code: int)
    requires Storable(origin, token)
    ensures Leads(origin, Connect(false), Written(origin, token),
                  Looked(token, Valid) + [Ready] + [Certifies(token)] + [Connected(code)],
                  Done(Exit(code)), Written(origin, token))
  {
    var file := Written(origin, token);
    CachedTokenIsTried(origin, token);
    Connects(origin, Connect(false), file, Looked(token, Valid) + [Ready], token, false, file, code);
  }

  lemma LoginIsValid(origin: string, request: Request, found: File, trace: seq<Event>, token: string, retry: bool)
    requires Leads(origin, request, found, trace, LoggingIn(retry), Absent) && IsWord(token)
    ensures Leads(origin, request, found, trace + [Gives(token)] + [Looks(token, Valid)], Saving(token, retry), Absent)
  {
    GivesFaithfully(token);
    ReplyOfGives(Valid);
    LeadsOn(origin, request, found, trace, State(LoggingIn(retry), Absent), Gives(token),
            State(Validating(token, retry), Absent));
    LeadsOn(origin, request, found, trace + [Gives(token)], State(Validating(token, retry), Absent),
            Looks(token, Valid), State(Saving(token, retry), Absent));
  }

  /** From a login to a stored token. */
  lemma LoginIsSaved(origin: string, request: Request, found: File, trace: seq<Event>, token: string, retry: bool)
    requires Leads(origin, request, found, trace, LoggingIn(retry), Absent)
    requires IsWord(token) && Storable(origin, token)
    ensures Leads(origin, request, found, trace + [Gives(token)] + [Looks(token, Valid)] + [Saved(token, Stored)],
                  if retry then Requesting(token, true) else Preparing(token, true), Written(origin, token))
  {
    LoginIsValid(origin, request, found, trace, token, retry);
    LeadsOn(origin, request, found, trace + [Gives(token)] + [Looks(token, Valid)],
            State(Saving(token, retry), Absent), Saved(token, Stored),
            State(if retry then Requesting(token, true) else Preparing(token, true), Written(origin, token)));
  }

  function NewLogin(token: string): seq<Event> {
    [Loaded(Nothing)] + [Ready] + [Gives(token)] + [Looks(token, Valid)] + [Saved(token, Stored)]
  }

  /** Without a cached token the user logs in, and the new token opens the session and is cached. */
  lemma NewTokenConnects(origin: string, token: string, code: int)
    requires IsWord(token) && Storable(origin, token)
    ensures Leads(origin, Connect(false), Absent,
                  NewLogin(token) + [Ready] + [Certifies(token)] + [Connected(code)],
                  Done(Exit(code)), Written(origin, token))
  {
    assert [] + [Loaded(Nothing)] == [Loaded(Nothing)];
    LeadsOn(origin, Connect(false), Absent, [], State(Loading, Absent), Loaded(Nothing), State(Starting(None), Absent));
    LeadsOn(origin, Connect(false), Absent, [Loaded(Nothing)], State(Starting(None), Absent), Ready,
            State(LoggingIn(false), Absent));
    LoginIsSaved(origin, Connect(false), Absent, [Loaded(Nothing)] + [Ready], token, false);
    LeadsOn(origin, Connect(false), Absent, NewLogin(token), State(Preparing(token, true), Written(origin, token)),
            Ready, State(Requesting(token, true), Written(origin, token)));
    Connects(origin, Connect(false), Absent, NewLogin(token) + [Ready], token, true, Written(origin, token), code);
  }

  const CONFIRMATION: Reply := Ran(0, 0, 0, false, None, None)

  /** A cached token that is refused while signing, revoked and forgotten. */
  function RefusedAndForgotten(token: string): seq<Event> {
    Looked(token, Valid) + [Ready] + [Signed(token, Refused, REJECTION, false)]
    + [Revoked(token, Confirmed, CONFIRMATION)] + [Cleared(true)]
  }

  lemma CachedTokenIsRefused(origin: string, token: string)
    requires Storable(origin, token)
    ensures Leads(origin, Connect(false), Written(origin, token),
                  Looked(token, Valid) + [Ready] + [Signed(token, Refused, REJECTION, false)],
                  Refusing(token, false), Written(origin, token))
  {
    var file := Written(origin, token);
    CachedTokenIsTried(origin, token);
    LeadsOn(origin, Connect(false), file, Looked(token, Valid) + [Ready], State(Requesting(token, false), file),
            Signed(token, Refused, REJECTION, false), State(Refusing(token, false), file));
  }

  lemma RefusedIsForgotten(origin: string, token: string)
    requires Storable(origin, token)
    ensures Leads(origin, Connect(false), Written(origin, token), RefusedAndForgotten(token), LoggingIn(true), Absent)
  {
    var file := Written(origin, token);
    var trace := Looked(token, Valid) + [Ready] + [Signed(token, Refused, REJECTION, false)];
    CachedTokenIsRefused(origin, token);
    LeadsOn(origin, Connect(false), file, trace, State(Refusing(token, false), file),
            Revoked(token, Confirmed, CONFIRMATION), State(Evicting(token, false, false), file));
    LeadsOn(origin, Connect(false), file, trace + [Revoked(token, Confirmed, CONFIRMATION)],
            State(Evicting(token, false, false), file), Cleared(true), State(LoggingIn(true), Absent));
  }

  /** A cached token that is refused while signing is replaced by a new one, which opens the session. */
  lemma RefusedTokenIsReplaced(origin: string, token: string, renewed: string, code: int)
    requires Storable(origin, token) && IsWord(renewed) && Storable(origin, renewed)
    ensures Leads(origin, Connect(false), Written(origin, token),
                  RefusedAndForgotten(token) + [Gives(renewed)] + [Looks(renewed, Valid)] + [Saved(renewed, Stored)]
                  + [Certifies(renewed)] + [Connected(code)],
                  Done(Exit(code)), Written(origin, renewed))
  {
    var file, trace := Written(origin, token), RefusedAndForgotten(token);
    RefusedIsForgotten(origin, token);
    LoginIsSaved(origin, Connect(false), file, trace, renewed, true);
    trace := trace + [Gives(renewed)] + [Looks(renewed, Valid)] + [Saved(renewed, Stored)];
    Connects(origin, Connect(false), file, trace, renewed, true, Written(origin, renewed), code);
  }

  /** A logout revokes the cached token and forgets it. */
  lemma LogoutSucceeds(origin: string, token: string)
    requires Storable(origin, token)
    ensures Leads(origin, Logout, Written(origin, token),
                  Starts(token) + [Ready] + [Revoked(token, Confirmed, CONFIRMATION)] + [Cleared(true)],
                  Done(Exit(0)), Absent)
  {
    var file, trace := Written(origin, token), Starts(token);
    StartsWithToken(origin, Logout, token);
    LeadsOn(origin, Logout, file, trace, State(Starting(Some(token)), file), Ready, State(Resetting(token), file));
    LeadsOn(origin, Logout, file, trace + [Ready], State(Resetting(token), file),
            Revoked(token, Confirmed, CONFIRMATION), State(Forgetting(Confirmed), file));
    LeadsOn(origin, Logout, file, trace + [Ready] + [Revoked(token, Confirmed, CONFIRMATION)],
            State(Forgetting(Confirmed), file), Cleared(true), State(Done(Exit(0)), Absent));
  }
}
