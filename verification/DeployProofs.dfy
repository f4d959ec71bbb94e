/** What every run of the deploy runner keeps, and what its callers may conclude. */
module DeployProofs {
  import opened Wrappers
  import opened DeployErrors
  import opened DeployRunner
  import UvLoop
  import SystemInfo
  import SshKeys
  import Tally

  // ---------- Truth of a result ----------

  /** The result matches what happened: after uv was started only success, unreadable output
    or an open outcome is reported, before that only that nothing ran - except when the
    worker task died, which leaves the outcome open. */
  ghost predicate Truthful(p: SystemInfo.Protocol, c: Call, r: RunResult) {
    if r.Report? then
      c.uvStarted && c.uvOutput.Some? && SystemInfo.Parse(p, c.uvOutput.value) == Some(r.sections)
    else if r.error.InvalidOutput? then
      c.uvStarted && c.uvOutput.Some? && SystemInfo.Parse(p, c.uvOutput.value).None?
    else if c.uvStarted then OutcomeUnknown(r.error)
    else if r.error.MissingHostPin? then !c.pin.Usable?
    else SaysNotRun(r.error) || (c.died && r.error.ExecutionOutcomeUnknown?)
  }

  // ---------- Invariant of one call ----------

  predicate BeforeDir(s: Stage) {
    s.NotStarted? || s.CheckFirst? || s.CheckPin? || s.MakeDir?
  }

  predicate Working(s: Stage) {
    Live(s) && !Leaving(s)
  }

  predicate AfterUv(s: Stage) {
    s.TakePipes? || s.AwaitUv? || s.KillUv? || s.Normalise?
  }

  predicate Admission(caller: Caller) {
    caller.Admitted? || caller.Resolved? || caller.Checked?
  }

  ghost predicate EndingFits(p: SystemInfo.Protocol, c: Call, ending: Ending) {
    if ending.Dead? then c.died else Truthful(p, c, ending.result)
  }

  predicate WithinLimit(output: Option<string>) {
    output.Some? ==> |output.value| <= UvLoop.MAX_STDOUT_BYTES
  }

  ghost predicate StageFits(p: SystemInfo.Protocol, c: Call) {
    && (BeforeDir(c.stage) ==> c.dir.Absent?)
    && (Working(c.stage) && !BeforeDir(c.stage) ==> c.dir.Present?)
    && (c.stage.Send? || c.stage.Release? || c.stage.Ended? ==> !c.dir.Present?)
    && (!Leaving(c.stage) && !c.stage.Ended? ==>
          c.uvStarted == AfterUv(c.stage) && c.uvOutput.Some? == c.stage.Normalise? && !c.died)
    && (c.stage.KillKeygen? ==> c.stage.error.Cancelled? || c.stage.error.ExecutionRejected?)
    && (c.stage.KillUv? ==> OutcomeUnknown(c.stage.error))
    && (c.stage.AwaitUv? ==> !UvLoop.Complete(c.stage.uv))
    && (c.stage.Normalise? ==> c.uvOutput == Some(c.stage.output))
    && (c.stage.AwaitUv? ==> WithinLimit(c.stage.uv.output))
    && WithinLimit(c.uvOutput)
    && (c.stage.Leave? ==> EndingFits(p, c, c.stage.ending))
    && (c.stage.Send? ==> EndingFits(p, c, c.stage.ending))
  }

  ghost predicate CallerFits(p: SystemInfo.Protocol, c: Call) {
    && (c.permit <==> Admission(c.caller) || Live(c.stage))
    && (c.caller.Fresh? || Admission(c.caller) ==> c.stage.NotStarted?)
    && (c.caller.Checked? ==> !c.pin.Missing?)
    && (c.caller.Awaiting? || c.caller.Cancelling? || c.caller.Vanished? ==> !c.stage.NotStarted?)
    && (c.mailbox.Empty? <==> !c.stage.Release? && !c.stage.Ended?)
    && (c.mailbox.Delivered? ==> Truthful(p, c, c.mailbox.result))
    && (c.mailbox.SenderGone? ==> c.died)
    && (c.caller.Returned? ==> Truthful(p, c, c.caller.result))
    && (c.caller.Returned? ==> c.stage.NotStarted? || c.stage.Release? || c.stage.Ended?)
    && (c.caller.Cancelling? || c.caller.Vanished? ==> IsCancelled(c))
    && (c.died ==> DiedFits(c))
  }

  /** A worker that died leaves without a result, and its caller learns only that the outcome is open. */
  predicate DiedFits(c: Call) {
    && (Leaving(c.stage) || c.stage.Ended?)
    && !c.mailbox.Delivered?
    && (c.stage.Leave? || c.stage.Send? ==> c.stage.ending.Dead?)
    && (c.caller.Returned? ==> c.caller.result == Failure(ExecutionOutcomeUnknown))
  }

  ghost predicate CallInv(p: SystemInfo.Protocol, c: Call) {
    StageFits(p, c) && CallerFits(p, c)
  }

  function PermitOf(c: Call): nat {
    if c.permit then 1 else 0
  }

  // ---------- Every step of a call ----------

  /** What a call has settled for good. */
  ghost predicate Settled(before: Call, after: Call) {
    && (before.caller.Returned? || before.caller.Vanished? ==> after.caller == before.caller)
    && (IsCancelled(before) ==> IsCancelled(after))
    && (before.uvStarted ==> after.uvStarted)
    && after.pin == before.pin
  }

  /** Cancelled before the check that precedes signing, so that uv is never started. */
  predicate NotPastSecondCheck(s: Stage) {
    (BeforeDir(s) && !s.NotStarted?) || s.SpawnKeygen? || s.AwaitKeygen? || s.KillKeygen? || s.RestrictKeys?
    || s.ReadKey? || s.CheckAgain? || Leaving(s) || s.Ended?
  }

  predicate NeverStarts(c: Call) {
    IsCancelled(c) && !c.uvStarted && NotPastSecondCheck(c.stage)
  }

  function CallerRank(c: Caller): nat {
    match c
    case Fresh => 6
    case Admitted => 5
    case Resolved => 4
    case Checked => 3
    case Awaiting => 2
    case Cancelling => 1
    case Returned(_) => 0
    case Vanished => 0
  }

  function StageRank(s: Stage): nat {
    match s
    case NotStarted => 27
    case CheckFirst => 26
    case CheckPin => 25
    case MakeDir => 24
    case SpawnKeygen => 23
    case AwaitKeygen => 22
    case KillKeygen(_) => 21
    case RestrictKeys => 20
    case ReadKey => 19
    case CheckAgain => 18
    case AwaitSign => 17
    case WriteCertificate => 16
    case RemovePublicKey => 15
    case WriteKnownHosts => 14
    case WriteInventory => 13
    case SpawnUv => 12
    case TakePipes => 11
    case AwaitUv(uv) => 7 + UvLoop.Missing(uv)
    case KillUv(_) => 6
    case Normalise(_) => 5
    case Leave(_) => 3
    case Send(_) => 2
    case Release => 1
    case Ended => 0
  }

  function Rank(c: Call): nat {
    CallerRank(c.caller) + StageRank(c.stage)
  }

  /** A wake-up of the uv loop that finds nothing it misses. */
  predicate IdlePoll(c: Call, e: Event) {
    c.stage.AwaitUv? && e.PollUv?
    && !e.poll.cancelled && !e.poll.expired && !UvLoop.Useful(c.stage.uv, e.poll)
  }

  /** One step keeps the call's invariant and the permits, settles what is settled, and either
    changes nothing or brings the call closer to its end. */
  ghost predicate GoodStep(p: SystemInfo.Protocol, c: Call, free: nat, idle: bool, c': Call, free': nat) {
    && CallInv(p, c')
    && free' + PermitOf(c') == free + PermitOf(c)
    && Settled(c, c')
    && (NeverStarts(c) ==> NeverStarts(c'))
    && (if idle then c' == c && free' == free else Rank(c') < Rank(c))
  }

  lemma CallerStepKeepsInv(p: SystemInfo.Protocol, c: Call, free: nat, e: Event)
    requires CallInv(p, c) && CallerStep(c, free, e).Moved?
    ensures CallInv(p, CallerStep(c, free, e).call)
  {
  }

  lemma CallerStepIsGood(p: SystemInfo.Protocol, c: Call, free: nat, e: Event)
    requires CallInv(p, c) && CallerStep(c, free, e).Moved?
    ensures GoodStep(p, c, free, false, CallerStep(c, free, e).call, CallerStep(c, free, e).free)
  {
    CallerStepKeepsInv(p, c, free, e);
  }

  lemma DeathStepIsGood(p: SystemInfo.Protocol, c: Call, free: nat)
    requires CallInv(p, c) && DeathStep(c, free).Moved?
    ensures GoodStep(p, c, free, false, DeathStep(c, free).call, DeathStep(c, free).free)
  {
  }

  lemma KeyStepKeepsInv(p: SystemInfo.Protocol, c: Call, free: nat, e: Event)
    requires CallInv(p, c) && KeyStep(c, free, e).Moved?
    ensures CallInv(p, KeyStep(c, free, e).call)
  {
  }

  lemma KeyStepIsGood(p: SystemInfo.Protocol, c: Call, free: nat, e: Event)
    requires CallInv(p, c) && KeyStep(c, free, e).Moved?
    ensures GoodStep(p, c, free, false, KeyStep(c, free, e).call, KeyStep(c, free, e).free)
  {
    KeyStepKeepsInv(p, c, free, e);
  }

  lemma CertificateStepKeepsInv(p: SystemInfo.Protocol, c: Call, free: nat, e: Event)
    requires CallInv(p, c) && CertificateStep(c, free, e).Moved?
    ensures CallInv(p, CertificateStep(c, free, e).call)
  {
  }

  lemma CertificateStepIsGood(p: SystemInfo.Protocol, c: Call, free: nat, e: Event)
    requires CallInv(p, c) && CertificateStep(c, free, e).Moved?
    ensures GoodStep(p, c, free, false, CertificateStep(c, free, e).call, CertificateStep(c, free, e).free)
  {
    CertificateStepKeepsInv(p, c, free, e);
  }

  lemma UvPollKeepsInv(p: SystemInfo.Protocol, c: Call, uv: UvLoop.State, poll: UvLoop.Poll)
    requires CallInv(p, c) && c.stage == AwaitUv(uv) && UvLoop.Captured(poll) && (poll.cancelled ==> IsCancelled(c))
    ensures CallInv(p, UvStep(c, uv, poll))
  {
  }

  lemma UvPollIsGood(p: SystemInfo.Protocol, c: Call, free: nat, e: Event)
    requires CallInv(p, c) && c.stage.AwaitUv? && UvSideStep(p, c, free, e).Moved?
    ensures GoodStep(p, c, free, IdlePoll(c, e), UvSideStep(p, c, free, e).call, UvSideStep(p, c, free, e).free)
  {
    UvPollKeepsInv(p, c, c.stage.uv, e.poll);
  }

  lemma UvStartIsGood(p: SystemInfo.Protocol, c: Call, free: nat, e: Event)
    requires CallInv(p, c) && (c.stage.SpawnUv? || c.stage.TakePipes?) && UvSideStep(p, c, free, e).Moved?
    ensures GoodStep(p, c, free, false, UvSideStep(p, c, free, e).call, UvSideStep(p, c, free, e).free)
  {
  }

  lemma UvEndIsGood(p: SystemInfo.Protocol, c: Call, free: nat, e: Event)
    requires CallInv(p, c) && (c.stage.KillUv? || c.stage.Normalise?) && UvSideStep(p, c, free, e).Moved?
    ensures GoodStep(p, c, free, false, UvSideStep(p, c, free, e).call, UvSideStep(p, c, free, e).free)
  {
  }

  lemma UvSideStepIsGood(p: SystemInfo.Protocol, c: Call, free: nat, e: Event)
    requires CallInv(p, c) && UvSideStep(p, c, free, e).Moved?
    ensures GoodStep(p, c, free, IdlePoll(c, e), UvSideStep(p, c, free, e).call, UvSideStep(p, c, free, e).free)
  {
    if c.stage.AwaitUv? {
      UvPollIsGood(p, c, free, e);
    } else if c.stage.SpawnUv? || c.stage.TakePipes? {
      UvStartIsGood(p, c, free, e);
    } else {
      UvEndIsGood(p, c, free, e);
    }
  }

  lemma LeaveStepIsGood(p: SystemInfo.Protocol, c: Call, free: nat, e: Event)
    requires CallInv(p, c) && LeaveStep(c, free, e).Moved?
    ensures GoodStep(p, c, free, false, LeaveStep(c, free, e).call, LeaveStep(c, free, e).free)
  {
  }

  lemma CallStepIsGood(p: SystemInfo.Protocol, c: Call, free: nat, e: Event)
    requires CallInv(p, c) && CallStep(p, c, free, e).Moved?
    ensures GoodStep(p, c, free, IdlePoll(c, e), CallStep(p, c, free, e).call, CallStep(p, c, free, e).free)
  {
    match PartOf(c, e)
    case CallerPart => CallerStepIsGood(p, c, free, e);
    case DeathPart => DeathStepIsGood(p, c, free);
    case KeyPart => KeyStepIsGood(p, c, free, e);
    case CertificatePart => CertificateStepIsGood(p, c, free, e);
    case UvPart => UvSideStepIsGood(p, c, free, e);
    case LeavePart => LeaveStepIsGood(p, c, free, e);
  }

  // ---------- Every run ----------

  ghost predicate Inv(p: SystemInfo.Protocol, s: State) {
    && s.free + Tally.Sum(s.calls, PermitOf) == 1
    && forall i :: 0 <= i < |s.calls| ==> CallInv(p, s.calls[i])
  }

  predicate Idle(s: State, m: Move) {
    m.who < |s.calls| && IdlePoll(s.calls[m.who], m.what)
  }

  lemma StartInv(p: SystemInfo.Protocol, pins: seq<Option<string>>)
    ensures Inv(p, Start(pins))
  {
    Tally.SumOfZeros(Start(pins).calls, PermitOf);
  }

  /** The moved call after a move, and everything that stays as it was. */
  lemma ApplyIsGood(p: SystemInfo.Protocol, s: State, m: Move)
    requires Inv(p, s) && Apply(p, s, m).Some?
    ensures var s' := Apply(p, s, m).value;
            && Inv(p, s') && |s'.calls| == |s.calls|
            && GoodStep(p, s.calls[m.who], s.free, Idle(s, m), s'.calls[m.who], s'.free)
            && (forall i :: 0 <= i < |s.calls| && i != m.who ==> s'.calls[i] == s.calls[i])
            && (if Idle(s, m) then s' == s else Tally.Sum(s'.calls, Rank) < Tally.Sum(s.calls, Rank))
  {
    var c := s.calls[m.who];
    CallStepIsGood(p, c, s.free, m.what);
    var c' := CallStep(p, c, s.free, m.what).call;
    Tally.SumUpdate(s.calls, PermitOf, m.who, c');
    Tally.SumUpdate(s.calls, Rank, m.who, c');
    assert c' == c ==> s.calls[m.who := c'] == s.calls;
  }

  lemma {:induction false} ExecKeeps(p: SystemInfo.Protocol, s: State, moves: seq<Move>)
    requires Inv(p, s) && Exec(p, s, moves).Some?
    ensures Inv(p, Exec(p, s, moves).value)
    decreases moves
  {
    if moves != [] {
      ApplyIsGood(p, s, moves[0]);
      ExecKeeps(p, Apply(p, s, moves[0]).value, moves[1..]);
    }
  }

  lemma ReachableInv(p: SystemInfo.Protocol, s: State)
    requires Reachable(p, s)
    ensures Inv(p, s)
  {
    var pins, moves :| Exec(p, Start(pins), moves) == Some(s);
    StartInv(p, pins);
    ExecKeeps(p, Start(pins), moves);
  }

  // ---------- What callers may conclude ----------

  /** In every interleaving each result tells the truth about whether uv was started: after a
    start it is a report, unreadable output or an open outcome, without one it says so. The
    one exception leaves more open than necessary: exactly when the worker died before starting uv. */
  lemma OutcomesAreTruthful(p: SystemInfo.Protocol, s: State, i: nat)
    requires Reachable(p, s) && i < |s.calls| && s.calls[i].caller.Returned?
    ensures var c, r := s.calls[i], s.calls[i].caller.result;
            && (c.uvStarted ==> r.Report? || r.error == InvalidOutput || OutcomeUnknown(r.error))
            && (!c.uvStarted ==> r.Failure? && (SaysNotRun(r.error) || r.error == ExecutionOutcomeUnknown))
            && (!c.uvStarted ==> (r == Failure(ExecutionOutcomeUnknown) <==> c.died))
            && (r.Failure? && SaysNotRun(r.error) ==> !c.uvStarted)
  {
    ReachableInv(p, s);
    assert CallInv(p, s.calls[i]);
  }

  /** Sections are reported only if the output of this call's uv run, which exited with code 0,
    is an unambiguous rendering of exactly those sections. */
  lemma ReportedSectionsWerePrinted(p: SystemInfo.Protocol, s: State, i: nat) returns (pre: string, post: string)
    requires SystemInfo.Regular(p)
    requires Reachable(p, s) && i < |s.calls| && s.calls[i].caller.Returned? && s.calls[i].caller.result.Report?
    ensures var c := s.calls[i];
            && c.uvStarted && c.uvOutput.Some? && |c.uvOutput.value| <= 512 * 1024
            && SystemInfo.Rendered(p, c.uvOutput.value, pre, c.caller.result.sections, post)
            && SystemInfo.Unambiguous(p, pre, c.caller.result.sections, post)
  {
    ReachableInv(p, s);
    assert CallInv(p, s.calls[i]);
    pre, post := SystemInfo.ParsedIsRendered(p, s.calls[i].uvOutput.value);
  }

  lemma {:induction false} RunSettles(p: SystemInfo.Protocol, s: State, moves: seq<Move>, i: nat)
    requires Inv(p, s) && Exec(p, s, moves).Some? && i < |s.calls|
    ensures |Exec(p, s, moves).value.calls| == |s.calls|
    ensures Settled(s.calls[i], Exec(p, s, moves).value.calls[i])
    decreases moves
  {
    if moves != [] {
      ApplyIsGood(p, s, moves[0]);
      RunSettles(p, Apply(p, s, moves[0]).value, moves[1..], i);
    }
  }

  /** A result stands: later moves change neither it nor, when it says that nothing ran, that fact. */
  lemma ReturnedResultsStand(p: SystemInfo.Protocol, s: State, moves: seq<Move>, i: nat)
    requires Reachable(p, s) && Exec(p, s, moves).Some?
    requires i < |s.calls| && s.calls[i].caller.Returned?
    ensures var later := Exec(p, s, moves).value;
            && i < |later.calls| && later.calls[i].caller == s.calls[i].caller
            && (s.calls[i].caller.result.Failure? && SaysNotRun(s.calls[i].caller.result.error) ==>
                !later.calls[i].uvStarted)
  {
    ReachableInv(p, s);
    RunSettles(p, s, moves, i);
    ExecKeeps(p, s, moves);
    assert CallInv(p, Exec(p, s, moves).value.calls[i]);
  }

  /** A host key the inventory accepted is never the reason for a refused deploy. */
  lemma {:induction false} StoredPinsAreNotMissing(p: SystemInfo.Protocol, pins: seq<Option<string>>,
          moves: seq<Move>, s: State, i: nat)
    requires Exec(p, Start(pins), moves) == Some(s) && i < |pins|
    requires pins[i].Some? && SshKeys.InventoryAccepts(pins[i].value)
    ensures i < |s.calls| && s.calls[i].caller != Returned(Failure(MissingHostPin))
  {
    SshKeys.StoredPinsAreRunnable(pins[i].value);
    StartInv(p, pins);
    RunSettles(p, Start(pins), moves, i);
    ExecKeeps(p, Start(pins), moves);
    assert CallInv(p, s.calls[i]) && s.calls[i].pin == Usable;
  }

  // ---------- One worker, one permit ----------

  /** At most one worker is live, and while one is the permit is not free. */
  lemma OneWorker(p: SystemInfo.Protocol, s: State, i: nat, j: nat)
    requires Reachable(p, s) && i < |s.calls| && j < |s.calls|
    requires Live(s.calls[i].stage) && Live(s.calls[j].stage)
    ensures i == j && s.free == 0
  {
    ReachableInv(p, s);
    assert CallInv(p, s.calls[i]) && CallInv(p, s.calls[j]);
    Tally.SumBoundsOne(s.calls, PermitOf, i);
    if i < j {
      Tally.SumBoundsTwo(s.calls, PermitOf, i, j);
    } else if j < i {
      Tally.SumBoundsTwo(s.calls, PermitOf, j, i);
    }
  }

  /** Every attempt while a worker lives is answered with Busy and changes nothing else. */
  lemma BusyWhileWorkerLives(p: SystemInfo.Protocol, s: State, i: nat, j: nat)
    requires Reachable(p, s) && i < |s.calls| && j < |s.calls|
    requires Live(s.calls[j].stage) && s.calls[i].caller == Fresh
    ensures Apply(p, s, Move(i, Acquire)) ==
        Some(s.(calls := s.calls[i := s.calls[i].(caller := Returned(Failure(Busy)))]))
  {
    OneWorker(p, s, j, j);
  }

  /** An attempt is answered with Busy exactly when another call holds the permit. */
  lemma BusyIff(p: SystemInfo.Protocol, s: State, i: nat)
    requires Reachable(p, s) && i < |s.calls| && s.calls[i].caller == Fresh
    ensures Apply(p, s, Move(i, Acquire)).Some?
    ensures Apply(p, s, Move(i, Acquire)).value.calls[i].caller == Returned(Failure(Busy))
       <==> exists j :: 0 <= j < |s.calls| && j != i && s.calls[j].permit
  {
    ReachableInv(p, s);
    assert CallInv(p, s.calls[i]);
    if s.free == 0 {
      var j := Tally.SomePositive(s.calls, PermitOf);
      assert s.calls[j].permit && j != i;
    } else {
      forall j | 0 <= j < |s.calls| && j != i
        ensures !s.calls[j].permit
      {
        Tally.SumBoundsOne(s.calls, PermitOf, j);
      }
    }
  }

  /** Whenever the permit is free no worker is live and no run directory is in use: it was removed, or its
    removal was tried and failed, before the permit came back, on every path. */
  lemma FreePermitMeansClean(p: SystemInfo.Protocol, s: State, i: nat)
    requires Reachable(p, s) && s.free > 0 && i < |s.calls|
    ensures !Live(s.calls[i].stage) && !Admission(s.calls[i].caller) && s.calls[i].dir != Present
  {
    ReachableInv(p, s);
    assert CallInv(p, s.calls[i]);
    Tally.SumBoundsOne(s.calls, PermitOf, i);
  }

  /** A run directory is left behind only by a removal that was tried and failed, and nothing else changes
    what has become of one. */
  lemma DirectoryIsLeftIff(p: SystemInfo.Protocol, s: State, m: Move)
    requires Reachable(p, s) && Apply(p, s, m).Some?
    ensures var before, after := s.calls[m.who], Apply(p, s, m).value.calls[m.who];
            && (after.dir.LeftBehind? <==>
                  before.dir.LeftBehind? || (before.dir.Present? && before.stage.Leave? && m.what == Io(false)))
            && (before.dir.Removed? ==> after.dir.Removed?)
  {
    ReachableInv(p, s);
    assert CallInv(p, s.calls[m.who]);
    DirectoryStep(p, s.calls[m.who], s.free, m.what);
  }

  lemma DirectoryStep(p: SystemInfo.Protocol, c: Call, free: nat, e: Event)
    requires CallInv(p, c) && CallStep(p, c, free, e).Moved?
    ensures var c' := CallStep(p, c, free, e).call;
            && (c'.dir.LeftBehind? <==> c.dir.LeftBehind? || (c.dir.Present? && c.stage.Leave? && e == Io(false)))
            && (c.dir.Removed? ==> c'.dir.Removed?)
  {
    match PartOf(c, e)
    case KeyPart => KeyStepKeepsDirectory(p, c, free, e);
    case LeavePart => assert LeaveStep(c, free, e).Moved?;
    case UvPart => UvSideKeepsDirectory(p, c, free, e);
    case _ => OthersKeepDirectory(p, c, free, e);
  }

  lemma KeyStepKeepsDirectory(p: SystemInfo.Protocol, c: Call, free: nat, e: Event)
    requires CallInv(p, c) && KeyStep(c, free, e).Moved?
    ensures !c.stage.Leave?
    ensures var dir := KeyStep(c, free, e).call.dir; dir == c.dir || (c.dir.Absent? && dir.Present?)
  {
  }

  lemma UvSideKeepsDirectory(p: SystemInfo.Protocol, c: Call, free: nat, e: Event)
    requires UvSideStep(p, c, free, e).Moved?
    ensures !c.stage.Leave? && UvSideStep(p, c, free, e).call.dir == c.dir
  {
  }

  lemma OthersKeepDirectory(p: SystemInfo.Protocol, c: Call, free: nat, e: Event)
    requires CallStep(p, c, free, e).Moved?
    requires PartOf(c, e).CallerPart? || PartOf(c, e).DeathPart? || PartOf(c, e).CertificatePart?
    ensures CallStep(p, c, free, e).call.dir == c.dir
    ensures c.stage.Leave? ==> e != Io(false)
  {
  }

  /** A caller that vanishes frees nothing, and its worker counts as cancelled from then on. */
  lemma VanishingKeepsThePermit(p: SystemInfo.Protocol, s: State, i: nat, moves: seq<Move>)
    requires Reachable(p, s) && Apply(p, s, Move(i, Vanish)).Some?
    requires Exec(p, Apply(p, s, Move(i, Vanish)).value, moves).Some?
    ensures var s' := Apply(p, s, Move(i, Vanish)).value;
            var later := Exec(p, s', moves).value;
            && s'.free == s.free && s'.calls[i].permit == s.calls[i].permit
            && i < |later.calls| && later.calls[i].caller == Vanished && IsCancelled(later.calls[i])
  {
    ReachableInv(p, s);
    ApplyIsGood(p, s, Move(i, Vanish));
    var s' := Apply(p, s, Move(i, Vanish)).value;
    assert CallInv(p, s'.calls[i]);
    RunSettles(p, s', moves, i);
  }

  lemma {:induction false} NeverStartsKept(p: SystemInfo.Protocol, s: State, moves: seq<Move>, i: nat)
    requires Inv(p, s) && i < |s.calls| && NeverStarts(s.calls[i]) && Exec(p, s, moves).Some?
    ensures i < |Exec(p, s, moves).value.calls| && NeverStarts(Exec(p, s, moves).value.calls[i])
    decreases moves
  {
    if moves != [] {
      ApplyIsGood(p, s, moves[0]);
      NeverStartsKept(p, Apply(p, s, moves[0]).value, moves[1..], i);
    }
  }

  /** A call that is cancelled, or left by its caller, while its worker has not passed the
    check before signing never starts uv, in any continuation. */
  lemma EarlyCancellationPreventsUv(p: SystemInfo.Protocol, s: State, moves: seq<Move>, i: nat)
    requires Reachable(p, s) && Exec(p, s, moves).Some? && i < |s.calls|
    requires IsCancelled(s.calls[i]) && Working(s.calls[i].stage) && NotPastSecondCheck(s.calls[i].stage)
    ensures i < |Exec(p, s, moves).value.calls| && !Exec(p, s, moves).value.calls[i].uvStarted
  {
    ReachableInv(p, s);
    assert CallInv(p, s.calls[i]);
    NeverStartsKept(p, s, moves, i);
  }

  // ---------- Every run ends, and ends well ----------

  /** The number of moves of a run that are not idle wake-ups. */
  function BusyMoves(p: SystemInfo.Protocol, s: State, moves: seq<Move>): nat
    requires Exec(p, s, moves).Some?
    decreases moves
  {
    if moves == [] then 0
    else (if Idle(s, moves[0]) then 0 else 1) + BusyMoves(p, Apply(p, s, moves[0]).value, moves[1..])
  }

  lemma {:induction false} MovesAreBounded(p: SystemInfo.Protocol, s: State, moves: seq<Move>)
    requires Inv(p, s) && Exec(p, s, moves).Some?
    ensures BusyMoves(p, s, moves) + Tally.Sum(Exec(p, s, moves).value.calls, Rank) <= Tally.Sum(s.calls, Rank)
    decreases moves
  {
    if moves != [] {
      ApplyIsGood(p, s, moves[0]);
      MovesAreBounded(p, Apply(p, s, moves[0]).value, moves[1..]);
    }
  }

  /** Apart from idle wake-ups no run makes more than 33 moves per call. */
  lemma RunsAreBounded(p: SystemInfo.Protocol, pins: seq<Option<string>>, moves: seq<Move>)
    requires Exec(p, Start(pins), moves).Some?
    ensures BusyMoves(p, Start(pins), moves) <= 33 * |pins|
  {
    StartInv(p, pins);
    MovesAreBounded(p, Start(pins), moves);
    Tally.SumAtMost(Start(pins).calls, Rank, 33);
  }

  /** A move is possible that is no idle wake-up, cancellation, disappearance or death. */
  ghost predicate CanAdvance(p: SystemInfo.Protocol, s: State) {
    exists m: Move :: !m.what.CancelCall? && !m.what.Vanish? && !m.what.Die? && Apply(p, s, m).Some? && !Idle(s, m)
  }

  function CompleteWakeUp(): UvLoop.Poll {
    UvLoop.Poll(false, false, Some(UvLoop.Exited(UvLoop.Code(0))), Some(Some("")), Some(Some("")))
  }

  function NextEvent(c: Call): Event {
    if c.caller.Fresh? then Acquire
    else if c.caller.Admitted? then Resolve(None)
    else if c.caller.Resolved? then RequirePin
    else if c.caller.Checked? then Spawn
    else match c.stage
      case Ended => Receive
      case AwaitKeygen => KeygenDeadline
      case KillKeygen(_) => Reaped
      case KillUv(_) => Reaped
      case ReadKey => ReadKeyFile(Readable)
      case AwaitSign => Signed
      case AwaitUv(_) => PollUv(CompleteWakeUp())
      case CheckFirst => Go
      case CheckPin => Go
      case CheckAgain => Go
      case Normalise(_) => Go
      case Send(_) => Go
      case Release => Go
      case _ => Io(true)
  }

  lemma UnfinishedCanStep(p: SystemInfo.Protocol, s: State, i: nat)
    requires i < |s.calls| && CallInv(p, s.calls[i])
    requires !(s.calls[i].caller.Returned? || s.calls[i].caller.Vanished?) || Live(s.calls[i].stage)
    ensures CanAdvance(p, s)
  {
    var m := Move(i, NextEvent(s.calls[i]));
    assert CallStep(p, s.calls[i], s.free, m.what).Moved? && !IdlePoll(s.calls[i], m.what);
    assert Apply(p, s, m).Some? && !Idle(s, m);
  }

  /** Nothing waits for good: where no move is possible every caller has its answer or has
    gone, every worker has ended, the permit is free and no run directory is in use. */
  lemma StuckOnlyWhenDone(p: SystemInfo.Protocol, s: State)
    requires Reachable(p, s) && !CanAdvance(p, s)
    ensures s.free == 1
    ensures forall i :: 0 <= i < |s.calls| ==>
      (s.calls[i].caller.Returned? || s.calls[i].caller.Vanished?) && !Live(s.calls[i].stage) &&
          s.calls[i].dir != Present
  {
    ReachableInv(p, s);
    forall i | 0 <= i < |s.calls|
      ensures (s.calls[i].caller.Returned? || s.calls[i].caller.Vanished?) && !Live(s.calls[i].stage)
      ensures s.calls[i].dir != Present && !s.calls[i].permit
    {
      assert CallInv(p, s.calls[i]);
      if !(s.calls[i].caller.Returned? || s.calls[i].caller.Vanished?) || Live(s.calls[i].stage) {
        UnfinishedCanStep(p, s, i);
      }
    }
    Tally.SumOfZeros(s.calls, PermitOf);
  }
}
