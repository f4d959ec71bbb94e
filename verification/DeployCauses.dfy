/** Why a deploy ends as it does: every answer has its cause among the events of its own call. */
module DeployCauses {
  import opened Wrappers
  import opened DeployErrors
  import opened DeployRunner
  import opened DeployProofs
  import UvLoop
  import SystemInfo
  import SshKeys

  // ---------- Causes ----------

  predicate PollWith(seen: set<Event>, child: UvLoop.Wait) {
    exists e :: e in seen && e.PollUv? && e.poll.child == Some(child)
  }

  predicate PollStdout(seen: set<Event>, output: string) {
    exists e :: e in seen && e.PollUv? && e.poll.stdout == Some(Some(output))
  }

  predicate ReaderFailed(seen: set<Event>) {
    exists e :: e in seen && e.PollUv? && (e.poll.stdout == Some(None) || e.poll.stderr == Some(None))
  }

  predicate ChildFailed(seen: set<Event>) {
    exists e :: e in seen && e.PollUv? && e.poll.child.Some? && e.poll.child.value != UvLoop.Exited(UvLoop.Code(0))
  }

  predicate ChildSucceeded(seen: set<Event>) {
    PollWith(seen, UvLoop.Exited(UvLoop.Code(0)))
  }

  predicate PollCancelled(seen: set<Event>) {
    exists e :: e in seen && e.PollUv? && e.poll.cancelled
  }

  predicate PollExpired(seen: set<Event>) {
    exists e :: e in seen && e.PollUv? && e.poll.expired
  }

  /** What must have happened for an error. */
  predicate Cause(pin: Pin, seen: set<Event>, e: DeployError) {
    match e
    case Busy => Acquire in seen
    case DeployNotFound => Resolve(Some(e)) in seen
    case DeployUnavailable => Resolve(Some(e)) in seen
    case MissingHostPin => !pin.Usable?
    case ExecutionRejected =>
      Io(false) in seen || KeygenExit(false) in seen || KeygenDeadline in seen || ReadKeyFile(NoMetadata) in seen
    case CredentialInvalid => ReadKeyFile(BadContent) in seen || SignRefused(e) in seen
    case CredentialUnavailable => SignRefused(e) in seen
    case InvalidConfiguration => SignRefused(e) in seen
    case Cancelled => CancelCall in seen || Vanish in seen
    case CancelledOutcomeUnknown => PollCancelled(seen) && (CancelCall in seen || Vanish in seen)
    case TimeoutOutcomeUnknown => PollExpired(seen)
    case OutputTooLargeOutcomeUnknown => ReaderFailed(seen)
    case ExecutionOutcomeUnknown => Die in seen || Io(false) in seen || ChildFailed(seen)
    case InvalidOutput => ChildSucceeded(seen)
    case InvalidCatalog => false
  }

  predicate Explains(pin: Pin, seen: set<Event>, r: RunResult) {
    if r.Failure? then Cause(pin, seen, r.error) else ChildSucceeded(seen)
  }

  // ---------- The way to uv ----------

  /** The steps of a worker up to the start of uv. */
  function StepsToUv(): seq<Event> {
    [Go, Go, Io(true), Io(true), KeygenExit(true), Io(true), ReadKeyFile(Readable), Go, Signed,
     Io(true), Io(true), Io(true), Io(true), Io(true)]
  }

  /** How many of these steps a stage has behind it. */
  function StepsDone(s: Stage): Option<nat> {
    match s
    case NotStarted => Some(0)
    case CheckFirst => Some(0)
    case CheckPin => Some(1)
    case MakeDir => Some(2)
    case SpawnKeygen => Some(3)
    case AwaitKeygen => Some(4)
    case RestrictKeys => Some(5)
    case ReadKey => Some(6)
    case CheckAgain => Some(7)
    case AwaitSign => Some(8)
    case WriteCertificate => Some(9)
    case RemovePublicKey => Some(10)
    case WriteKnownHosts => Some(11)
    case WriteInventory => Some(12)
    case SpawnUv => Some(13)
    case _ => None
  }

  /** `worker` are the events of the worker so far, in order. */
  predicate OnTheWay(c: Call, worker: seq<Event>) {
    && (StepsDone(c.stage).Some? ==> !c.uvStarted && worker == StepsToUv()[..StepsDone(c.stage).value])
    && (StepsDone(c.stage).Some? && StepsDone(c.stage).value > 1 ==> c.pin.Usable?)
    && (c.uvStarted ==> StepsToUv() <= worker && c.pin.Usable?)
  }

  function Followed(worker: seq<Event>, e: Event): seq<Event> {
    if OfCaller(e) then worker else worker + [e]
  }

  // ---------- Invariant ----------

  predicate UvReported(c: Call, seen: set<Event>) {
    && (c.stage.AwaitUv? && c.stage.uv.status.Some? ==> PollWith(seen, UvLoop.Exited(c.stage.uv.status.value)))
    && (c.stage.AwaitUv? && c.stage.uv.output.Some? ==> PollStdout(seen, c.stage.uv.output.value))
    && (c.uvOutput.Some? ==> ChildSucceeded(seen) && PollStdout(seen, c.uvOutput.value))
  }

  predicate CancelExplained(c: Call, seen: set<Event>) {
    && (c.cancel.Sent? ==> CancelCall in seen)
    && (c.cancel.Closed? && !c.caller.Returned? ==> Vanish in seen)
    && (Vanish in seen <==> c.caller.Vanished?)
  }

  predicate EndingExplained(c: Call, seen: set<Event>, ending: Ending) {
    if ending.Dead? then Die in seen else Explains(c.pin, seen, ending.result)
  }

  predicate StageExplained(c: Call, seen: set<Event>) {
    && (c.stage.KillKeygen? ==> Cause(c.pin, seen, c.stage.error))
    && (c.stage.KillUv? ==> Cause(c.pin, seen, c.stage.error))
    && (c.stage.Leave? || c.stage.Send? ==> EndingExplained(c, seen, c.stage.ending))
  }

  predicate AnswerExplained(c: Call, seen: set<Event>) {
    && (c.mailbox.Delivered? ==> Explains(c.pin, seen, c.mailbox.result))
    && (c.mailbox.SenderGone? ==> Die in seen)
    && (c.caller.Returned? ==> Explains(c.pin, seen, c.caller.result))
  }

  predicate Explained(c: Call, seen: set<Event>) {
    UvReported(c, seen) && CancelExplained(c, seen) && StageExplained(c, seen) && AnswerExplained(c, seen)
  }

  lemma PollsStay(seen: set<Event>, e: Event)
    ensures forall w :: PollWith(seen, w) ==> PollWith(seen + {e}, w)
    ensures forall o :: PollStdout(seen, o) ==> PollStdout(seen + {e}, o)
    ensures ReaderFailed(seen) ==> ReaderFailed(seen + {e})
    ensures ChildFailed(seen) ==> ChildFailed(seen + {e})
    ensures PollCancelled(seen) ==> PollCancelled(seen + {e})
    ensures PollExpired(seen) ==> PollExpired(seen + {e})
  {
  }

  /** What explained an error still does. */
  lemma CauseStays(pin: Pin, seen: set<Event>, e: Event, error: DeployError)
    requires Cause(pin, seen, error)
    ensures Cause(pin, seen + {e}, error)
  {
    PollsStay(seen, e);
  }

  lemma ExplainsStays(pin: Pin, seen: set<Event>, e: Event, r: RunResult)
    requires Explains(pin, seen, r)
    ensures Explains(pin, seen + {e}, r)
  {
    PollsStay(seen, e);
    if r.Failure? {
      CauseStays(pin, seen, e, r.error);
    }
  }

  /** A step that leaves a call as it is leaves it explained. */
  lemma ExplainedStays(c: Call, seen: set<Event>, e: Event)
    requires Explained(c, seen) && !e.Vanish?
    ensures Explained(c, seen + {e})
  {
    PollsStay(seen, e);
    if c.mailbox.Delivered? {
      ExplainsStays(c.pin, seen, e, c.mailbox.result);
    }
    if c.caller.Returned? {
      ExplainsStays(c.pin, seen, e, c.caller.result);
    }
    if c.stage.KillKeygen? || c.stage.KillUv? {
      CauseStays(c.pin, seen, e, c.stage.error);
    }
    if (c.stage.Leave? || c.stage.Send?) && c.stage.ending.Result? {
      ExplainsStays(c.pin, seen, e, c.stage.ending.result);
    }
  }

  lemma CallerExplained(p: SystemInfo.Protocol, c: Call, free: nat, e: Event, seen: set<Event>)
    requires CallInv(p, c) && Explained(c, seen) && CallerStep(c, free, e).Moved? && OfCaller(e)
    ensures Explained(CallerStep(c, free, e).call, seen + {e})
  {
    if e.Vanish? {
      PollsStay(seen, e);
      if c.mailbox.Delivered? {
        ExplainsStays(c.pin, seen, e, c.mailbox.result);
      }
      if c.stage.KillKeygen? || c.stage.KillUv? {
        CauseStays(c.pin, seen, e, c.stage.error);
      }
      if (c.stage.Leave? || c.stage.Send?) && c.stage.ending.Result? {
        ExplainsStays(c.pin, seen, e, c.stage.ending.result);
      }
    } else {
      ExplainedStays(c, seen, e);
    }
  }

  lemma KeygenExplained(p: SystemInfo.Protocol, c: Call, free: nat, e: Event, seen: set<Event>)
    requires CallInv(p, c) && Explained(c, seen) && KeyStep(c, free, e).Moved? && !OfCaller(e)
    requires c.stage.AwaitKeygen? || c.stage.KillKeygen? || c.stage.ReadKey?
    ensures Explained(KeyStep(c, free, e).call, seen + {e})
  {
    ExplainedStays(c, seen, e);
  }

  lemma KeyExplained(p: SystemInfo.Protocol, c: Call, free: nat, e: Event, seen: set<Event>)
    requires CallInv(p, c) && Explained(c, seen) && KeyStep(c, free, e).Moved? && !OfCaller(e)
    ensures Explained(KeyStep(c, free, e).call, seen + {e})
  {
    if c.stage.AwaitKeygen? || c.stage.KillKeygen? || c.stage.ReadKey? {
      KeygenExplained(p, c, free, e, seen);
    } else {
      ExplainedStays(c, seen, e);
    }
  }

  lemma SigningExplained(p: SystemInfo.Protocol, c: Call, free: nat, e: Event, seen: set<Event>)
    requires CallInv(p, c) && Explained(c, seen) && CertificateStep(c, free, e).Moved? && !OfCaller(e)
    requires c.stage.CheckAgain? || c.stage.AwaitSign?
    ensures Explained(CertificateStep(c, free, e).call, seen + {e})
  {
    ExplainedStays(c, seen, e);
  }

  lemma CertificateExplained(p: SystemInfo.Protocol, c: Call, free: nat, e: Event, seen: set<Event>)
    requires CallInv(p, c) && Explained(c, seen) && CertificateStep(c, free, e).Moved? && !OfCaller(e)
    ensures Explained(CertificateStep(c, free, e).call, seen + {e})
  {
    if c.stage.CheckAgain? || c.stage.AwaitSign? {
      SigningExplained(p, c, free, e, seen);
    } else {
      ExplainedStays(c, seen, e);
    }
  }

  lemma UvSideExplained(p: SystemInfo.Protocol, c: Call, free: nat, e: Event, seen: set<Event>)
    requires CallInv(p, c) && Explained(c, seen) && UvSideStep(p, c, free, e).Moved?
    requires !OfCaller(e) && !c.stage.AwaitUv?
    ensures Explained(UvSideStep(p, c, free, e).call, seen + {e})
  {
    ExplainedStays(c, seen, e);
  }

  lemma UvPollExplained(p: SystemInfo.Protocol, c: Call, free: nat, e: Event, seen: set<Event>)
    requires CallInv(p, c) && Explained(c, seen) && UvSideStep(p, c, free, e).Moved? && !OfCaller(e) && c.stage.AwaitUv?
    ensures Explained(UvSideStep(p, c, free, e).call, seen + {e})
  {
    ExplainedStays(c, seen, e);
    assert e in seen + {e};
  }

  lemma LeaveExplained(p: SystemInfo.Protocol, c: Call, free: nat, e: Event, seen: set<Event>)
    requires CallInv(p, c) && Explained(c, seen) && !OfCaller(e)
    requires LeaveStep(c, free, e).Moved? || (e.Die? && DeathStep(c, free).Moved?)
    ensures LeaveStep(c, free, e).Moved? ==> Explained(LeaveStep(c, free, e).call, seen + {e})
    ensures e.Die? && DeathStep(c, free).Moved? ==> Explained(DeathStep(c, free).call, seen + {e})
  {
    ExplainedStays(c, seen, e);
  }

  lemma StepExplained(p: SystemInfo.Protocol, c: Call, free: nat, e: Event, seen: set<Event>)
    requires CallInv(p, c) && Explained(c, seen) && CallStep(p, c, free, e).Moved?
    ensures Explained(CallStep(p, c, free, e).call, seen + {e})
  {
    match PartOf(c, e)
    case CallerPart => CallerExplained(p, c, free, e, seen);
    case KeyPart => KeyExplained(p, c, free, e, seen);
    case CertificatePart => CertificateExplained(p, c, free, e, seen);
    case UvPart =>
      if c.stage.AwaitUv? {
        UvPollExplained(p, c, free, e, seen);
      } else {
        UvSideExplained(p, c, free, e, seen);
      }
    case _ => LeaveExplained(p, c, free, e, seen);
  }

  // ---------- The way to uv, step by step ----------

  lemma CallerOnTheWay(p: SystemInfo.Protocol, c: Call, free: nat, e: Event, worker: seq<Event>)
    requires CallInv(p, c) && OnTheWay(c, worker) && CallerStep(c, free, e).Moved?
    ensures OnTheWay(CallerStep(c, free, e).call, worker)
  {
  }

  lemma KeyOnTheWay(p: SystemInfo.Protocol, c: Call, free: nat, e: Event, worker: seq<Event>)
    requires CallInv(p, c) && OnTheWay(c, worker) && KeyStep(c, free, e).Moved?
    ensures OnTheWay(KeyStep(c, free, e).call, worker + [e])
  {
  }

  lemma CertificateOnTheWay(p: SystemInfo.Protocol, c: Call, free: nat, e: Event, worker: seq<Event>)
    requires CallInv(p, c) && OnTheWay(c, worker) && CertificateStep(c, free, e).Moved?
    ensures OnTheWay(CertificateStep(c, free, e).call, worker + [e])
  {
  }

  lemma UvOnTheWay(p: SystemInfo.Protocol, c: Call, free: nat, e: Event, worker: seq<Event>)
    requires CallInv(p, c) && OnTheWay(c, worker) && UvSideStep(p, c, free, e).Moved?
    ensures OnTheWay(UvSideStep(p, c, free, e).call, worker + [e])
  {
    if c.stage.AwaitUv? {
      assert StepsToUv() <= worker ==> StepsToUv() <= worker + [e];
    }
  }

  lemma LeaveOnTheWay(p: SystemInfo.Protocol, c: Call, free: nat, e: Event, worker: seq<Event>)
    requires CallInv(p, c) && OnTheWay(c, worker)
    ensures LeaveStep(c, free, e).Moved? ==> OnTheWay(LeaveStep(c, free, e).call, worker + [e])
    ensures DeathStep(c, free).Moved? ==> OnTheWay(DeathStep(c, free).call, worker + [e])
  {
  }

  lemma StepOnTheWay(p: SystemInfo.Protocol, c: Call, free: nat, e: Event, worker: seq<Event>)
    requires CallInv(p, c) && OnTheWay(c, worker) && CallStep(p, c, free, e).Moved?
    ensures OnTheWay(CallStep(p, c, free, e).call, Followed(worker, e))
  {
    match PartOf(c, e)
    case CallerPart => CallerOnTheWay(p, c, free, e, worker);
    case KeyPart => KeyOnTheWay(p, c, free, e, worker);
    case CertificatePart => CertificateOnTheWay(p, c, free, e, worker);
    case UvPart => UvOnTheWay(p, c, free, e, worker);
    case _ => LeaveOnTheWay(p, c, free, e, worker);
  }

  // ---------- Unusable pins ----------

  /** A worker whose pin cannot be used does nothing, and says why unless it was stopped before. */
  predicate PinRespected(c: Call) {
    !c.pin.Usable? ==>
      && (c.stage.NotStarted? || c.stage.CheckFirst? || c.stage.CheckPin? || Leaving(c.stage) || c.stage.Ended?)
      && (c.stage.Leave? || c.stage.Send? ==> c.stage.ending.Dead? || PinAnswer(c.stage.ending.result))
      && (c.mailbox.Delivered? ==> PinAnswer(c.mailbox.result))
      && (c.caller.Returned? ==> PinAnswer(c.caller.result) || c.died || AdmissionAnswer(c.caller.result))
      && c.dir.Absent?
  }

  predicate PinAnswer(r: RunResult) {
    r == Failure(MissingHostPin) || r == Failure(Cancelled)
  }

  predicate AdmissionAnswer(r: RunResult) {
    r == Failure(Busy) || r == Failure(DeployNotFound) || r == Failure(DeployUnavailable)
  }

  lemma CallerRespectsPin(p: SystemInfo.Protocol, c: Call, free: nat, e: Event)
    requires CallInv(p, c) && PinRespected(c) && CallerStep(c, free, e).Moved?
    ensures PinRespected(CallerStep(c, free, e).call)
  {
  }

  lemma KeyRespectsPin(p: SystemInfo.Protocol, c: Call, free: nat, e: Event)
    requires CallInv(p, c) && PinRespected(c) && KeyStep(c, free, e).Moved?
    ensures PinRespected(KeyStep(c, free, e).call)
  {
  }

  lemma StepRespectsPin(p: SystemInfo.Protocol, c: Call, free: nat, e: Event)
    requires CallInv(p, c) && PinRespected(c) && CallStep(p, c, free, e).Moved?
    ensures PinRespected(CallStep(p, c, free, e).call)
  {
    match PartOf(c, e)
    case CallerPart => CallerRespectsPin(p, c, free, e);
    case KeyPart => KeyRespectsPin(p, c, free, e);
    case _ =>
  }

  // ---------- Every run ----------

  /** What has happened to call `i`. */
  function EventsOf(moves: seq<Move>, i: nat): set<Event> {
    set m | m in moves && m.who == i :: m.what
  }

  /** What the worker of call `i` has done, in order. */
  function WorkerOf(moves: seq<Move>, i: nat): seq<Event>
    decreases moves
  {
    if moves == [] then []
    else if moves[0].who == i && !OfCaller(moves[0].what) then [moves[0].what] + WorkerOf(moves[1..], i)
    else WorkerOf(moves[1..], i)
  }

  ghost predicate Known(c: Call, seen: set<Event>, worker: seq<Event>) {
    Explained(c, seen) && OnTheWay(c, worker) && PinRespected(c)
  }

  lemma EventsOfCons(moves: seq<Move>, i: nat, seen: set<Event>)
    requires moves != []
    ensures moves[0].who == i ==> seen + EventsOf(moves, i) == seen + {moves[0].what} + EventsOf(moves[1..], i)
    ensures moves[0].who != i ==> EventsOf(moves, i) == EventsOf(moves[1..], i)
  {
    assert moves == [moves[0]] + moves[1..];
  }

  lemma WorkerOfCons(moves: seq<Move>, i: nat, worker: seq<Event>)
    requires moves != []
    ensures moves[0].who == i ==>
      worker + WorkerOf(moves, i) == Followed(worker, moves[0].what) + WorkerOf(moves[1..], i)
    ensures moves[0].who != i ==> WorkerOf(moves, i) == WorkerOf(moves[1..], i)
  {
  }

  lemma {:induction false} RunIsKnown(p: SystemInfo.Protocol, s: State, moves: seq<Move>, i: nat,
          seen: set<Event>, worker: seq<Event>)
    requires Inv(p, s) && i < |s.calls| && Exec(p, s, moves).Some?
    requires Known(s.calls[i], seen, worker)
    ensures var s' := Exec(p, s, moves).value;
            |s'.calls| == |s.calls| && s'.calls[i].pin == s.calls[i].pin &&
            Known(s'.calls[i], seen + EventsOf(moves, i), worker + WorkerOf(moves, i))
    decreases moves
  {
    if moves == [] {
      assert seen + EventsOf(moves, i) == seen && worker + WorkerOf(moves, i) == worker;
    } else {
      var s', e := Apply(p, s, moves[0]).value, moves[0].what;
      ApplyIsGood(p, s, moves[0]);
      EventsOfCons(moves, i, seen);
      WorkerOfCons(moves, i, worker);
      if moves[0].who == i {
        StepExplained(p, s.calls[i], s.free, e, seen);
        StepOnTheWay(p, s.calls[i], s.free, e, worker);
        StepRespectsPin(p, s.calls[i], s.free, e);
        RunIsKnown(p, s', moves[1..], i, seen + {e}, Followed(worker, e));
      } else {
        RunIsKnown(p, s', moves[1..], i, seen, worker);
      }
    }
  }

  lemma ReachedIsKnown(p: SystemInfo.Protocol, pins: seq<Option<string>>, moves: seq<Move>, s: State, i: nat)
    requires Exec(p, Start(pins), moves) == Some(s) && i < |pins|
    ensures |s.calls| == |pins| && s.calls[i].pin == PinOf(pins[i])
    ensures Inv(p, s) && Known(s.calls[i], EventsOf(moves, i), WorkerOf(moves, i))
  {
    StartInv(p, pins);
    ExecKeeps(p, Start(pins), moves);
    RunIsKnown(p, Start(pins), moves, i, {}, []);
    assert {} + EventsOf(moves, i) == EventsOf(moves, i) && [] + WorkerOf(moves, i) == WorkerOf(moves, i);
  }

  // ---------- What callers may conclude about the past ----------

  /** Every answer has its cause among what happened to its own call. */
  lemma AnswersHaveCauses(p: SystemInfo.Protocol, pins: seq<Option<string>>, moves: seq<Move>, s: State, i: nat)
    requires Exec(p, Start(pins), moves) == Some(s) && i < |pins|
    ensures i < |s.calls|
    ensures s.calls[i].caller.Returned? ==> Explains(PinOf(pins[i]), EventsOf(moves, i), s.calls[i].caller.result)
    ensures s.calls[i].caller == Returned(Failure(Cancelled)) ==> CancelCall in EventsOf(moves, i)
    ensures s.calls[i].caller == Returned(Failure(CancelledOutcomeUnknown)) ==> CancelCall in EventsOf(moves, i)
    ensures s.calls[i].caller.Returned? && s.calls[i].caller.result.Report? ==>
      s.calls[i].uvOutput.Some? && PollStdout(EventsOf(moves, i), s.calls[i].uvOutput.value)
  {
    ReachedIsKnown(p, pins, moves, s, i);
    assert CallInv(p, s.calls[i]);
  }

  /** uv is started only with a canonical host key, and only by a worker that took exactly the prescribed
    steps in their order: key pair, certificate, known hosts and inventory stood before. */
  lemma UvIsPrepared(p: SystemInfo.Protocol, pins: seq<Option<string>>, moves: seq<Move>, s: State, i: nat)
    requires Exec(p, Start(pins), moves) == Some(s) && i < |pins|
    ensures i < |s.calls|
    ensures s.calls[i].uvStarted ==> StepsToUv() <= WorkerOf(moves, i)
    ensures s.calls[i].uvStarted ==>
      pins[i].Some? && exists k :: SshKeys.IsPublicKey(k) && pins[i].value == SshKeys.PinText(k)
  {
    ReachedIsKnown(p, pins, moves, s, i);
    if s.calls[i].uvStarted {
      SshKeys.RunnerAcceptsIff(pins[i].value);
    }
  }

  /** An admitted call that was neither cancelled nor lost its worker is refused for its host key exactly when
    the machine has none in canonical form. */
  lemma MissingHostPinIff(p: SystemInfo.Protocol, pins: seq<Option<string>>, moves: seq<Move>, s: State, i: nat)
    requires Exec(p, Start(pins), moves) == Some(s) && i < |pins| == |s.calls| && s.calls[i].caller.Returned?
    requires s.calls[i].caller.result != Failure(Busy)
    requires forall e :: e in EventsOf(moves, i) ==>
      !e.CancelCall? && !e.Die? && (e.Resolve? ==> e.refusal.None?)
    ensures s.calls[i].caller.result == Failure(MissingHostPin) <==>
        pins[i].None? || !exists k :: SshKeys.IsPublicKey(k) && pins[i].value == SshKeys.PinText(k)
  {
    ReachedIsKnown(p, pins, moves, s, i);
    AnswersHaveCauses(p, pins, moves, s, i);
    if pins[i].Some? {
      SshKeys.RunnerAcceptsIff(pins[i].value);
    }
  }

  // ---------- Cancellation ----------

  /** Cancelled before the first check: the worker does not even make its run directory. */
  predicate Untouched(c: Call) {
    IsCancelled(c) && c.dir.Absent? && (c.stage.CheckFirst? || Leaving(c.stage) || c.stage.Ended?)
  }

  lemma StepKeepsUntouched(p: SystemInfo.Protocol, c: Call, free: nat, e: Event)
    requires CallInv(p, c) && Untouched(c) && CallStep(p, c, free, e).Moved?
    ensures Untouched(CallStep(p, c, free, e).call)
  {
  }

  lemma {:induction false} UntouchedKept(p: SystemInfo.Protocol, s: State, moves: seq<Move>, i: nat)
    requires Inv(p, s) && i < |s.calls| && Untouched(s.calls[i]) && Exec(p, s, moves).Some?
    ensures i < |Exec(p, s, moves).value.calls| && Untouched(Exec(p, s, moves).value.calls[i])
    decreases moves
  {
    if moves != [] {
      ApplyIsGood(p, s, moves[0]);
      if moves[0].who == i {
        StepKeepsUntouched(p, s.calls[i], s.free, moves[0].what);
      }
      UntouchedKept(p, Apply(p, s, moves[0]).value, moves[1..], i);
    }
  }

  /** A call cancelled before its worker's first check leaves no trace, in any continuation. */
  lemma EarliestCancellationLeavesNothing(p: SystemInfo.Protocol, s: State, moves: seq<Move>, i: nat)
    requires Reachable(p, s) && Exec(p, s, moves).Some? && i < |s.calls|
    requires IsCancelled(s.calls[i]) && s.calls[i].stage == CheckFirst
    ensures i < |Exec(p, s, moves).value.calls| && Exec(p, s, moves).value.calls[i].dir == Absent
  {
    ReachableInv(p, s);
    assert CallInv(p, s.calls[i]);
    UntouchedKept(p, s, moves, i);
  }

  predicate Waiting(s: Stage) {
    s.AwaitKeygen? || s.AwaitSign? || s.AwaitUv?
  }

  function SeesCancel(s: Stage): Event {
    if s.AwaitUv? then PollUv(UvLoop.Poll(true, false, None, None, None)) else SeeCancel
  }

  lemma WaitEnds(p: SystemInfo.Protocol, c: Call, free: nat)
    requires CallInv(p, c) && Waiting(c.stage)
    ensures IsCancelled(c) <==> CallStep(p, c, free, SeesCancel(c.stage)).Moved?
    ensures IsCancelled(c) ==>
      var c' := CallStep(p, c, free, SeesCancel(c.stage)).call;
      var e := if c'.uvStarted then CancelledOutcomeUnknown else Cancelled;
      c'.stage == Leave(Result(Failure(e))) || c'.stage == KillKeygen(e) || c'.stage == KillUv(e)
  {
  }

  /** A worker that waits can stop on its cancellation at once, and says whether uv was started. */
  lemma CancellationEndsWaiting(p: SystemInfo.Protocol, s: State, i: nat)
    requires Reachable(p, s) && i < |s.calls| && Waiting(s.calls[i].stage)
    ensures IsCancelled(s.calls[i]) <==> Apply(p, s, Move(i, SeesCancel(s.calls[i].stage))).Some?
    ensures IsCancelled(s.calls[i]) ==>
      var c := Apply(p, s, Move(i, SeesCancel(s.calls[i].stage))).value.calls[i];
      var e := if c.uvStarted then CancelledOutcomeUnknown else Cancelled;
      c.stage == Leave(Result(Failure(e))) || c.stage == KillKeygen(e) || c.stage == KillUv(e)
  {
    ReachableInv(p, s);
    WaitEnds(p, s.calls[i], s.free);
  }
}
