/** The deploy runner as a protocol: any number of calls, one permit, and for each admitted
  call a spawned worker that shares a cancel channel and a result channel with its caller.
  Every await point lets other calls, the environment and the caller's own disappearance in. */
module DeployRunner {
  import opened Wrappers
  import opened DeployErrors
  import UvLoop
  import SystemInfo
  import SshKeys

  datatype RunResult = Report(sections: seq<string>) | Failure(error: DeployError)

  datatype Caller =
    | Fresh                        // has not asked yet
    | Admitted                     // holds the permit, deploy id not resolved yet
    | Resolved                     // deploy id resolved, pin not looked at yet
    | Checked                      // about to spawn the worker
    | Awaiting                     // waits for the result or its own cancellation
    | Cancelling                   // asked the worker to stop, waits for the result
    | Returned(result: RunResult)
    | Vanished                     // its future was dropped

  // The worker's view of the cancel channel; a dropped sender counts as cancellation.
  datatype Channel = Open | Sent | Closed

  datatype Mailbox = Empty | Delivered(result: RunResult) | SenderGone

  // The machine's pinned host key, as far as the runner looks at it.
  datatype Pin = Missing | Unusable | Usable

  datatype Dir = Absent | Present | Removed | LeftBehind

  // How the worker task ends: with a result, or dead.
  datatype Ending = Result(result: RunResult) | Dead

  // Where the worker is.
  datatype Stage =
    | NotStarted
    | CheckFirst | CheckPin | MakeDir
    | SpawnKeygen | AwaitKeygen | KillKeygen(error: DeployError) | RestrictKeys | ReadKey
    | CheckAgain | AwaitSign
    | WriteCertificate | RemovePublicKey | WriteKnownHosts | WriteInventory
    | SpawnUv | TakePipes | AwaitUv(uv: UvLoop.State) | KillUv(error: DeployError) | Normalise(output: string)
    | Leave(ending: Ending) | Send(ending: Ending) | Release | Ended

  /** One call. The last three fields only record history: whether uv was started, the output
    of a uv run that ended well, and whether the worker task died. */
  datatype Call = Call(
    pin: Pin, caller: Caller, cancel: Channel, mailbox: Mailbox,
    stage: Stage, permit: bool, dir: Dir,
    uvStarted: bool, uvOutput: Option<string>, died: bool)

  datatype KeyFile = Readable | NoMetadata | BadContent

  // Steps; the parameters are the environment's choices.
  datatype Event =
    | Acquire
    | Resolve(refusal: Option<DeployError>)
    | RequirePin
    | Spawn
    | CancelCall
    | Receive
    | Vanish
    | Go
    | Io(ok: bool)
    | SeeCancel
    | KeygenExit(ok: bool)
    | KeygenDeadline
    | Reaped
    | ReadKeyFile(file: KeyFile)
    | Signed
    | SignRefused(error: DeployError)
    | PollUv(poll: UvLoop.Poll)
    | Die

  // A step of one call, with the number of free permits after it.
  datatype Step = Blocked | Moved(call: Call, free: nat)

  predicate IsCancelled(c: Call) {
    !c.cancel.Open?
  }

  predicate Live(s: Stage) {
    !s.NotStarted? && !s.Ended?
  }

  // ---------- `run_cancelled`: the caller's side ----------

  /** A refused admission gives the permit back on return. */
  function Refuse(c: Call, free: nat, e: DeployError): Step {
    Moved(c.(caller := Returned(Failure(e)), permit := false), free + 1)
  }

  /** Dropping the sender closes a channel that carried no message. */
  function Hangup(cancel: Channel): Channel {
    if cancel.Open? then Closed else cancel
  }

  /** The worker's result, or an open outcome when its sender went away without one. */
  function ReceivedResult(m: Mailbox): RunResult {
    if m.Delivered? then m.result else Failure(ExecutionOutcomeUnknown)
  }

  function AdmissionStep(c: Call, free: nat, e: Event): Step {
    match c.caller
    case Fresh =>
      if !e.Acquire? then Blocked
      else if free == 0 then Moved(c.(caller := Returned(Failure(Busy))), free)
      else Moved(c.(caller := Admitted, permit := true), free - 1)
    case Admitted =>
      if !e.Resolve? then Blocked
      else if e.refusal.None? then Moved(c.(caller := Resolved), free)
      else if e.refusal.value.DeployNotFound? || e.refusal.value.DeployUnavailable?
      then Refuse(c, free, e.refusal.value)
      else Blocked
    case Resolved =>
      if !e.RequirePin? then Blocked
      else if c.pin.Missing? then Refuse(c, free, MissingHostPin)
      else Moved(c.(caller := Checked), free)
    case Checked =>
      if e.Spawn? then Moved(c.(caller := Awaiting, stage := CheckFirst), free) else Blocked
    case _ => Blocked
  }

  function CallerStep(c: Call, free: nat, e: Event): Step {
    if !c.caller.Awaiting? && !c.caller.Cancelling? then AdmissionStep(c, free, e)
    else if e.CancelCall? && c.caller.Awaiting? then
      Moved(c.(caller := Cancelling, cancel := Sent), free)
    else if e.Receive? && !c.mailbox.Empty? then
      Moved(c.(caller := Returned(ReceivedResult(c.mailbox)), cancel := Hangup(c.cancel)), free)
    else if e.Vanish? then
      Moved(c.(caller := Vanished, cancel := Hangup(c.cancel)), free)
    else Blocked
  }

  // ---------- `worker`, one step per await point or fallible operation ----------

  function Fail(c: Call, e: DeployError): Call {
    c.(stage := Leave(Result(Failure(e))))
  }

  /** A file or process operation that must succeed to go on. */
  function IoStep(c: Call, free: nat, e: Event, next: Stage): Step {
    if e.Io? then Moved(if e.ok then c.(stage := next) else Fail(c, ExecutionRejected), free) else Blocked
  }

  /** A look at the cancel channel without waiting. */
  function StopOr(c: Call, next: Stage): Call {
    if IsCancelled(c) then Fail(c, Cancelled) else c.(stage := next)
  }

  /** From the first check to the key pair. */
  function KeyStep(c: Call, free: nat, e: Event): Step {
    match c.stage
    case CheckFirst => if e.Go? then Moved(StopOr(c, CheckPin), free) else Blocked
    case CheckPin =>
      if e.Go? then Moved(if c.pin.Usable? then c.(stage := MakeDir) else Fail(c, MissingHostPin), free) else Blocked
    case MakeDir =>
      if e.Io? && e.ok then Moved(c.(stage := SpawnKeygen, dir := Present), free) else IoStep(c, free, e, SpawnKeygen)
    case SpawnKeygen => IoStep(c, free, e, AwaitKeygen)
    case AwaitKeygen =>
      if e.KeygenExit? then Moved(if e.ok then c.(stage := RestrictKeys) else Fail(c, ExecutionRejected), free)
      else if e.KeygenDeadline? then Moved(c.(stage := KillKeygen(ExecutionRejected)), free)
      else if e.SeeCancel? && IsCancelled(c) then Moved(c.(stage := KillKeygen(Cancelled)), free)
      else Blocked
    case KillKeygen(error) => if e.Reaped? then Moved(Fail(c, error), free) else Blocked
    case RestrictKeys => IoStep(c, free, e, ReadKey)
    case ReadKey =>
      if !e.ReadKeyFile? then Blocked
      else if e.file.Readable? then Moved(c.(stage := CheckAgain), free)
      else Moved(Fail(c, if e.file.NoMetadata? then ExecutionRejected else CredentialInvalid), free)
    case _ => Blocked
  }

  /** The errors of the OpenBao signer. */
  predicate SignerError(e: DeployError) {
    e.CredentialUnavailable? || e.CredentialInvalid? || e.InvalidConfiguration?
  }

  /** From the second check to the inventory. */
  function CertificateStep(c: Call, free: nat, e: Event): Step {
    match c.stage
    case CheckAgain => if e.Go? then Moved(StopOr(c, AwaitSign), free) else Blocked
    case AwaitSign =>
      if e.Signed? then Moved(c.(stage := WriteCertificate), free)
      else if e.SignRefused? && SignerError(e.error) then Moved(Fail(c, e.error), free)
      else if e.SeeCancel? && IsCancelled(c) then Moved(Fail(c, Cancelled), free)
      else Blocked
    case WriteCertificate => IoStep(c, free, e, RemovePublicKey)
    case RemovePublicKey => IoStep(c, free, e, WriteKnownHosts)
    case WriteKnownHosts => IoStep(c, free, e, WriteInventory)
    case WriteInventory => IoStep(c, free, e, SpawnUv)
    case _ => Blocked
  }

  /** One wake-up of `run_uv`, up to its next await. */
  function UvStep(c: Call, uv: UvLoop.State, poll: UvLoop.Poll): Call {
    match UvLoop.Step(uv, poll)
    case Finished(result, _) =>
      if result.Err? then c.(stage := KillUv(result.error)) else c
    case Running(next) =>
      if !UvLoop.Complete(next) then c.(stage := AwaitUv(next))
      else match UvLoop.Verdict(next.status.value, next.output.value)
        case Ok(output) => c.(stage := Normalise(output), uvOutput := Some(output))
        case Err(error) => Fail(c, error)
  }

  /** What the captured output says. */
  function Normalised(p: SystemInfo.Protocol, output: string): RunResult {
    match SystemInfo.Parse(p, output)
    case Some(sections) => Report(sections)
    case None => Failure(InvalidOutput)
  }

  /** From the start of uv to the result. */
  function UvSideStep(p: SystemInfo.Protocol, c: Call, free: nat, e: Event): Step {
    match c.stage
    case SpawnUv =>
      if e.Io? && e.ok then Moved(c.(stage := TakePipes, uvStarted := true), free) else IoStep(c, free, e, TakePipes)
    case TakePipes =>
      if e.Io? then Moved(if e.ok then c.(stage := AwaitUv(UvLoop.STARTED)) else Fail(c, ExecutionOutcomeUnknown), free)
      else Blocked
    case AwaitUv(uv) =>
      if e.PollUv? && UvLoop.Captured(e.poll) && (e.poll.cancelled ==> IsCancelled(c))
      then Moved(UvStep(c, uv, e.poll), free)
      else Blocked
    case KillUv(error) => if e.Reaped? then Moved(Fail(c, error), free) else Blocked
    case Normalise(output) =>
      if e.Go? then Moved(c.(stage := Leave(Result(Normalised(p, output)))), free) else Blocked
    case _ => Blocked
  }

  /** Removing the run directory is tried once; its failure is ignored. */
  function RemovalOf(ok: bool): Dir {
    if ok then Removed else LeftBehind
  }

  /** Leaving the worker: the run directory goes, then the result is sent, then the permit is released. */
  function LeaveStep(c: Call, free: nat, e: Event): Step {
    match c.stage
    case Leave(ending) =>
      if e.Io?
      then Moved(c.(stage := Send(ending), dir := if c.dir.Present? then RemovalOf(e.ok) else c.dir), free)
      else Blocked
    case Send(ending) =>
      if e.Go?
      then Moved(c.(stage := Release, mailbox := if ending.Dead? then SenderGone else Delivered(ending.result)), free)
      else Blocked
    case Release =>
      if e.Go? then Moved(c.(stage := Ended, permit := false), free + 1) else Blocked
    case _ => Blocked
  }

  // ---------- Steps of a call ----------

  datatype Part = CallerPart | DeathPart | KeyPart | CertificatePart | UvPart | LeavePart

  predicate Leaving(s: Stage) {
    s.Leave? || s.Send? || s.Release?
  }

  predicate UvSide(s: Stage) {
    s.SpawnUv? || s.TakePipes? || s.AwaitUv? || s.KillUv? || s.Normalise?
  }

  predicate CertificateSide(s: Stage) {
    s.CheckAgain? || s.AwaitSign? || s.WriteCertificate? || s.RemovePublicKey? || s.WriteKnownHosts? ||
        s.WriteInventory?
  }

  predicate OfCaller(e: Event) {
    e.Acquire? || e.Resolve? || e.RequirePin? || e.Spawn? || e.CancelCall? || e.Receive? || e.Vanish?
  }

  function PartOf(c: Call, e: Event): Part {
    if OfCaller(e) then CallerPart
    else if e.Die? then DeathPart
    else if Leaving(c.stage) then LeavePart
    else if UvSide(c.stage) then UvPart
    else if CertificateSide(c.stage) then CertificatePart
    else KeyPart
  }

  /** A worker task can die until it starts to leave. */
  function DeathStep(c: Call, free: nat): Step {
    if Live(c.stage) && !Leaving(c.stage) then Moved(c.(stage := Leave(Dead), died := true), free) else Blocked
  }

  function CallStep(p: SystemInfo.Protocol, c: Call, free: nat, e: Event): Step {
    match PartOf(c, e)
    case CallerPart => CallerStep(c, free, e)
    case DeathPart => DeathStep(c, free)
    case KeyPart => KeyStep(c, free, e)
    case CertificatePart => CertificateStep(c, free, e)
    case UvPart => UvSideStep(p, c, free, e)
    case LeavePart => LeaveStep(c, free, e)
  }

  // ---------- Runs ----------

  datatype State = State(free: nat, calls: seq<Call>)

  datatype Move = Move(who: nat, what: Event)

  function Apply(p: SystemInfo.Protocol, s: State, m: Move): Option<State> {
    if m.who >= |s.calls| then None
    else match CallStep(p, s.calls[m.who], s.free, m.what)
      case Blocked => None
      case Moved(c, free) => Some(State(free, s.calls[m.who := c]))
  }

  function Exec(p: SystemInfo.Protocol, s: State, moves: seq<Move>): Option<State>
    decreases moves
  {
    if moves == [] then Some(s)
    else
      var s' :- Apply(p, s, moves[0]);
      Exec(p, s', moves[1..])
  }

  function PinOf(pinned: Option<string>): Pin {
    if pinned.None? then Missing else if SshKeys.RunnerAccepts(pinned.value) then Usable else Unusable
  }

  function NewCall(pin: Pin): Call {
    Call(pin, Fresh, Open, Empty, NotStarted, false, Absent, false, None, false)
  }

  function Start(pins: seq<Option<string>>): State {
    State(1, seq(|pins|, i requires 0 <= i < |pins| => NewCall(PinOf(pins[i]))))
  }

  /** The states some interleaving leads to. */
  ghost predicate Reachable(p: SystemInfo.Protocol, s: State) {
    exists pins, moves :: Exec(p, Start(pins), moves) == Some(s)
  }
}
