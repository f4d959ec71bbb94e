/** The Ceph client under concurrency: any number of tasks share one token cell behind a
  mutex and four request permits. A task is one catalog query or one catalog execution. */
module CephProtocol {
  import opened Wrappers
  import opened CephReplies
  import Json

  type Token = nat

  datatype Lock = Unlocked | HeldBy(who: nat)

  /** The shared client. The fields after `issued` only record history: how often a token was
    stored and cleared, which tokens these were, and which tokens the server refused. */
  datatype Shared = Shared(
    cell: Option<Token>, lock: Lock, free: nat, issued: Token,
    stores: nat, clears: nat, stored: set<Token>, cleared: set<Token>, refused: set<Token>)

  datatype Kind = Reading | Executing(action: Action, osd: nat)

  // Where a task is. Waiting for the lock, a login or a reply are the await points.
  datatype Pc =
    | Idle
    | WantLock(op: Operation, attempt: nat)
    | HoldLock(op: Operation, attempt: nat)
    | Login(op: Operation, attempt: nat)
    | Store(op: Operation, attempt: nat, token: Token)
    | ToSend(op: Operation, attempt: nat, token: Token)
    | Dispatch(op: Operation, attempt: nat, token: Token)
    | InFlight(op: Operation, attempt: nat, token: Token)
    | WantClear(token: Token)
    | HoldClear(token: Token)
    | HaveAnswer
    | Ended(outcome: Outcome)
    | Gone

  // What a task's log records, in order.
  datatype Note =
    | LoginSent
    | QuerySent
    | SafeReported(osd: nat)
    | MutationSent(action: Action, osd: nat)

  /** `calls` counts the client calls; `requests` and `logins` count within the current one. */
  datatype Task = Task(
    kind: Kind, pc: Pc, permit: bool, lock: bool, dispatched: bool,
    calls: nat, requests: nat, logins: nat, log: seq<Note>)

  datatype Event =
    | Begin
    | TakeLock
    | Look
    | BadLoginUrl
    | LoginReplied(reply: Reply)
    | LoginTimeout
    | StoreToken
    | Prepare
    | BadUrl
    | SendNow
    | Replied(reply: Reply)
    | RequestTimeout
    | ClearToken
    | NextQuery
    | Finish(failure: Option<Error>)
    | Deadline
    | Drop

  datatype Step = Blocked | Moved(shared: Shared, task: Task)

  // ---------- `authenticate` ----------

  function Fail(t: Task, e: Error): Task {
    t.(pc := Ended(Failed(e)))
  }

  /** With the lock held: use the cached token, or take a permit and log in. */
  function LookStep(g: Shared, t: Task): Step
    requires t.pc.HoldLock?
  {
    if g.cell.Some? then
      Moved(g.(lock := Unlocked), t.(pc := ToSend(t.pc.op, t.pc.attempt, g.cell.value), lock := false))
    else if g.free == 0 then
      Moved(g.(lock := Unlocked), Fail(t, CapacityExhausted).(lock := false))
    else
      Moved(g.(free := g.free - 1),
            t.(pc := Login(t.pc.op, t.pc.attempt), permit := true, logins := t.logins + 1, log := t.log + [LoginSent]))
  }

  function LockStep(me: nat, g: Shared, t: Task, e: Event): Step {
    if t.pc.WantLock? then
      if e.TakeLock? && g.lock.Unlocked? then
        Moved(g.(lock := HeldBy(me)), t.(pc := HoldLock(t.pc.op, t.pc.attempt), lock := true))
      else Blocked
    else if t.pc.HoldLock? then
      if e.Look? then LookStep(g, t)
      else if e.BadLoginUrl? && g.cell.None? then Moved(g.(lock := Unlocked), Fail(t, InvalidArguments).(lock := false))
      else Blocked
    else Blocked
  }

  function LoginStep(g: Shared, t: Task, e: Event): Step {
    if t.pc.Login? then
      if e.LoginReplied? && LoginFailure(e.reply).None? then
        Moved(g.(free := g.free + 1, issued := g.issued + 1),
              t.(pc := Store(t.pc.op, t.pc.attempt, g.issued), permit := false))
      else if e.LoginReplied? || e.LoginTimeout? then
        var error := if e.LoginTimeout? then Timeout else LoginFailure(e.reply).value;
        Moved(g.(free := g.free + 1, lock := Unlocked), Fail(t, error).(permit := false, lock := false))
      else Blocked
    else if t.pc.Store? && e.StoreToken? then
      Moved(g.(cell := Some(t.pc.token), lock := Unlocked, stores := g.stores + 1, stored := g.stored + {t.pc.token}),
            t.(pc := ToSend(t.pc.op, t.pc.attempt, t.pc.token), lock := false))
    else Blocked
  }

  // ---------- `send`, and what `query` and the executions do with the result ----------

  predicate NeedsPreflight(k: Kind) {
    k.Executing? && Destructive(k.action)
  }

  /** The request that a task sends in its current operation. */
  function RequestNote(t: Task): Note
    requires t.pc.Dispatch?
  {
    if t.pc.op.Mutation? && t.kind.Executing? then MutationSent(t.kind.action, t.kind.osd) else QuerySent
  }

  /** After a query: a reading goes on with its answer; an execution looks at the preflight. */
  function AnswerStep(t: Task, body: Json.Value): Task {
    if t.kind.Reading? then t.(pc := HaveAnswer)
    else
      var safe := ReportsSafe(body);
      if safe.None? then Fail(t, InvalidResponse)
      else if !safe.value then Fail(t, UnsafeToDestroy)
      else t.(pc := WantLock(Mutation, 1), requests := 0, logins := 0, log := t.log + [SafeReported(t.kind.osd)])
  }

  /** A refused token: the first time in a query it is cleared, otherwise the refusal stands. */
  function RefusedStep(g: Shared, t: Task): Step
    requires t.pc.InFlight?
  {
    var g1 := g.(free := g.free + 1, refused := g.refused + {t.pc.token});
    if t.pc.op.Query? && t.pc.attempt == 1 then Moved(g1, t.(permit := false, pc := WantClear(t.pc.token)))
    else Moved(g1, Fail(t, Unauthorized).(permit := false))
  }

  function ReplyStep(g: Shared, t: Task, sent: Sent): Step
    requires t.pc.InFlight?
  {
    if sent.Refused? && sent.error.Unauthorized? then RefusedStep(g, t)
    else
      var g1 := g.(free := g.free + 1);
      if sent.Refused? then Moved(g1, Fail(t, sent.error).(permit := false))
      else if t.pc.op.Query? then Moved(g1, AnswerStep(t, sent.body).(permit := false))
      else if t.kind.Reading? then Blocked
      else
        Moved(g1,
              t.(permit := false, pc := Ended(MutationOutcome(t.kind.action, t.kind.osd, sent.status, sent.body))))
  }

  function RequestStep(g: Shared, t: Task, e: Event): Step {
    if t.pc.ToSend? then
      if e.BadUrl? then Moved(g, Fail(t, FailureOf(t.pc.op)))
      else if !e.Prepare? then Blocked
      else if g.free == 0 then Moved(g, Fail(t, CapacityExhausted))
      else Moved(g.(free := g.free - 1), t.(pc := Dispatch(t.pc.op, t.pc.attempt, t.pc.token), permit := true))
    else if t.pc.Dispatch? && e.SendNow? then
      Moved(g, t.(pc := InFlight(t.pc.op, t.pc.attempt, t.pc.token),
                  dispatched := t.dispatched || t.pc.op.Mutation?,
                  requests := t.requests + 1, log := t.log + [RequestNote(t)]))
    else Blocked
  }

  function FlightStep(g: Shared, t: Task, e: Event): Step {
    if !t.pc.InFlight? then Blocked
    else if e.Replied? then ReplyStep(g, t, Classify(t.pc.op, e.reply))
    else if e.RequestTimeout? then
      Moved(g.(free := g.free + 1),
            Fail(t, if t.pc.op.Query? then Timeout else MutationOutcomeUnknown).(permit := false))
    else Blocked
  }

  // ---------- The first 401 of a query ----------

  function ClearStep(me: nat, g: Shared, t: Task, e: Event): Step {
    if t.pc.WantClear? then
      if e.TakeLock? && g.lock.Unlocked? then
        Moved(g.(lock := HeldBy(me)), t.(pc := HoldClear(t.pc.token), lock := true))
      else Blocked
    else if t.pc.HoldClear? && e.ClearToken? then
      var g1 := g.(lock := Unlocked);
      var t1 := t.(pc := WantLock(Query, 2), lock := false);
      if g.cell == Some(t.pc.token) then
        Moved(g1.(cell := None, clears := g.clears + 1, cleared := g.cleared + {t.pc.token}), t1)
      else Moved(g1, t1)
    else Blocked
  }

  // ---------- Start, end, deadline and disappearance ----------

  function FirstOperation(k: Kind): Operation {
    if k.Executing? && !Destructive(k.action) then Mutation else Query
  }

  // A lookup of one OSD asks for its detail and for at most five pages; every other query is one call.
  const MAX_CALLS: nat := 6

  function EdgeStep(t: Task, e: Event): Option<Task> {
    if t.pc.Idle? && e.Begin? then Some(t.(pc := WantLock(FirstOperation(t.kind), 1), calls := 1))
    else if t.pc.HaveAnswer? && e.NextQuery? && t.calls < MAX_CALLS then
      Some(t.(pc := WantLock(Query, 1), calls := t.calls + 1, requests := 0, logins := 0))
    else if t.pc.HaveAnswer? && e.Finish? then
      if e.failure.None? then Some(t.(pc := Ended(Answer)))
      else if e.failure.value.InvalidResponse? || e.failure.value.NotFound? then Some(Fail(t, e.failure.value))
      else None
    else None
  }

  predicate Awaits(pc: Pc) {
    pc.WantLock? || pc.Login? || pc.InFlight? || pc.WantClear?
  }

  /** The catalog's deadline: what was dispatched has an unknown outcome. */
  function DeadlineError(t: Task): Error {
    if t.kind.Executing? && t.dispatched then MutationOutcomeUnknown else Timeout
  }

  /** Dropping a task at an await point releases what it holds. */
  function LeaveStep(g: Shared, t: Task, pc: Pc): Step {
    if !Awaits(t.pc) then Blocked
    else Moved(g.(free := if t.permit then g.free + 1 else g.free, lock := if t.lock then Unlocked else g.lock),
               t.(pc := pc, permit := false, lock := false))
  }

  function TaskStep(me: nat, g: Shared, t: Task, e: Event): Step {
    if e.Deadline? then LeaveStep(g, t, Ended(Failed(DeadlineError(t))))
    else if e.Drop? then LeaveStep(g, t, Gone)
    else if t.pc.WantLock? || t.pc.HoldLock? then LockStep(me, g, t, e)
    else if t.pc.Login? || t.pc.Store? then LoginStep(g, t, e)
    else if t.pc.ToSend? || t.pc.Dispatch? then RequestStep(g, t, e)
    else if t.pc.InFlight? then FlightStep(g, t, e)
    else if t.pc.WantClear? || t.pc.HoldClear? then ClearStep(me, g, t, e)
    else
      match EdgeStep(t, e)
      case None => Blocked
      case Some(t') => Moved(g, t')
  }

  // ---------- Runs ----------

  datatype State = State(shared: Shared, tasks: seq<Task>)

  datatype Move = Move(who: nat, what: Event)

  function Apply(s: State, m: Move): Option<State> {
    if m.who >= |s.tasks| then None
    else
      match TaskStep(m.who, s.shared, s.tasks[m.who], m.what)
      case Blocked => None
      case Moved(g, t) => Some(State(g, s.tasks[m.who := t]))
  }

  function Exec(s: State, moves: seq<Move>): Option<State>
    decreases moves
  {
    if moves == [] then Some(s)
    else
      var s' :- Apply(s, moves[0]);
      Exec(s', moves[1..])
  }

  const PERMITS: nat := 4

  function NewTask(k: Kind): Task {
    Task(k, Idle, false, false, false, 0, 0, 0, [])
  }

  function Start(kinds: seq<Kind>): State {
    State(Shared(None, Unlocked, PERMITS, 0, 0, 0, {}, {}, {}),
          seq(|kinds|, i requires 0 <= i < |kinds| => NewTask(kinds[i])))
  }

  /** The states some interleaving leads to. */
  ghost predicate Reachable(s: State) {
    exists kinds, moves :: Exec(Start(kinds), moves) == Some(s)
  }
}
