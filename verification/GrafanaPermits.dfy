/** The Grafana client under concurrency: any number of requests and renders share four request
  permits, and renders share two more. A task is one call of `run` or `render`. */
module GrafanaPermits {
  import opened Wrappers
  import opened Json
  import BoundedRead
  import Tally

  datatype Error =
    | InvalidArguments | CapacityExhausted | Timeout | Unauthorized | QueryRejected | MutationRejected
    | MutationOutcomeUnknown | UpstreamUnavailable | InvalidResponse | RenderTimeout | RenderRejected
    | RenderInvalidResponse

  /** The errors the tool reports as worth retrying. */
  predicate Retryable(e: Error) {
    e.CapacityExhausted? || e.Timeout? || e.UpstreamUnavailable? || e.RenderTimeout?
  }

  /** The errors that remain once a mutation may have reached Grafana. */
  predicate DefiniteOrUnknown(e: Error) {
    e.Unauthorized? || e.MutationRejected? || e.MutationOutcomeUnknown?
  }

  // ---------- Replies ----------

  const MAX_RESPONSE_BYTES: nat := 4 * 1024 * 1024
  const PNG_SIGNATURE: string := "\U{89}PNG\U{D}\U{A}\U{1A}\U{A}"

  datatype Kind = Read | Mutation | Render

  // `normalized` is what decoding and normalising make of the received bytes, `png` the declared type.
  datatype Reply =
    | NoReply
    | Response(status: nat, declared: Option<nat>, chunks: seq<BoundedRead.Read>, normalized: Option<Value>, png: bool)

  datatype Outcome = Answer(body: Value) | Image(bytes: string) | Failed(error: Error)

  function FailureOf(kind: Kind): Error {
    if kind.Mutation? then MutationOutcomeUnknown else UpstreamUnavailable
  }

  /** `run` after the response headers. */
  function ReadAnswer(kind: Kind, reply: Reply): Outcome
    requires reply.Response?
  {
    var body := BoundedRead.LimitedBody(reply.declared, reply.chunks, MAX_RESPONSE_BYTES);
    if body.Ok? && reply.normalized.Some? then Answer(reply.normalized.value)
    else if kind.Mutation? then Failed(MutationOutcomeUnknown)
    else if body.Err? && body.error.ReadFailed? then Failed(UpstreamUnavailable)
    else Failed(InvalidResponse)
  }

  /** `read_png`. */
  function ReadImage(reply: Reply): Outcome
    requires reply.Response?
  {
    var body := BoundedRead.LimitedBody(reply.declared, reply.chunks, MAX_RESPONSE_BYTES);
    if reply.png && body.Ok? && PNG_SIGNATURE <= body.value then Image(body.value) else Failed(RenderInvalidResponse)
  }

  function OutcomeOf(kind: Kind, reply: Reply): Outcome {
    if reply.NoReply? then Failed(FailureOf(kind))
    else if kind.Render? && reply.status == 200 then ReadImage(reply)
    else if reply.status == 401 || reply.status == 403 then Failed(Unauthorized)
    else if 400 <= reply.status < 500 then
      Failed(if kind.Render? then RenderRejected
             else if kind.Read? then QueryRejected
             else if reply.status == 400 then MutationRejected
             else MutationOutcomeUnknown)
    else if kind.Render? || !(200 <= reply.status < 300) then Failed(FailureOf(kind))
    else ReadAnswer(kind, reply)
  }

  function TimeoutOf(kind: Kind): Error {
    if kind.Read? then Timeout else if kind.Mutation? then MutationOutcomeUnknown else RenderTimeout
  }

  // ---------- Steps ----------

  datatype Pc = Idle | HaveGlobal | Building | InFlight | Ended(outcome: Outcome) | Gone

  /** `sent` records that the request may have reached Grafana. */
  datatype Task = Task(kind: Kind, pc: Pc, global: bool, render: bool, sent: bool)

  datatype Url = UrlGood | UrlBad | UrlTooLong

  datatype Event = TryGlobal | TryRender | Build(url: Url) | Replied(reply: Reply) | TimedOut | Drop

  datatype State = State(free: nat, freeRenders: nat, tasks: seq<Task>)

  datatype Step = Blocked | Moved(free: nat, freeRenders: nat, task: Task)

  const PERMITS: nat := 4
  const RENDER_PERMITS: nat := 2

  /** The task leaves its scope: whatever permits it holds go back. */
  function Release(free: nat, renders: nat, t: Task, pc: Pc): Step {
    Moved(if t.global then free + 1 else free, if t.render then renders + 1 else renders,
          t.(pc := pc, global := false, render := false))
  }

  function TaskStep(free: nat, renders: nat, t: Task, e: Event): Step {
    match t.pc
    case Idle =>
      if e.Drop? then Release(free, renders, t, Gone)
      else if !e.TryGlobal? then Blocked
      else if free == 0 then Release(free, renders, t, Ended(Failed(CapacityExhausted)))
      else Moved(free - 1, renders, t.(pc := if t.kind.Render? then HaveGlobal else Building, global := true))
    case HaveGlobal =>
      if !e.TryRender? then Blocked
      else if renders == 0 then Release(free, renders, t, Ended(Failed(CapacityExhausted)))
      else Moved(free, renders - 1, t.(pc := Building, render := true))
    case Building =>
      if !e.Build? then Blocked
      else if e.url.UrlBad? then Release(free, renders, t, Ended(Failed(FailureOf(t.kind))))
      else if e.url.UrlTooLong? then Release(free, renders, t, Ended(Failed(InvalidArguments)))
      else Moved(free, renders, t.(pc := InFlight, sent := true))
    case InFlight =>
      if e.Replied? then Release(free, renders, t, Ended(OutcomeOf(t.kind, e.reply)))
      else if e.TimedOut? then Release(free, renders, t, Ended(Failed(TimeoutOf(t.kind))))
      else if e.Drop? then Release(free, renders, t, Gone)
      else Blocked
    case _ => Blocked
  }

  datatype Move = Move(who: nat, what: Event)

  function Apply(s: State, m: Move): Option<State> {
    if m.who >= |s.tasks| then None
    else
      match TaskStep(s.free, s.freeRenders, s.tasks[m.who], m.what)
      case Blocked => None
      case Moved(free, renders, t) => Some(State(free, renders, s.tasks[m.who := t]))
  }

  function Exec(s: State, moves: seq<Move>): Option<State>
    decreases moves
  {
    if moves == [] then Some(s)
    else
      var s' :- Apply(s, moves[0]);
      Exec(s', moves[1..])
  }

  function Start(kinds: seq<Kind>): State {
    State(PERMITS, RENDER_PERMITS,
          seq(|kinds|, i requires 0 <= i < |kinds| => Task(kinds[i], Idle, false, false, false)))
  }

  ghost predicate Reachable(s: State) {
    exists kinds, moves :: Exec(Start(kinds), moves) == Some(s)
  }

  // ---------- What every run keeps ----------

  function Globals(t: Task): nat {
    if t.global then 1 else 0
  }

  function Renders(t: Task): nat {
    if t.render then 1 else 0
  }

  function StepsLeft(t: Task): nat {
    match t.pc
    case Idle => 4
    case HaveGlobal => 3
    case Building => 2
    case InFlight => 1
    case _ => 0
  }

  predicate OutcomeFits(t: Task, o: Outcome) {
    match t.kind
    case Mutation =>
      if t.sent then o.Answer? || (o.Failed? && DefiniteOrUnknown(o.error))
      else o.Failed? && (o.error.CapacityExhausted? || o.error.InvalidArguments? || o.error.MutationOutcomeUnknown?)
    case Read =>
      if t.sent then o.Answer? || (o.Failed? && !o.error.MutationRejected? && !o.error.MutationOutcomeUnknown?)
      else o.Failed?
    case Render =>
      if t.sent then o.Failed? || (o.Image? && PNG_SIGNATURE <= o.bytes && |o.bytes| <= MAX_RESPONSE_BYTES)
      else o.Failed?
  }

  predicate TaskInv(t: Task) {
    && (t.global <==> t.pc.HaveGlobal? || t.pc.Building? || t.pc.InFlight?)
    && (t.render <==> t.kind.Render? && (t.pc.Building? || t.pc.InFlight?))
    && (t.pc.HaveGlobal? ==> t.kind.Render?)
    && (t.pc.InFlight? ==> t.sent)
    && (t.pc.Idle? || t.pc.HaveGlobal? || t.pc.Building? ==> !t.sent)
    && (t.pc.Ended? ==> OutcomeFits(t, t.pc.outcome))
  }

  lemma RepliesFit(kind: Kind, reply: Reply, t: Task)
    requires t.kind == kind && t.sent
    ensures OutcomeFits(t, OutcomeOf(kind, reply))
  {
    if reply.Response? && kind.Render? && reply.status == 200 {
      assert ReadImage(reply).Image? ==> PNG_SIGNATURE <= ReadImage(reply).bytes;
    }
  }

  lemma TaskStepIsGood(free: nat, renders: nat, t: Task, e: Event)
    requires TaskInv(t) && TaskStep(free, renders, t, e).Moved?
    ensures var r := TaskStep(free, renders, t, e);
            && TaskInv(r.task) && r.task.kind == t.kind
            && r.free + Globals(r.task) == free + Globals(t)
            && r.freeRenders + Renders(r.task) == renders + Renders(t)
            && StepsLeft(r.task) < StepsLeft(t)
  {
    if t.pc.InFlight? && e.Replied? {
      RepliesFit(t.kind, e.reply, t);
    }
  }

  predicate Inv(s: State) {
    && s.free + Tally.Sum(s.tasks, Globals) == PERMITS
    && s.freeRenders + Tally.Sum(s.tasks, Renders) == RENDER_PERMITS
    && forall i :: 0 <= i < |s.tasks| ==> TaskInv(s.tasks[i])
  }

  lemma ApplyKeepsInv(s: State, m: Move)
    requires Inv(s) && Apply(s, m).Some?
    ensures Inv(Apply(s, m).value)
    ensures |Apply(s, m).value.tasks| == |s.tasks|
    ensures Tally.Sum(Apply(s, m).value.tasks, StepsLeft) < Tally.Sum(s.tasks, StepsLeft)
  {
    var t' := TaskStep(s.free, s.freeRenders, s.tasks[m.who], m.what).task;
    TaskStepIsGood(s.free, s.freeRenders, s.tasks[m.who], m.what);
    Tally.SumUpdate(s.tasks, Globals, m.who, t');
    Tally.SumUpdate(s.tasks, Renders, m.who, t');
    Tally.SumUpdate(s.tasks, StepsLeft, m.who, t');
  }

  lemma {:induction false} ExecKeepsInv(s: State, moves: seq<Move>)
    requires Inv(s) && Exec(s, moves).Some?
    ensures Inv(Exec(s, moves).value) && |Exec(s, moves).value.tasks| == |s.tasks|
    ensures |moves| + Tally.Sum(Exec(s, moves).value.tasks, StepsLeft) <= Tally.Sum(s.tasks, StepsLeft)
    decreases moves
  {
    if moves != [] {
      ApplyKeepsInv(s, moves[0]);
      ExecKeepsInv(Apply(s, moves[0]).value, moves[1..]);
    }
  }

  lemma StartInv(kinds: seq<Kind>)
    ensures Inv(Start(kinds))
  {
    Tally.SumOfZeros(Start(kinds).tasks, Globals);
    Tally.SumOfZeros(Start(kinds).tasks, Renders);
  }

  lemma ReachableInv(s: State)
    requires Reachable(s)
    ensures Inv(s)
  {
    var kinds, moves :| Exec(Start(kinds), moves) == Some(s);
    StartInv(kinds);
    ExecKeepsInv(Start(kinds), moves);
  }

  // ---------- Results ----------

  /** Permits are conserved whatever is dropped or refused; only a render with a request permit holds a
    render permit, and a call that is over holds none. */
  lemma PermitsAreConserved(s: State)
    requires Reachable(s)
    ensures s.free + Tally.Sum(s.tasks, Globals) == 4 && s.freeRenders + Tally.Sum(s.tasks, Renders) == 2
    ensures forall i :: 0 <= i < |s.tasks| && s.tasks[i].render ==> s.tasks[i].global && s.tasks[i].kind.Render?
    ensures forall i :: 0 <= i < |s.tasks| && (s.tasks[i].pc.Ended? || s.tasks[i].pc.Gone?) ==> !s.tasks[i].global
  {
    ReachableInv(s);
  }

  /** Once all calls are over all permits are back. */
  lemma AllPermitsReturn(s: State)
    requires Reachable(s) && forall i :: 0 <= i < |s.tasks| ==> s.tasks[i].pc.Ended? || s.tasks[i].pc.Gone?
    ensures s.free == 4 && s.freeRenders == 2
  {
    ReachableInv(s);
    Tally.SumOfZeros(s.tasks, Globals);
    Tally.SumOfZeros(s.tasks, Renders);
  }

  /** A step ends in exhausted capacity exactly when the tasks hold all permits of the kind it tried for. */
  lemma ExhaustedMeansAllHeld(s: State, m: Move)
    requires Reachable(s) && Apply(s, m).Some?
    ensures Apply(s, m).value.tasks[m.who].pc == Ended(Failed(CapacityExhausted))
       <==> (|| (m.what.TryGlobal? && Tally.Sum(s.tasks, Globals) == 4)
             || (m.what.TryRender? && Tally.Sum(s.tasks, Renders) == 2))
  {
    ReachableInv(s);
    assert TaskInv(s.tasks[m.who]);
    if m.what.Replied? {
      assert OutcomeOf(s.tasks[m.who].kind, m.what.reply) != Failed(CapacityExhausted);
    }
  }

  /** An error that invites a retry is never returned for a mutation that may have been sent, and a
    mutation that was not sent never succeeds or counts as rejected by Grafana. */
  lemma RetryableMeansNotSent(s: State, i: nat)
    requires Reachable(s) && i < |s.tasks| && s.tasks[i].kind.Mutation? && s.tasks[i].pc.Ended?
    ensures var t, o := s.tasks[i], s.tasks[i].pc.outcome;
            && (o.Failed? && Retryable(o.error) ==> !t.sent)
            && (t.sent ==> o.Answer? || (o.Failed? && DefiniteOrUnknown(o.error)))
            && (!t.sent ==> o.Failed? && !o.error.MutationRejected? && !o.error.Unauthorized?)
  {
    ReachableInv(s);
    assert TaskInv(s.tasks[i]);
  }

  /** No call waits for another: each unfinished one has a step of its own or is answered, without a deadline. */
  lemma CallsNeverWait(s: State, i: nat) returns (m: Move)
    requires Reachable(s) && i < |s.tasks| && !s.tasks[i].pc.Ended? && !s.tasks[i].pc.Gone?
    ensures m.who == i && !m.what.Drop? && !m.what.TimedOut? && Apply(s, m).Some?
  {
    ReachableInv(s);
    var pc := s.tasks[i].pc;
    m := Move(i, if pc.Idle? then TryGlobal
                 else if pc.HaveGlobal? then TryRender
                 else if pc.Building? then Build(UrlGood)
                 else Replied(NoReply));
  }

  lemma RunsAreBounded(kinds: seq<Kind>, moves: seq<Move>)
    requires Exec(Start(kinds), moves).Some?
    ensures |moves| <= 4 * |kinds|
  {
    StartInv(kinds);
    ExecKeepsInv(Start(kinds), moves);
    Tally.SumAtMost(Start(kinds).tasks, StepsLeft, 4);
  }
}
