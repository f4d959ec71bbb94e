/** Why a Ceph task ends as it does: every outcome has its cause among the events of its own task. */
module CephCauses {
  import opened Wrappers
  import opened CephReplies
  import opened CephProtocol
  import opened CephProofs
  import BoundedRead
  import Json
  import Tally

  // ---------- Causes ----------

  /** The field that decides about a destroy or purge. */
  predicate SaysSafe(body: Json.Value, safe: bool) {
    Json.Get(body, "is_safe_to_destroy") == Some(Json.Bool(safe))
  }

  /** The other fields of that answer are absent or within their bounds. */
  predicate WellFormed(body: Json.Value) {
    && ModestScalars(body, "active") && ModestScalars(body, "missing_stats") && ModestScalars(body, "stored_pgs")
    && Modest(body, "message", 4096)
  }

  /** A task entry that deletes this OSD. */
  predicate Deletes(body: Json.Value, osd: nat) {
    && Json.Get(body, "name") == Some(Json.Text("osd/delete"))
    && Json.GetWithin(body, "metadata", "svc_id").Some?
    && NumericOsdId(Json.GetWithin(body, "metadata", "svc_id").value) == Some(osd)
  }

  predicate GotSafe(seen: set<Event>, safe: bool) {
    exists e :: e in seen && e.Replied? && Reports(e.reply, safe)
  }

  predicate Reports(reply: Reply, safe: bool) {
    Succeeds(reply) && reply.decoded.Some? && Delivers(reply, reply.decoded.value) &&
    SaysSafe(reply.decoded.value, safe)
  }

  predicate GotMalformed(seen: set<Event>) {
    exists e :: e in seen && e.Replied? && Whole(e.reply)
                && (Garbled(e.reply) || e.reply.decoded.None? || BoundedRead.Received(e.reply.chunks) == ""
                    || !WellFormed(e.reply.decoded.value)
                    || (!SaysSafe(e.reply.decoded.value, true) && !SaysSafe(e.reply.decoded.value, false)))
  }

  predicate GotStatus(seen: set<Event>, status: nat) {
    exists e :: e in seen && e.Replied? && e.reply.Response? && e.reply.status == status
  }

  predicate GotWhole(seen: set<Event>, status: nat) {
    exists e :: e in seen && e.Replied? && Whole(e.reply) && e.reply.status == status
  }

  predicate GotAnswer(seen: set<Event>) {
    exists e :: e in seen && e.Replied? && Whole(e.reply)
  }

  predicate GotTask(seen: set<Event>, osd: nat) {
    exists e :: e in seen && e.Replied? && Whole(e.reply) && e.reply.status == 202 && e.reply.decoded.Some?
                && Deletes(e.reply.decoded.value, osd)
  }

  predicate GotRejection(seen: set<Event>) {
    exists e :: e in seen && e.Replied? && Rejects(e.reply)
  }

  predicate GotUnclear(seen: set<Event>) {
    exists e :: e in seen && e.Replied? && Unclear(e.reply)
  }

  predicate GotTooBig(seen: set<Event>) {
    exists e :: e in seen && e.Replied? && TooBig(e.reply)
  }

  /** A successful reply that does not say what became of the mutation. */
  predicate GotOther(seen: set<Event>) {
    exists e :: e in seen && e.Replied? && Succeeds(e.reply)
                && (e.reply.status != 200 || !Whole(e.reply) || Garbled(e.reply))
  }

  /** A login was answered with this failure; the table of login replies says by which reply. */
  predicate LoginFailed(seen: set<Event>, error: Error) {
    exists e :: e in seen && e.LoginReplied? && LoginFailure(e.reply) == Some(error)
  }

  /** What must have happened for an error. */
  predicate Cause(seen: set<Event>, e: Error) {
    match e
    case InvalidArguments => BadLoginUrl in seen
    case CapacityExhausted => Look in seen || Prepare in seen
    case Timeout => LoginTimeout in seen || RequestTimeout in seen || Deadline in seen
    case Unauthorized => LoginFailed(seen, Unauthorized) || GotStatus(seen, 401) || GotStatus(seen, 403)
    case NotFound => Finish(Some(NotFound)) in seen || GotStatus(seen, 404)
    case UnsupportedAction => false
    case QueryRejected => GotRejection(seen)
    case MutationRejected => SendNow in seen && GotRejection(seen)
    case MutationOutcomeUnknown =>
      || BadUrl in seen
      || (SendNow in seen && (Deadline in seen || RequestTimeout in seen || GotUnclear(seen) || GotOther(seen)))
    case UnsafeToDestroy => GotSafe(seen, false)
    case UpstreamUnavailable => LoginFailed(seen, UpstreamUnavailable) || BadUrl in seen || GotUnclear(seen)
    case InvalidResponse =>
      LoginFailed(seen, InvalidResponse) || Finish(Some(InvalidResponse)) in seen || GotMalformed(seen)
    case ResponseTooLarge => LoginFailed(seen, ResponseTooLarge) || GotTooBig(seen)
  }

  predicate Explains(seen: set<Event>, o: Outcome) {
    match o
    case Answer => Finish(None) in seen && GotAnswer(seen)
    case Completed => SendNow in seen && GotWhole(seen, 200)
    case Accepted(osd) => SendNow in seen && GotTask(seen, osd)
    case Failed(e) => Cause(seen, e)
  }

  /** `seen` is what has happened to the task so far. */
  predicate Explained(t: Task, seen: set<Event>) {
    && (t.pc.Ended? ==> Explains(seen, t.pc.outcome))
    && (t.pc.HaveAnswer? ==> GotAnswer(seen))
    && (t.pc.InFlight? ==> SendNow in seen)
    && (NeedsPreflight(t.kind) && (t.dispatched || (HasOperation(t.pc) && t.pc.op.Mutation?)) ==> GotSafe(seen, true))
    && (t.dispatched ==> SendNow in seen)
  }

  lemma GotStays(seen: set<Event>, e: Event)
    ensures forall b :: GotSafe(seen, b) ==> GotSafe(seen + {e}, b)
    ensures forall n :: GotStatus(seen, n) ==> GotStatus(seen + {e}, n)
    ensures forall n :: GotWhole(seen, n) ==> GotWhole(seen + {e}, n)
    ensures forall n :: GotTask(seen, n) ==> GotTask(seen + {e}, n)
    ensures forall x :: LoginFailed(seen, x) ==> LoginFailed(seen + {e}, x)
    ensures GotMalformed(seen) ==> GotMalformed(seen + {e})
    ensures GotAnswer(seen) ==> GotAnswer(seen + {e})
    ensures GotRejection(seen) ==> GotRejection(seen + {e})
    ensures GotUnclear(seen) ==> GotUnclear(seen + {e})
    ensures GotTooBig(seen) ==> GotTooBig(seen + {e})
    ensures GotOther(seen) ==> GotOther(seen + {e})
  {
  }

  lemma ExplainedStays(t: Task, seen: set<Event>, e: Event)
    requires Explained(t, seen)
    ensures Explained(t, seen + {e})
  {
    GotStays(seen, e);
  }

  // ---------- Every step ----------

  lemma LockExplained(g: Shared, me: nat, t: Task, e: Event, seen: set<Event>)
    requires TaskInv(g, me, t) && Explained(t, seen) && LockStep(me, g, t, e).Moved?
    ensures Explained(LockStep(me, g, t, e).task, seen + {e})
  {
    ExplainedStays(t, seen, e);
  }

  lemma LoginExplained(g: Shared, me: nat, t: Task, e: Event, seen: set<Event>)
    requires TaskInv(g, me, t) && Explained(t, seen) && LoginStep(g, t, e).Moved?
    ensures Explained(LoginStep(g, t, e).task, seen + {e})
  {
    ExplainedStays(t, seen, e);
    if e.LoginReplied? {
      LoginTable(e.reply);
      assert e in seen + {e};
    }
  }

  lemma RequestExplained(g: Shared, me: nat, t: Task, e: Event, seen: set<Event>)
    requires TaskInv(g, me, t) && Explained(t, seen) && RequestStep(g, t, e).Moved?
    ensures Explained(RequestStep(g, t, e).task, seen + {e})
  {
    ExplainedStays(t, seen, e);
  }

  lemma ClearExplained(g: Shared, me: nat, t: Task, e: Event, seen: set<Event>)
    requires TaskInv(g, me, t) && Explained(t, seen) && ClearStep(me, g, t, e).Moved?
    ensures Explained(ClearStep(me, g, t, e).task, seen + {e})
  {
    ExplainedStays(t, seen, e);
  }

  lemma EdgeExplained(g: Shared, me: nat, t: Task, e: Event, seen: set<Event>)
    requires TaskInv(g, me, t) && Explained(t, seen) && EdgeStep(t, e).Some?
    ensures Explained(EdgeStep(t, e).value, seen + {e})
  {
    ExplainedStays(t, seen, e);
  }

  lemma LeaveExplained(g: Shared, me: nat, t: Task, e: Event, seen: set<Event>)
    requires TaskInv(g, me, t) && Explained(t, seen) && Awaits(t.pc)
    ensures e.Deadline? ==> Explained(LeaveStep(g, t, Ended(Failed(DeadlineError(t)))).task, seen + {e})
    ensures e.Drop? ==> Explained(LeaveStep(g, t, Gone).task, seen + {e})
  {
    ExplainedStays(t, seen, e);
  }

  lemma ErrorExplained(g: Shared, me: nat, t: Task, reply: Reply, seen: set<Event>)
    requires TaskInv(g, me, t) && Explained(t, seen) && t.pc.InFlight? && Classify(t.pc.op, reply).Refused?
    ensures Cause(seen + {Replied(reply)}, Classify(t.pc.op, reply).error)
  {
    var e := Replied(reply);
    assert e in seen + {e} && SendNow in seen + {e};
    ClassifyTable(t.pc.op, reply);
  }

  /** What a delivered body says about safety. */
  lemma ReportIff(reply: Reply)
    ensures forall body :: Delivers(reply, body) ==>
      && (ReportsSafe(body) == Some(true) <==> Reports(reply, true) && WellFormed(body))
      && (ReportsSafe(body) == Some(false) <==> Reports(reply, false) && WellFormed(body))
  {
    forall body | Delivers(reply, body)
      ensures ReportsSafe(body) == Some(true) <==> Reports(reply, true) && WellFormed(body)
      ensures ReportsSafe(body) == Some(false) <==> Reports(reply, false) && WellFormed(body)
    {
      ReportsSafeIff(body, true);
      ReportsSafeIff(body, false);
    }
  }

  lemma AnswerExplained(g: Shared, me: nat, t: Task, reply: Reply, seen: set<Event>)
    requires TaskInv(g, me, t) && Explained(t, seen) && t.pc.InFlight? && t.pc.op.Query?
    requires Classify(t.pc.op, reply).Answered?
    ensures Explained(AnswerStep(t, Classify(t.pc.op, reply).body), seen + {Replied(reply)})
  {
    var e := Replied(reply);
    ExplainedStays(t, seen, e);
    assert e in seen + {e};
    ClassifyTable(t.pc.op, reply);
    ReportIff(reply);
  }

  lemma ResultExplained(g: Shared, me: nat, t: Task, reply: Reply, seen: set<Event>)
    requires TaskInv(g, me, t) && Explained(t, seen) && t.pc.InFlight? && t.pc.op.Mutation? && t.kind.Executing?
    requires Classify(t.pc.op, reply).Answered?
    ensures var sent := Classify(t.pc.op, reply);
            Explains(seen + {Replied(reply)}, MutationOutcome(t.kind.action, t.kind.osd, sent.status, sent.body))
  {
    var e := Replied(reply);
    assert e in seen + {e} && SendNow in seen + {e};
    ClassifyTable(t.pc.op, reply);
  }

  lemma FlightExplained(g: Shared, me: nat, t: Task, e: Event, seen: set<Event>)
    requires TaskInv(g, me, t) && Explained(t, seen) && FlightStep(g, t, e).Moved?
    ensures Explained(FlightStep(g, t, e).task, seen + {e})
  {
    ExplainedStays(t, seen, e);
    if e.Replied? {
      var sent := Classify(t.pc.op, e.reply);
      if sent.Refused? {
        ErrorExplained(g, me, t, e.reply, seen);
      } else if t.pc.op.Query? {
        AnswerExplained(g, me, t, e.reply, seen);
      } else {
        ResultExplained(g, me, t, e.reply, seen);
      }
    }
  }

  lemma StepExplained(g: Shared, me: nat, t: Task, e: Event, seen: set<Event>)
    requires TaskInv(g, me, t) && Explained(t, seen) && TaskStep(me, g, t, e).Moved?
    ensures Explained(TaskStep(me, g, t, e).task, seen + {e})
  {
    if e.Deadline? || e.Drop? {
      LeaveExplained(g, me, t, e, seen);
    } else if t.pc.WantLock? || t.pc.HoldLock? {
      LockExplained(g, me, t, e, seen);
    } else if t.pc.Login? || t.pc.Store? {
      LoginExplained(g, me, t, e, seen);
    } else if t.pc.ToSend? || t.pc.Dispatch? {
      RequestExplained(g, me, t, e, seen);
    } else if t.pc.InFlight? {
      FlightExplained(g, me, t, e, seen);
    } else if t.pc.WantClear? || t.pc.HoldClear? {
      ClearExplained(g, me, t, e, seen);
    } else {
      EdgeExplained(g, me, t, e, seen);
    }
  }

  // ---------- Every run ----------

  /** What has happened to task `i`. */
  function EventsOf(moves: seq<Move>, i: nat): set<Event> {
    set m | m in moves && m.who == i :: m.what
  }

  lemma EventsOfCons(moves: seq<Move>, i: nat, seen: set<Event>)
    requires moves != []
    ensures moves[0].who == i ==> seen + EventsOf(moves, i) == seen + {moves[0].what} + EventsOf(moves[1..], i)
    ensures moves[0].who != i ==> EventsOf(moves, i) == EventsOf(moves[1..], i)
  {
    assert moves == [moves[0]] + moves[1..];
  }

  lemma {:induction false} RunExplained(s: State, moves: seq<Move>, i: nat, seen: set<Event>)
    requires Inv(s) && i < |s.tasks| && Exec(s, moves).Some? && Explained(s.tasks[i], seen)
    ensures var s' := Exec(s, moves).value;
            |s'.tasks| == |s.tasks| && s'.tasks[i].kind == s.tasks[i].kind &&
            Explained(s'.tasks[i], seen + EventsOf(moves, i))
    decreases moves
  {
    if moves == [] {
      assert seen + EventsOf(moves, i) == seen;
    } else {
      var s', e := Apply(s, moves[0]).value, moves[0].what;
      ApplyIsGood(s, moves[0]);
      EventsOfCons(moves, i, seen);
      if moves[0].who == i {
        assert TaskInv(s.shared, i, s.tasks[i]);
        StepExplained(s.shared, i, s.tasks[i], e, seen);
        RunExplained(s', moves[1..], i, seen + {e});
      } else {
        RunExplained(s', moves[1..], i, seen);
      }
    }
  }

  lemma ReachedIsExplained(kinds: seq<Kind>, moves: seq<Move>, s: State, i: nat)
    requires Exec(Start(kinds), moves) == Some(s) && i < |kinds|
    ensures |s.tasks| == |kinds| && s.tasks[i].kind == kinds[i] && Inv(s) && Explained(s.tasks[i], EventsOf(moves, i))
  {
    StartInv(kinds);
    ExecKeeps(Start(kinds), moves);
    RunExplained(Start(kinds), moves, i, {});
    assert {} + EventsOf(moves, i) == EventsOf(moves, i);
  }

  // ---------- What callers may conclude about the past ----------

  /** Every outcome has its cause among what happened to its own task. */
  lemma OutcomesHaveCauses(kinds: seq<Kind>, moves: seq<Move>, s: State, i: nat)
    requires Exec(Start(kinds), moves) == Some(s) && i < |kinds|
    ensures i < |s.tasks|
    ensures s.tasks[i].pc.Ended? ==> Explains(EventsOf(moves, i), s.tasks[i].pc.outcome)
  {
    ReachedIsExplained(kinds, moves, s, i);
  }

  /** When a destroy or purge is sent, the same task has received a whole successful reply that decodes to an object
    whose `is_safe_to_destroy` is true. */
  lemma DestructionWasReportedSafe(kinds: seq<Kind>, moves: seq<Move>, s: State, i: nat, s': State)
      returns (body: Json.Value, reply: Reply)
    requires Exec(Start(kinds), moves) == Some(s) && i < |kinds| && Apply(s, Move(i, SendNow)) == Some(s')
    requires kinds[i].Executing? && (kinds[i].action == Destroy || kinds[i].action == Purge)
    requires i < |s'.tasks| && MutationSent(kinds[i].action, kinds[i].osd) in s'.tasks[i].log
    ensures Move(i, Replied(reply)) in moves
    ensures reply.Response? && 200 <= reply.status < 300 && reply.decoded == Some(body)
    ensures body.Object? && "is_safe_to_destroy" in body.fields
    ensures body.fields["is_safe_to_destroy"] == Json.Bool(true)
  {
    ReachedIsExplained(kinds, moves, s, i);
    var t := s.tasks[i];
    assert TaskInv(s.shared, i, t);
    assert GotSafe(EventsOf(moves, i), true);
    var e :| e in EventsOf(moves, i) && e.Replied? && Reports(e.reply, true);
    reply, body := e.reply, e.reply.decoded.value;
  }

  lemma PreflightReply(g: Shared, me: nat, t: Task, reply: Reply)
    requires TaskInv(g, me, t) && NeedsPreflight(t.kind) && t.pc.InFlight? && t.pc.op.Query?
    ensures FlightStep(g, t, Replied(reply)).Moved?
    ensures var pc := FlightStep(g, t, Replied(reply)).task.pc;
            && (pc == WantLock(Mutation, 1) <==> Reports(reply, true) && WellFormed(reply.decoded.value))
            && (pc == Ended(Failed(UnsafeToDestroy)) <==> Reports(reply, false) && WellFormed(reply.decoded.value))
            && (pc == Ended(Failed(InvalidResponse)) <==> GotMalformed({Replied(reply)}))
  {
    ClassifyTable(Query, reply);
    ReportIff(reply);
    assert GotMalformed({Replied(reply)}) ==> Whole(reply);
  }

  /** The reply to a preflight leads on to the mutation exactly when it says that the OSD is safe, to a refusal
    exactly when it says that it is not, and is never taken for an answer when it is not well formed. */
  lemma PreflightIff(s: State, i: nat, reply: Reply)
    requires Reachable(s) && i < |s.tasks| && NeedsPreflight(s.tasks[i].kind)
    requires s.tasks[i].pc.InFlight? && s.tasks[i].pc.op.Query?
    ensures Apply(s, Move(i, Replied(reply))).Some?
    ensures var pc := Apply(s, Move(i, Replied(reply))).value.tasks[i].pc;
            && (pc == WantLock(Mutation, 1) <==> Reports(reply, true) && WellFormed(reply.decoded.value))
            && (pc == Ended(Failed(UnsafeToDestroy)) <==> Reports(reply, false) && WellFormed(reply.decoded.value))
            && (pc == Ended(Failed(InvalidResponse)) <==> GotMalformed({Replied(reply)}))
  {
    ReachableInv(s);
    PreflightReply(s.shared, i, s.tasks[i], reply);
  }

  lemma MutationReply(g: Shared, me: nat, t: Task, reply: Reply)
    requires TaskInv(g, me, t) && t.pc.InFlight? && t.pc.op.Mutation?
    ensures FlightStep(g, t, Replied(reply)).Moved? && FlightStep(g, t, Replied(reply)).task.pc.Ended?
    ensures var o := FlightStep(g, t, Replied(reply)).task.pc.outcome;
            && (o == Completed <==> Whole(reply) && !Garbled(reply) && reply.status == 200)
            && (o.Accepted? <==>
                  && Whole(reply) && reply.status == 202 && NeedsPreflight(t.kind)
                  && BoundedRead.Received(reply.chunks) != "" && reply.decoded.Some?
                  && Deletes(reply.decoded.value, t.kind.osd))
            && (o == Failed(MutationRejected) <==> Rejects(reply) && reply.status != 401 && reply.status != 404)
            && (o == Failed(Unauthorized) <==> reply.Response? && reply.status == 401)
            && (o == Failed(NotFound) <==> reply.Response? && reply.status == 404)
  {
    ClassifyTable(Mutation, reply);
  }

  /** The reply to a mutation decides its outcome: completed exactly on a whole 200, accepted exactly on a whole 202
    for a destroy or purge whose body is the task that deletes this OSD, refused exactly on a 4xx. */
  lemma MutationReplyIff(s: State, i: nat, reply: Reply)
    requires Reachable(s) && i < |s.tasks| && s.tasks[i].pc.InFlight? && s.tasks[i].pc.op.Mutation?
    ensures Apply(s, Move(i, Replied(reply))).Some?
    ensures s.tasks[i].kind.Executing? && Apply(s, Move(i, Replied(reply))).value.tasks[i].pc.Ended?
    ensures var t, o := s.tasks[i], Apply(s, Move(i, Replied(reply))).value.tasks[i].pc.outcome;
            && (o == Completed <==> Whole(reply) && !Garbled(reply) && reply.status == 200)
            && (o == Accepted(t.kind.osd) <==>
                  && Whole(reply) && reply.status == 202 && (t.kind.action == Destroy || t.kind.action == Purge)
                  && BoundedRead.Received(reply.chunks) != "" && reply.decoded.Some?
                  && Deletes(reply.decoded.value, t.kind.osd))
            && (o == Failed(MutationRejected) <==> Rejects(reply) && reply.status != 401 && reply.status != 404)
            && (o == Failed(Unauthorized) <==> reply.Response? && reply.status == 401)
            && (o == Failed(NotFound) <==> reply.Response? && reply.status == 404)
  {
    ReachableInv(s);
    assert TaskInv(s.shared, i, s.tasks[i]);
    MutationReply(s.shared, i, s.tasks[i], reply);
  }

  /** The catalog's deadline reports an unknown outcome exactly when the mutation was sent, and else a retryable one. */
  lemma DeadlineIff(s: State, i: nat)
    requires Reachable(s) && i < |s.tasks| && Apply(s, Move(i, Deadline)).Some?
    ensures Apply(s, Move(i, Deadline)).value.tasks[i].pc ==
        Ended(Failed(if HasMutation(s.tasks[i].log) then MutationOutcomeUnknown else Timeout))
  {
    ReachableInv(s);
    assert TaskInv(s.shared, i, s.tasks[i]);
  }

  /** A request or login is refused for want of capacity exactly when tasks hold all four permits. */
  lemma CapacityIff(s: State, i: nat, e: Event)
    requires Reachable(s) && i < |s.tasks|
    requires (e.Look? && s.tasks[i].pc.HoldLock? && s.shared.cell.None?) || (e.Prepare? && s.tasks[i].pc.ToSend?)
    ensures Apply(s, Move(i, e)).Some?
    ensures Apply(s, Move(i, e)).value.tasks[i].pc == Ended(Failed(CapacityExhausted))
       <==> Tally.Sum(s.tasks, PermitOf) == 4
  {
    ReachableInv(s);
  }

  predicate Waits(pc: Pc) {
    pc.WantLock? || pc.Login? || pc.InFlight? || pc.WantClear?
  }

  /** A task can be abandoned at each of its waits, and only there; its permit and its lock go back at once. */
  lemma AbandonedIff(s: State, i: nat)
    requires Reachable(s) && i < |s.tasks|
    ensures Apply(s, Move(i, Drop)).Some? <==> Waits(s.tasks[i].pc)
    ensures Apply(s, Move(i, Deadline)).Some? <==> Waits(s.tasks[i].pc)
    ensures Waits(s.tasks[i].pc) ==>
      var s' := Apply(s, Move(i, Drop)).value;
      && s'.tasks[i].pc == Gone && s'.shared.free == s.shared.free + PermitOf(s.tasks[i])
      && s'.shared.lock == (if s.shared.lock == HeldBy(i) then Unlocked else s.shared.lock)
      && s'.shared.cell == s.shared.cell
  {
    ReachableInv(s);
    assert TaskInv(s.shared, i, s.tasks[i]);
  }
}
