/** What every interleaving of Ceph tasks keeps. */
module CephProofs {
  import opened Wrappers
  import opened CephReplies
  import opened CephProtocol
  import Json
  import Tally

  // ---------- The shared client ----------

  function Cached(cell: Option<Token>): set<Token> {
    if cell.Some? then {cell.value} else {}
  }

  /** Every stored token is either the cached one, which is the newest, or was cleared after
    the server had refused it. */
  ghost predicate SharedInv(g: Shared) {
    && g.stored == g.cleared + Cached(g.cell)
    && (g.cell.Some? ==> g.cell.value !in g.cleared && forall x :: x in g.stored ==> x <= g.cell.value)
    && g.cleared <= g.refused
    && (forall x :: x in g.stored ==> x < g.issued)
    && g.stores == |g.stored| && g.clears == |g.cleared|
  }

  // ---------- One task ----------

  predicate HoldsLock(pc: Pc) {
    pc.HoldLock? || pc.Login? || pc.Store? || pc.HoldClear?
  }

  predicate HoldsPermit(pc: Pc) {
    pc.Login? || pc.Dispatch? || pc.InFlight?
  }

  /** The task's tokens were stored, and a refused one was refused; while it logs in the cell is empty. */
  ghost predicate TokensFit(g: Shared, pc: Pc) {
    && (pc.Login? || pc.Store? ==> g.cell.None?)
    && (pc.Store? ==> pc.token < g.issued && forall x :: x in g.stored ==> x < pc.token)
    && (pc.ToSend? || pc.Dispatch? || pc.InFlight? || pc.WantClear? || pc.HoldClear? ==> pc.token in g.stored)
    && (pc.WantClear? || pc.HoldClear? ==> pc.token in g.refused)
  }

  predicate HasOperation(pc: Pc) {
    pc.WantLock? || pc.HoldLock? || pc.Login? || pc.Store? || pc.ToSend? || pc.Dispatch? || pc.InFlight?
  }

  /** Requests and logins of the current client call, by the point it has reached. */
  predicate CountsFit(t: Task) {
    && t.requests <= 2 && t.logins <= 2
    && (t.pc.Idle? ==> t.requests == 0 && t.logins == 0)
    && (HasOperation(t.pc) ==> 1 <= t.pc.attempt <= 2 && (t.pc.op.Mutation? ==> t.pc.attempt == 1))
    && (t.pc.WantLock? || t.pc.HoldLock? ==> t.requests == t.pc.attempt - 1 && t.logins < t.pc.attempt)
    && (t.pc.Login? || t.pc.Store? || t.pc.ToSend? || t.pc.Dispatch? ==>
        t.requests == t.pc.attempt - 1 && t.logins <= t.pc.attempt)
    && (t.pc.InFlight? ==> t.requests == t.pc.attempt && t.logins <= t.pc.attempt)
    && (t.pc.WantClear? || t.pc.HoldClear? ==> t.requests == 1 && t.logins <= 1)
  }

  /** A mutation is in the log at most once, it is the task's own, and a destructive one comes
    after a report that its OSD is safe. */
  ghost predicate LogFits(k: Kind, log: seq<Note>) {
    forall i :: 0 <= i < |log| && log[i].MutationSent? ==>
      && k.Executing? && log[i] == MutationSent(k.action, k.osd)
      && (NeedsPreflight(k) ==> SafeReported(k.osd) in log[..i])
      && forall j :: 0 <= j < |log| && log[j].MutationSent? ==> j == i
  }

  ghost predicate HasMutation(log: seq<Note>) {
    exists i :: 0 <= i < |log| && log[i].MutationSent?
  }

  /** The outcome respects the dispatch. */
  predicate OutcomeFits(t: Task, o: Outcome) {
    if t.kind.Reading? then
      o.Answer? || (o.Failed? && !o.error.MutationRejected? && !o.error.MutationOutcomeUnknown?)
    else if t.dispatched then
      || o.Completed?
      || (o.Accepted? && o.task == t.kind.osd && Destructive(t.kind.action))
      || (o.Failed? && PossibleAfterDispatch(o.error))
    else
      o.Failed? && !o.error.MutationRejected?
  }

  ghost predicate DispatchFits(t: Task) {
    && (t.dispatched <==> HasMutation(t.log))
    && LogFits(t.kind, t.log)
    && (t.kind.Reading? ==> !t.dispatched)
    && (HasOperation(t.pc) && t.pc.op.Mutation? ==>
          t.kind.Executing? && (NeedsPreflight(t.kind) ==> SafeReported(t.kind.osd) in t.log))
    && (HasOperation(t.pc) && t.pc.op.Query? ==> t.kind.Reading? || NeedsPreflight(t.kind))
    && (t.pc.WantClear? || t.pc.HoldClear? ==> t.kind.Reading? || NeedsPreflight(t.kind))
    && (t.pc.HaveAnswer? ==> t.kind.Reading?)
    && (t.dispatched ==> (t.pc.InFlight? && t.pc.op.Mutation?) || t.pc.Ended? || t.pc.Gone?)
    && (t.pc.InFlight? && t.pc.op.Mutation? ==> t.dispatched)
    && (t.pc.Ended? ==> OutcomeFits(t, t.pc.outcome))
  }

  ghost predicate TaskInv(g: Shared, me: nat, t: Task) {
    && (t.lock <==> g.lock == HeldBy(me))
    && (t.lock <==> HoldsLock(t.pc))
    && (t.permit <==> HoldsPermit(t.pc))
    && TokensFit(g, t.pc)
    && CountsFit(t)
    && DispatchFits(t)
  }

  function PermitOf(t: Task): nat {
    if t.permit then 1 else 0
  }

  /** What a step of one task may do to the others. */
  ghost predicate Polite(g: Shared, g': Shared, me: nat) {
    && (|| g'.lock == g.lock
        || (g.lock == Unlocked && g'.lock == HeldBy(me))
        || (g.lock == HeldBy(me) && g'.lock == Unlocked))
    && (g'.cell == g.cell || g.lock == HeldBy(me))
    && (g'.stored == g.stored || g.lock == HeldBy(me))
    && g.stored <= g'.stored && g.refused <= g'.refused && g.issued <= g'.issued
  }

  ghost predicate GoodStep(g: Shared, me: nat, t: Task, g': Shared, t': Task) {
    && SharedInv(g') && TaskInv(g', me, t') && Polite(g, g', me)
    && g'.free + PermitOf(t') == g.free + PermitOf(t)
    && t'.kind == t.kind && t.log <= t'.log
  }

  lemma StepKeepsOthers(g: Shared, g': Shared, me: nat, other: nat, t: Task)
    requires Polite(g, g', me) && other != me && TaskInv(g, other, t)
    ensures TaskInv(g', other, t)
  {
  }

  lemma LogGrows(k: Kind, log: seq<Note>, note: Note)
    requires LogFits(k, log)
    requires note.MutationSent? ==> !HasMutation(log) && k.Executing? && note == MutationSent(k.action, k.osd)
    requires note.MutationSent? && NeedsPreflight(k) ==> SafeReported(k.osd) in log
    ensures LogFits(k, log + [note])
    ensures HasMutation(log + [note]) <==> HasMutation(log) || note.MutationSent?
  {
    var longer := log + [note];
    assert longer[|log|] == note && longer[..|log|] == log;
    forall i | 0 <= i < |log|
      ensures longer[i] == log[i] && longer[..i] == log[..i]
    {
    }
    if i :| 0 <= i < |log| && log[i].MutationSent? {
      assert longer[i].MutationSent?;
    }
  }

  lemma LookStepIsGood(g: Shared, me: nat, t: Task)
    requires SharedInv(g) && TaskInv(g, me, t) && t.pc.HoldLock?
    ensures LookStep(g, t).Moved? && GoodStep(g, me, t, LookStep(g, t).shared, LookStep(g, t).task)
  {
    LogGrows(t.kind, t.log, LoginSent);
  }

  lemma LockStepIsGood(g: Shared, me: nat, t: Task, e: Event)
    requires SharedInv(g) && TaskInv(g, me, t) && LockStep(me, g, t, e).Moved?
    ensures GoodStep(g, me, t, LockStep(me, g, t, e).shared, LockStep(me, g, t, e).task)
  {
    if t.pc.HoldLock? {
      LookStepIsGood(g, me, t);
    }
  }

  lemma GrantIsGood(g: Shared, me: nat, t: Task, e: Event)
    requires SharedInv(g) && TaskInv(g, me, t) && t.pc.Login? && LoginStep(g, t, e).Moved?
    ensures GoodStep(g, me, t, LoginStep(g, t, e).shared, LoginStep(g, t, e).task)
  {
    if e.LoginReplied? {
      LoginTable(e.reply);
    }
  }

  lemma StoreIsGood(g: Shared, me: nat, t: Task, e: Event)
    requires SharedInv(g) && TaskInv(g, me, t) && t.pc.Store? && LoginStep(g, t, e).Moved?
    ensures GoodStep(g, me, t, LoginStep(g, t, e).shared, LoginStep(g, t, e).task)
  {
  }

  lemma LoginStepIsGood(g: Shared, me: nat, t: Task, e: Event)
    requires SharedInv(g) && TaskInv(g, me, t) && LoginStep(g, t, e).Moved?
    ensures GoodStep(g, me, t, LoginStep(g, t, e).shared, LoginStep(g, t, e).task)
  {
    if t.pc.Login? {
      GrantIsGood(g, me, t, e);
    } else {
      StoreIsGood(g, me, t, e);
    }
  }

  lemma RefusedStepIsGood(g: Shared, me: nat, t: Task)
    requires SharedInv(g) && TaskInv(g, me, t) && t.pc.InFlight?
    ensures GoodStep(g, me, t, RefusedStep(g, t).shared, RefusedStep(g, t).task)
  {
  }

  /** A reply as `send` may pass it on. */
  predicate Classified(op: Operation, sent: Sent) {
    sent.Refused? ==>
      if op.Mutation? then PossibleAfterDispatch(sent.error)
      else !sent.error.MutationRejected? && !sent.error.MutationOutcomeUnknown?
  }

  lemma AnswerIsGood(g: Shared, me: nat, t: Task, body: Json.Value)
    requires SharedInv(g) && TaskInv(g, me, t) && t.pc.InFlight? && t.pc.op.Query?
    ensures GoodStep(g, me, t, g.(free := g.free + 1), AnswerStep(t, body).(permit := false))
  {
    if t.kind.Executing? {
      LogGrows(t.kind, t.log, SafeReported(t.kind.osd));
    }
  }

  lemma ReplyStepIsGood(g: Shared, me: nat, t: Task, sent: Sent)
    requires SharedInv(g) && TaskInv(g, me, t) && t.pc.InFlight? && ReplyStep(g, t, sent).Moved?
    requires Classified(t.pc.op, sent)
    ensures GoodStep(g, me, t, ReplyStep(g, t, sent).shared, ReplyStep(g, t, sent).task)
  {
    if sent.Refused? && sent.error.Unauthorized? {
      RefusedStepIsGood(g, me, t);
    } else if sent.Answered? && t.pc.op.Query? {
      AnswerIsGood(g, me, t, sent.body);
    }
  }

  lemma PrepareIsGood(g: Shared, me: nat, t: Task, e: Event)
    requires SharedInv(g) && TaskInv(g, me, t) && t.pc.ToSend? && RequestStep(g, t, e).Moved?
    ensures GoodStep(g, me, t, RequestStep(g, t, e).shared, RequestStep(g, t, e).task)
  {
  }

  lemma SendIsGood(g: Shared, me: nat, t: Task, e: Event)
    requires SharedInv(g) && TaskInv(g, me, t) && t.pc.Dispatch? && RequestStep(g, t, e).Moved?
    ensures GoodStep(g, me, t, RequestStep(g, t, e).shared, RequestStep(g, t, e).task)
  {
    LogGrows(t.kind, t.log, RequestNote(t));
  }

  lemma RequestStepIsGood(g: Shared, me: nat, t: Task, e: Event)
    requires SharedInv(g) && TaskInv(g, me, t) && RequestStep(g, t, e).Moved?
    ensures GoodStep(g, me, t, RequestStep(g, t, e).shared, RequestStep(g, t, e).task)
  {
    if t.pc.Dispatch? {
      SendIsGood(g, me, t, e);
    } else {
      PrepareIsGood(g, me, t, e);
    }
  }

  lemma FlightStepIsGood(g: Shared, me: nat, t: Task, e: Event)
    requires SharedInv(g) && TaskInv(g, me, t) && FlightStep(g, t, e).Moved?
    ensures GoodStep(g, me, t, FlightStep(g, t, e).shared, FlightStep(g, t, e).task)
  {
    if e.Replied? {
      var sent := Classify(t.pc.op, e.reply);
      if sent.Refused? {
        ClassifyErrors(t.pc.op, e.reply);
      }
      ReplyStepIsGood(g, me, t, sent);
    }
  }

  lemma TakeLockToClearIsGood(g: Shared, me: nat, t: Task, e: Event)
    requires SharedInv(g) && TaskInv(g, me, t) && t.pc.WantClear? && ClearStep(me, g, t, e).Moved?
    ensures GoodStep(g, me, t, ClearStep(me, g, t, e).shared, ClearStep(me, g, t, e).task)
  {
  }

  lemma ClearIsGood(g: Shared, me: nat, t: Task, e: Event)
    requires SharedInv(g) && TaskInv(g, me, t) && t.pc.HoldClear? && ClearStep(me, g, t, e).Moved?
    ensures GoodStep(g, me, t, ClearStep(me, g, t, e).shared, ClearStep(me, g, t, e).task)
  {
  }

  lemma ClearStepIsGood(g: Shared, me: nat, t: Task, e: Event)
    requires SharedInv(g) && TaskInv(g, me, t) && ClearStep(me, g, t, e).Moved?
    ensures GoodStep(g, me, t, ClearStep(me, g, t, e).shared, ClearStep(me, g, t, e).task)
  {
    if t.pc.WantClear? {
      TakeLockToClearIsGood(g, me, t, e);
    } else {
      ClearIsGood(g, me, t, e);
    }
  }

  lemma EdgeStepIsGood(g: Shared, me: nat, t: Task, e: Event)
    requires SharedInv(g) && TaskInv(g, me, t) && EdgeStep(t, e).Some?
    ensures GoodStep(g, me, t, g, EdgeStep(t, e).value)
  {
  }

  lemma LeaveStepIsGood(g: Shared, me: nat, t: Task, pc: Pc)
    requires SharedInv(g) && TaskInv(g, me, t) && LeaveStep(g, t, pc).Moved?
    requires pc.Gone? || pc == Ended(Failed(DeadlineError(t)))
    ensures GoodStep(g, me, t, LeaveStep(g, t, pc).shared, LeaveStep(g, t, pc).task)
  {
  }

  lemma TaskStepIsGood(g: Shared, me: nat, t: Task, e: Event)
    requires SharedInv(g) && TaskInv(g, me, t) && TaskStep(me, g, t, e).Moved?
    ensures GoodStep(g, me, t, TaskStep(me, g, t, e).shared, TaskStep(me, g, t, e).task)
  {
    if e.Deadline? {
      LeaveStepIsGood(g, me, t, Ended(Failed(DeadlineError(t))));
    } else if e.Drop? {
      LeaveStepIsGood(g, me, t, Gone);
    } else if t.pc.WantLock? || t.pc.HoldLock? {
      LockStepIsGood(g, me, t, e);
    } else if t.pc.Login? || t.pc.Store? {
      LoginStepIsGood(g, me, t, e);
    } else if t.pc.ToSend? || t.pc.Dispatch? {
      RequestStepIsGood(g, me, t, e);
    } else if t.pc.InFlight? {
      FlightStepIsGood(g, me, t, e);
    } else if t.pc.WantClear? || t.pc.HoldClear? {
      ClearStepIsGood(g, me, t, e);
    } else {
      EdgeStepIsGood(g, me, t, e);
    }
  }

  // ---------- Every run ----------

  ghost predicate Inv(s: State) {
    && SharedInv(s.shared)
    && s.shared.free + Tally.Sum(s.tasks, PermitOf) == PERMITS
    && (s.shared.lock.HeldBy? ==> s.shared.lock.who < |s.tasks|)
    && forall i :: 0 <= i < |s.tasks| ==> TaskInv(s.shared, i, s.tasks[i])
  }

  lemma StartInv(kinds: seq<Kind>)
    ensures Inv(Start(kinds))
  {
    Tally.SumOfZeros(Start(kinds).tasks, PermitOf);
  }

  lemma ApplyIsGood(s: State, m: Move)
    requires Inv(s) && Apply(s, m).Some?
    ensures var s' := Apply(s, m).value;
            && Inv(s') && |s'.tasks| == |s.tasks|
            && GoodStep(s.shared, m.who, s.tasks[m.who], s'.shared, s'.tasks[m.who])
  {
    var g, t := s.shared, s.tasks[m.who];
    TaskStepIsGood(g, m.who, t, m.what);
    var g', t' := TaskStep(m.who, g, t, m.what).shared, TaskStep(m.who, g, t, m.what).task;
    Tally.SumUpdate(s.tasks, PermitOf, m.who, t');
    forall i | 0 <= i < |s.tasks| && i != m.who
      ensures TaskInv(g', i, s.tasks[i])
    {
      StepKeepsOthers(g, g', m.who, i, s.tasks[i]);
    }
  }

  lemma {:induction false} ExecKeeps(s: State, moves: seq<Move>)
    requires Inv(s) && Exec(s, moves).Some?
    ensures Inv(Exec(s, moves).value)
    decreases moves
  {
    if moves != [] {
      ApplyIsGood(s, moves[0]);
      ExecKeeps(Apply(s, moves[0]).value, moves[1..]);
    }
  }

  lemma ReachableInv(s: State)
    requires Reachable(s)
    ensures Inv(s)
  {
    var kinds, moves :| Exec(Start(kinds), moves) == Some(s);
    StartInv(kinds);
    ExecKeeps(Start(kinds), moves);
  }

  // ---------- Mutations ----------

  /** An execution sends at most one mutation, its own, even after a 401; a destroy or purge is
    sent only after the same execution saw its OSD reported safe; a query sends none. */
  lemma AtMostOneGuardedMutation(s: State, i: nat, k: nat)
    requires Reachable(s) && i < |s.tasks| && k < |s.tasks[i].log| && s.tasks[i].log[k].MutationSent?
    ensures var t := s.tasks[i];
            && t.kind.Executing? && t.log[k] == MutationSent(t.kind.action, t.kind.osd)
            && (Destructive(t.kind.action) ==> SafeReported(t.kind.osd) in t.log[..k])
            && forall j :: 0 <= j < |t.log| && t.log[j].MutationSent? ==> j == k
  {
    ReachableInv(s);
    assert TaskInv(s.shared, i, s.tasks[i]);
  }

  /** An error that invites a retry is returned only when no mutation was sent, whichever
    deadline struck; once one was sent, only a definite answer, a definite refusal or an
    unknown outcome is returned; and success is claimed only for a mutation that was sent. */
  lemma RetryableMeansNotSent(s: State, i: nat)
    requires Reachable(s) && i < |s.tasks| && s.tasks[i].kind.Executing? && s.tasks[i].pc.Ended?
    ensures var t, o := s.tasks[i], s.tasks[i].pc.outcome;
            && (o.Failed? && Retryable(o.error) ==> !HasMutation(t.log))
            && (HasMutation(t.log) ==> o.Completed? || o.Accepted? || (o.Failed? && PossibleAfterDispatch(o.error)))
            && (!HasMutation(t.log) ==> o.Failed? && o.error != MutationRejected)
            && (o.Accepted? ==> o.task == t.kind.osd && Destructive(t.kind.action))
  {
    ReachableInv(s);
    assert TaskInv(s.shared, i, s.tasks[i]);
  }

  /** Every client call stays within its requests and logins. */
  lemma CallsAreBounded(s: State, i: nat)
    requires Reachable(s) && i < |s.tasks|
    ensures s.tasks[i].requests <= 2 && s.tasks[i].logins <= 2
    ensures s.tasks[i].pc.InFlight? && s.tasks[i].pc.op.Mutation? ==> s.tasks[i].requests == 1 && s.tasks[i].logins <= 1
  {
    ReachableInv(s);
    assert TaskInv(s.shared, i, s.tasks[i]);
  }

  /** An in-flight query goes on to a second attempt exactly when it is in its first and the reply is a 401 or
    403; a second request is always the second attempt. */
  lemma RetryIff(s: State, i: nat, reply: Reply)
    requires Reachable(s) && i < |s.tasks| && s.tasks[i].pc.InFlight? && s.tasks[i].pc.op.Query?
    ensures Apply(s, Move(i, Replied(reply))).Some?
    ensures Apply(s, Move(i, Replied(reply))).value.tasks[i].pc.WantClear?
       <==> s.tasks[i].pc.attempt == 1 && reply.Response? && (reply.status == 401 || reply.status == 403)
    ensures s.tasks[i].requests == s.tasks[i].pc.attempt
  {
    ReachableInv(s);
    assert TaskInv(s.shared, i, s.tasks[i]);
  }

  /** A reply that refuses the token. */
  predicate Refuses(e: Event) {
    e.Replied? && e.reply.Response? && (e.reply.status == 401 || e.reply.status == 403)
  }

  /** A query that is in its second attempt or on the way to it, or has sent its second request. */
  predicate SecondTry(t: Task) {
    t.requests == 2 || t.pc.WantClear? || t.pc.HoldClear? || (HasOperation(t.pc) && t.pc.attempt == 2)
  }

  lemma SecondTryInFlight(g: Shared, me: nat, t: Task, e: Event)
    requires TaskInv(g, me, t) && t.pc.InFlight? && FlightStep(g, t, e).Moved?
    ensures SecondTry(FlightStep(g, t, e).task) ==>
            SecondTry(t) || (Refuses(e) && t.pc.op.Query? && t.pc.attempt == 1)
  {
  }

  lemma SecondTryLocking(g: Shared, me: nat, t: Task, e: Event)
    requires TaskInv(g, me, t) && (t.pc.WantLock? || t.pc.HoldLock?) && LockStep(me, g, t, e).Moved?
    ensures SecondTry(LockStep(me, g, t, e).task) ==> SecondTry(t)
  {
  }

  lemma SecondTryLeaving(g: Shared, t: Task, pc: Pc)
    requires LeaveStep(g, t, pc).Moved? && (pc.Ended? || pc.Gone?)
    ensures SecondTry(LeaveStep(g, t, pc).task) ==> SecondTry(t)
  {
  }

  lemma SecondTryElsewhere(g: Shared, me: nat, t: Task, e: Event)
    requires TaskInv(g, me, t) && TaskStep(me, g, t, e).Moved? && !e.Deadline? && !e.Drop?
    requires !t.pc.InFlight? && !t.pc.WantLock? && !t.pc.HoldLock?
    ensures SecondTry(TaskStep(me, g, t, e).task) ==> SecondTry(t) && !e.NextQuery?
  {
  }

  /** The only way into a second attempt is a refused first request of a query; a new client call leaves it. */
  lemma SecondTryStep(g: Shared, me: nat, t: Task, e: Event)
    requires TaskInv(g, me, t) && TaskStep(me, g, t, e).Moved?
    ensures SecondTry(TaskStep(me, g, t, e).task) ==>
              && !e.NextQuery?
              && (SecondTry(t) || (Refuses(e) && t.pc.InFlight? && t.pc.op.Query? && t.pc.attempt == 1))
  {
    if e.Deadline? {
      SecondTryLeaving(g, t, Ended(Failed(DeadlineError(t))));
    } else if e.Drop? {
      SecondTryLeaving(g, t, Gone);
    } else if t.pc.InFlight? {
      SecondTryInFlight(g, me, t, e);
    } else if t.pc.WantLock? || t.pc.HoldLock? {
      SecondTryLocking(g, me, t, e);
    } else {
      SecondTryElsewhere(g, me, t, e);
    }
  }

  /** Some refusal reached task `i`, and it began no new client call after that. */
  predicate RefusedInThisCall(moves: seq<Move>, i: nat) {
    exists k :: 0 <= k < |moves| && moves[k].who == i && Refuses(moves[k].what) && SameCall(moves[k..], i)
  }

  predicate SameCall(moves: seq<Move>, i: nat) {
    forall j :: 0 <= j < |moves| && moves[j].who == i ==> !moves[j].what.NextQuery?
  }

  lemma RefusedEarlier(moves: seq<Move>, i: nat)
    requires moves != [] && RefusedInThisCall(moves[1..], i)
    ensures RefusedInThisCall(moves, i)
  {
    var rest := moves[1..];
    var k :| 0 <= k < |rest| && rest[k].who == i && Refuses(rest[k].what) && SameCall(rest[k..], i);
    assert rest[k] == moves[k + 1] && rest[k..] == moves[k + 1..];
  }

  lemma SameCallFrom(moves: seq<Move>, i: nat)
    requires moves != [] && SameCall(moves[1..], i) && (moves[0].who == i ==> !moves[0].what.NextQuery?)
    ensures SameCall(moves, i)
  {
    assert forall j :: 1 <= j < |moves| ==> moves[j] == moves[1..][j - 1];
  }

  lemma {:induction false} SecondTryWasRefused(s: State, moves: seq<Move>, i: nat)
    requires Inv(s) && Exec(s, moves).Some? && i < |s.tasks|
    ensures i < |Exec(s, moves).value.tasks|
    ensures SecondTry(Exec(s, moves).value.tasks[i]) ==>
            RefusedInThisCall(moves, i) || (SecondTry(s.tasks[i]) && SameCall(moves, i))
    decreases moves
  {
    if moves != [] {
      var m, s1 := moves[0], Apply(s, moves[0]).value;
      ApplyIsGood(s, m);
      assert TaskInv(s.shared, m.who, s.tasks[m.who]);
      SecondTryStep(s.shared, m.who, s.tasks[m.who], m.what);
      SecondTryWasRefused(s1, moves[1..], i);
      if RefusedInThisCall(moves[1..], i) {
        RefusedEarlier(moves, i);
      } else if SecondTry(s1.tasks[i]) && SameCall(moves[1..], i) {
        SameCallFrom(moves, i);
        assert moves[0..] == moves;
      }
    }
  }

  /** In every run a client call sends a second request only after a reply in this call refused its first. */
  lemma SecondRequestWasRefused(kinds: seq<Kind>, moves: seq<Move>, i: nat)
    requires Exec(Start(kinds), moves).Some? && i < |kinds|
    ensures i < |Exec(Start(kinds), moves).value.tasks|
    ensures Exec(Start(kinds), moves).value.tasks[i].requests == 2 ==> RefusedInThisCall(moves, i)
  {
    StartInv(kinds);
    SecondTryWasRefused(Start(kinds), moves, i);
  }

  // ---------- All commands of one task ----------

  function Occurrences(log: seq<Note>, note: Note): nat {
    multiset(log)[note]
  }

  predicate InQuery(pc: Pc) {
    (HasOperation(pc) && pc.op.Query?) || pc.WantClear? || pc.HoldClear?
  }

  /** The whole log of an execution, from its preflight to its end. */
  predicate ExecutionCounts(t: Task) {
    var queries, logins := Occurrences(t.log, QuerySent), Occurrences(t.log, LoginSent);
    && queries <= 2 && logins <= 3
    && (t.pc.Idle? ==> queries == 0 && logins == 0)
    && (InQuery(t.pc) ==> queries == t.requests && logins == t.logins)
    && (HasOperation(t.pc) && t.pc.op.Mutation? ==> logins <= 2 + t.logins)
  }

  /** The whole log of a reading, over all its client calls. */
  predicate ReadingCounts(t: Task) {
    var queries, logins := Occurrences(t.log, QuerySent), Occurrences(t.log, LoginSent);
    && t.calls <= MAX_CALLS && queries <= 2 * t.calls && logins <= 2 * t.calls
    && (InQuery(t.pc) ==> queries + 2 <= 2 * t.calls + t.requests && logins + 2 <= 2 * t.calls + t.logins)
    && (t.pc.Idle? ==> t.calls == 0)
  }

  predicate LogCounts(t: Task) {
    if t.kind.Executing? then ExecutionCounts(t) else ReadingCounts(t)
  }

  lemma OccurrencesGrow(log: seq<Note>, note: Note, added: Note)
    ensures Occurrences(log + [added], note) == Occurrences(log, note) + if added == note then 1 else 0
  {
  }

  lemma LogCountsLocking(g: Shared, me: nat, t: Task, e: Event)
    requires TaskInv(g, me, t) && LogCounts(t) && LockStep(me, g, t, e).Moved?
    ensures LogCounts(LockStep(me, g, t, e).task)
  {
    OccurrencesGrow(t.log, QuerySent, LoginSent);
    OccurrencesGrow(t.log, LoginSent, LoginSent);
  }

  lemma LogCountsRequest(g: Shared, me: nat, t: Task, e: Event)
    requires TaskInv(g, me, t) && LogCounts(t) && RequestStep(g, t, e).Moved?
    ensures LogCounts(RequestStep(g, t, e).task)
  {
    if t.pc.Dispatch? {
      OccurrencesGrow(t.log, QuerySent, RequestNote(t));
      OccurrencesGrow(t.log, LoginSent, RequestNote(t));
    }
  }

  lemma LogCountsAnswer(g: Shared, me: nat, t: Task, body: Json.Value)
    requires TaskInv(g, me, t) && LogCounts(t) && t.pc.InFlight? && t.pc.op.Query?
    ensures LogCounts(AnswerStep(t, body).(permit := false))
  {
    if t.kind.Executing? {
      OccurrencesGrow(t.log, QuerySent, SafeReported(t.kind.osd));
      OccurrencesGrow(t.log, LoginSent, SafeReported(t.kind.osd));
    }
  }

  lemma LogCountsReply(g: Shared, me: nat, t: Task, sent: Sent)
    requires TaskInv(g, me, t) && LogCounts(t) && t.pc.InFlight? && ReplyStep(g, t, sent).Moved?
    ensures LogCounts(ReplyStep(g, t, sent).task)
  {
    if sent.Answered? && t.pc.op.Query? {
      LogCountsAnswer(g, me, t, sent.body);
    }
  }

  lemma LogCountsFlight(g: Shared, me: nat, t: Task, e: Event)
    requires TaskInv(g, me, t) && LogCounts(t) && FlightStep(g, t, e).Moved?
    ensures LogCounts(FlightStep(g, t, e).task)
  {
    if e.Replied? {
      LogCountsReply(g, me, t, Classify(t.pc.op, e.reply));
    }
  }

  lemma LogCountsEdge(g: Shared, me: nat, t: Task, e: Event)
    requires TaskInv(g, me, t) && LogCounts(t) && EdgeStep(t, e).Some?
    ensures LogCounts(EdgeStep(t, e).value)
  {
  }

  lemma LogCountsLogin(g: Shared, me: nat, t: Task, e: Event)
    requires TaskInv(g, me, t) && LogCounts(t) && LoginStep(g, t, e).Moved?
    ensures LogCounts(LoginStep(g, t, e).task)
  {
  }

  lemma LogCountsClear(g: Shared, me: nat, t: Task, e: Event)
    requires TaskInv(g, me, t) && LogCounts(t) && ClearStep(me, g, t, e).Moved?
    ensures LogCounts(ClearStep(me, g, t, e).task)
  {
  }

  lemma LogCountsStep(g: Shared, me: nat, t: Task, e: Event)
    requires TaskInv(g, me, t) && LogCounts(t) && TaskStep(me, g, t, e).Moved?
    ensures LogCounts(TaskStep(me, g, t, e).task)
  {
    if !e.Deadline? && !e.Drop? {
      if t.pc.WantLock? || t.pc.HoldLock? {
        LogCountsLocking(g, me, t, e);
      } else if t.pc.ToSend? || t.pc.Dispatch? {
        LogCountsRequest(g, me, t, e);
      } else if t.pc.InFlight? {
        LogCountsFlight(g, me, t, e);
      } else if t.pc.Login? || t.pc.Store? {
        LogCountsLogin(g, me, t, e);
      } else if t.pc.WantClear? || t.pc.HoldClear? {
        LogCountsClear(g, me, t, e);
      } else {
        LogCountsEdge(g, me, t, e);
      }
    }
  }

  predicate AllLogsCounted(s: State) {
    forall i :: 0 <= i < |s.tasks| ==> LogCounts(s.tasks[i])
  }

  lemma {:induction false} ExecCountsLogs(s: State, moves: seq<Move>)
    requires Inv(s) && AllLogsCounted(s) && Exec(s, moves).Some?
    ensures AllLogsCounted(Exec(s, moves).value)
    decreases moves
  {
    if moves != [] {
      var who := moves[0].who;
      ApplyIsGood(s, moves[0]);
      assert TaskInv(s.shared, who, s.tasks[who]);
      LogCountsStep(s.shared, who, s.tasks[who], moves[0].what);
      ExecCountsLogs(Apply(s, moves[0]).value, moves[1..]);
    }
  }

  lemma ReachableCounts(s: State)
    requires Reachable(s)
    ensures AllLogsCounted(s)
  {
    var kinds, moves :| Exec(Start(kinds), moves) == Some(s);
    StartInv(kinds);
    ExecCountsLogs(Start(kinds), moves);
  }

  /** Over its whole life an execution sends at most two queries (its preflight) and three logins. */
  lemma ExecutionsAreBounded(s: State, i: nat)
    requires Reachable(s) && i < |s.tasks| && s.tasks[i].kind.Executing?
    ensures Occurrences(s.tasks[i].log, QuerySent) <= 2 && Occurrences(s.tasks[i].log, LoginSent) <= 3
  {
    ReachableCounts(s);
  }

  /** Over its whole life a reading sends at most twelve queries and twelve logins, two for each client call. */
  lemma ReadingsAreBounded(s: State, i: nat)
    requires Reachable(s) && i < |s.tasks| && s.tasks[i].kind.Reading?
    ensures s.tasks[i].calls <= 6
    ensures Occurrences(s.tasks[i].log, QuerySent) <= 2 * s.tasks[i].calls
    ensures Occurrences(s.tasks[i].log, LoginSent) <= 2 * s.tasks[i].calls
  {
    ReachableCounts(s);
  }

  // ---------- The token cell ----------

  /** Logins stored are clears plus the cached one, and whatever the number of tasks a refused
    token costs at most one new login. */
  lemma LoginsAreAccountedFor(s: State)
    requires Reachable(s)
    ensures s.shared.stores == s.shared.clears + |Cached(s.shared.cell)|
    ensures s.shared.stores <= |s.shared.refused| + 1
  {
    ReachableInv(s);
    var g := s.shared;
    assert g.stored == g.cleared + Cached(g.cell) && g.cleared !! Cached(g.cell);
    SubsetSize(g.cleared, g.refused);
  }

  lemma {:induction false} SubsetSize(a: set<Token>, b: set<Token>)
    requires a <= b
    ensures |a| <= |b|
  {
    if a != {} {
      var x :| x in a;
      SubsetSize(a - {x}, b - {x});
    }
  }

  /** A token leaves the cell only when a query saw it refused. A refusal of another token
    leaves the cell alone, and that other token is the older one. */
  lemma NewerTokenSurvives(s: State, m: Move)
    requires Reachable(s) && Apply(s, m).Some? && s.shared.cell.Some?
    ensures var s', token := Apply(s, m).value, s.shared.cell.value;
            && (s'.shared.cell == s.shared.cell
                || (s'.shared.cell.None? && s.tasks[m.who].pc == HoldClear(token) && token in s.shared.refused))
            && (s.tasks[m.who].pc.HoldClear? && s.tasks[m.who].pc.token != token ==>
                  s'.shared.cell == s.shared.cell && s.tasks[m.who].pc.token < token)
  {
    ReachableInv(s);
    assert TaskInv(s.shared, m.who, s.tasks[m.who]);
  }

  // ---------- Permits and the lock ----------

  /** Permits are conserved, and no task waits for the lock with a permit in hand. */
  lemma PermitsAreConserved(s: State)
    requires Reachable(s)
    ensures s.shared.free + Tally.Sum(s.tasks, PermitOf) == PERMITS
    ensures forall i :: 0 <= i < |s.tasks| && (s.tasks[i].pc.WantLock? || s.tasks[i].pc.WantClear?) ==>
      !s.tasks[i].permit && !s.tasks[i].lock
  {
    ReachableInv(s);
  }

  predicate Over(pc: Pc) {
    pc.Ended? || pc.Gone?
  }

  predicate IsForced(e: Event) {
    e.Deadline? || e.RequestTimeout? || e.LoginTimeout? || e.Drop?
  }

  /** A step of the task itself, or an answer it waits for. */
  function NextEvent(pc: Pc): Event {
    match pc
    case Idle => Begin
    case WantLock(_, _) => TakeLock
    case HoldLock(_, _) => Look
    case Login(_, _) => LoginReplied(NoReply)
    case Store(_, _, _) => StoreToken
    case ToSend(_, _, _) => Prepare
    case Dispatch(_, _, _) => SendNow
    case InFlight(_, _, _) => Replied(NoReply)
    case WantClear(_) => TakeLock
    case HoldClear(_) => ClearToken
    case HaveAnswer => Finish(None)
    case _ => Drop
  }

  lemma OwnStep(s: State, i: nat)
    requires Inv(s) && i < |s.tasks| && !Over(s.tasks[i].pc)
    requires (s.tasks[i].pc.WantLock? || s.tasks[i].pc.WantClear?) ==> s.shared.lock == Unlocked
    ensures Apply(s, Move(i, NextEvent(s.tasks[i].pc))).Some? && !IsForced(NextEvent(s.tasks[i].pc))
  {
    assert TaskInv(s.shared, i, s.tasks[i]);
  }

  /** No deadlock: while a task is unfinished, it or the task that holds the lock can step
    without waiting for a deadline or a disappearance. */
  lemma NoDeadlock(s: State, i: nat) returns (m: Move)
    requires Reachable(s) && i < |s.tasks| && !Over(s.tasks[i].pc)
    ensures Apply(s, m).Some? && !IsForced(m.what)
    ensures m.who == i || s.shared.lock == HeldBy(m.who)
  {
    ReachableInv(s);
    var who := i;
    if (s.tasks[i].pc.WantLock? || s.tasks[i].pc.WantClear?) && s.shared.lock.HeldBy? {
      who := s.shared.lock.who;
      assert TaskInv(s.shared, who, s.tasks[who]);
    }
    OwnStep(s, who);
    m := Move(who, NextEvent(s.tasks[who].pc));
  }
}
