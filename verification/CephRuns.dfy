/** Runs of the Ceph client: a query that is sent twice, and a refused one that is not. */
module CephRuns {
  import opened Wrappers
  import opened CephReplies
  import opened CephProtocol
  import opened CephProofs
  import opened CephCauses
  import BoundedRead
  import Json

  lemma {:induction false} ExecSnoc(s: State, moves: seq<Move>, m: Move)
    requires Exec(s, moves).Some?
    ensures Exec(s, moves + [m]) == Apply(Exec(s, moves).value, m)
    decreases moves
  {
    if moves == [] {
      assert moves + [m] == [m];
    } else {
      assert (moves + [m])[1..] == moves[1..] + [m];
      ExecSnoc(Apply(s, moves[0]).value, moves[1..], m);
    }
  }

  /** One step of the only task. */
  lemma Advance(g: Shared, t: Task, e: Event, g': Shared, t': Task)
    requires Reachable(State(g, [t])) && TaskStep(0, g, t, e) == Moved(g', t')
    ensures Reachable(State(g', [t']))
  {
    var kinds, moves :| Exec(Start(kinds), moves) == Some(State(g, [t]));
    ExecSnoc(Start(kinds), moves, Move(0, e));
    assert [t][0 := t'] == [t'];
    assert Exec(Start(kinds), moves + [Move(0, e)]) == Some(State(g', [t']));
  }

  function Reader(pc: Pc, requests: nat, logins: nat, log: seq<Note>): Task {
    Task(Reading, pc, HoldsPermit(pc), HoldsLock(pc), false, 1, requests, logins, log)
  }

  /** The client after `n` logins: token `n - 1` is cached, all earlier ones were refused and cleared. */
  function LoggedIn(n: nat, earlier: set<Token>): Shared
    requires n > 0
  {
    Shared(Some(n - 1), Unlocked, PERMITS, n, n, n - 1, earlier + {n - 1}, earlier, earlier)
  }

  function NoToken(n: nat, earlier: set<Token>): Shared {
    Shared(None, Unlocked, PERMITS, n, n, n, earlier, earlier, earlier)
  }

  lemma Stores(n: nat, earlier: set<Token>, attempt: nat, requests: nat, logins: nat, log: seq<Note>)
    requires Reachable(State(NoToken(n, earlier).(lock := HeldBy(0), issued := n + 1),
                             [Reader(Store(Query, attempt, n), requests, logins, log)]))
    ensures Reachable(State(LoggedIn(n + 1, earlier), [Reader(ToSend(Query, attempt, n), requests, logins, log)]))
  {
    Advance(NoToken(n, earlier).(lock := HeldBy(0), issued := n + 1),
            Reader(Store(Query, attempt, n), requests, logins, log),
            StoreToken, LoggedIn(n + 1, earlier), Reader(ToSend(Query, attempt, n), requests, logins, log));
  }

  /** A reply to a login that shows a token. */
  const GOOD_LOGIN: Reply :=
    Response(201, None, [BoundedRead.Chunk("{}")], Some(Json.Object(map["token" := Json.Text("t")])))

  lemma GoodLoginGrants()
    ensures LoginFailure(GOOD_LOGIN) == None
  {
    LoginTable(GOOD_LOGIN);
    assert [BoundedRead.Chunk("{}")][1..] == [];
    assert BoundedRead.Received([BoundedRead.Chunk("{}")]) == "{}" + "" == "{}";
  }

  lemma Logs(n: nat, earlier: set<Token>, attempt: nat, requests: nat, logins: nat, log: seq<Note>)
    requires Reachable(State(NoToken(n, earlier).(lock := HeldBy(0), free := PERMITS - 1),
                             [Reader(Login(Query, attempt), requests, logins, log)]))
    ensures Reachable(State(NoToken(n, earlier).(lock := HeldBy(0), issued := n + 1),
                            [Reader(Store(Query, attempt, n), requests, logins, log)]))
  {
    GoodLoginGrants();
    Advance(NoToken(n, earlier).(lock := HeldBy(0), free := PERMITS - 1),
            Reader(Login(Query, attempt), requests, logins, log), LoginReplied(GOOD_LOGIN),
            NoToken(n, earlier).(lock := HeldBy(0), issued := n + 1),
            Reader(Store(Query, attempt, n), requests, logins, log));
  }

  /** Without a cached token a query takes the lock, logs in and stores the token. */
  lemma LogsIn(n: nat, earlier: set<Token>, attempt: nat, requests: nat, logins: nat, log: seq<Note>)
    requires Reachable(State(NoToken(n, earlier), [Reader(WantLock(Query, attempt), requests, logins, log)]))
    ensures Reachable(State(LoggedIn(n + 1, earlier),
                            [Reader(ToSend(Query, attempt, n), requests, logins + 1, log + [LoginSent])]))
  {
    var g := NoToken(n, earlier);
    var t := Reader(WantLock(Query, attempt), requests, logins, log);
    var t1 := Reader(HoldLock(Query, attempt), requests, logins, log);
    var t2 := Reader(Login(Query, attempt), requests, logins + 1, log + [LoginSent]);
    var g1 := g.(lock := HeldBy(0));
    Advance(g, t, TakeLock, g1, t1);
    Advance(g1, t1, Look, g1.(free := PERMITS - 1), t2);
    Logs(n, earlier, attempt, requests, logins + 1, log + [LoginSent]);
    Stores(n, earlier, attempt, requests, logins + 1, log + [LoginSent]);
  }

  /** With a permit the query is sent. */
  lemma Sends(g: Shared, attempt: nat, token: Token, requests: nat, logins: nat, log: seq<Note>)
    requires g.free == PERMITS
    requires Reachable(State(g, [Reader(ToSend(Query, attempt, token), requests, logins, log)]))
    ensures Reachable(State(g.(free := PERMITS - 1),
                            [Reader(InFlight(Query, attempt, token), requests + 1, logins, log + [QuerySent])]))
  {
    var t := Reader(ToSend(Query, attempt, token), requests, logins, log);
    var t1 := Reader(Dispatch(Query, attempt, token), requests, logins, log);
    var g1 := g.(free := PERMITS - 1);
    Advance(g, t, Prepare, g1, t1);
    Advance(g1, t1, SendNow, g1, Reader(InFlight(Query, attempt, token), requests + 1, logins, log + [QuerySent]));
  }

  lemma Clears(n: nat, earlier: set<Token>, requests: nat, logins: nat, log: seq<Note>)
    requires n > 0
    requires Reachable(State(LoggedIn(n, earlier).(lock := HeldBy(0), refused := earlier + {n - 1}),
                             [Reader(HoldClear(n - 1), requests, logins, log)]))
    ensures Reachable(State(NoToken(n, earlier + {n - 1}), [Reader(WantLock(Query, 2), requests, logins, log)]))
  {
    Advance(LoggedIn(n, earlier).(lock := HeldBy(0), refused := earlier + {n - 1}),
            Reader(HoldClear(n - 1), requests, logins, log),
            ClearToken, NoToken(n, earlier + {n - 1}), Reader(WantLock(Query, 2), requests, logins, log));
  }

  /** A 401 on the cached token clears it and starts the second attempt. */
  lemma IsRefused(n: nat, earlier: set<Token>, requests: nat, logins: nat, log: seq<Note>)
    requires n > 0
    requires Reachable(State(LoggedIn(n, earlier).(free := PERMITS - 1),
                             [Reader(InFlight(Query, 1, n - 1), requests, logins, log)]))
    ensures Reachable(State(NoToken(n, earlier + {n - 1}), [Reader(WantLock(Query, 2), requests, logins, log)]))
  {
    var g := LoggedIn(n, earlier).(free := PERMITS - 1);
    var t := Reader(InFlight(Query, 1, n - 1), requests, logins, log);
    var t1 := Reader(WantClear(n - 1), requests, logins, log);
    var t2 := Reader(HoldClear(n - 1), requests, logins, log);
    var g1 := g.(free := PERMITS, refused := earlier + {n - 1});
    Advance(g, t, Replied(Response(401, None, [], None)), g1, t1);
    Advance(g1, t1, TakeLock, g1.(lock := HeldBy(0)), t2);
    Clears(n, earlier, requests, logins, log);
  }

  lemma FirstBegins()
    ensures Reachable(State(NoToken(0, {}), [Reader(WantLock(Query, 1), 0, 0, [])]))
  {
    var t0 := NewTask(Reading);
    assert Start([Reading]) == State(NoToken(0, {}), [t0]);
    assert Exec(Start([Reading]), []) == Some(Start([Reading]));
    Advance(NoToken(0, {}), t0, Begin, NoToken(0, {}), Reader(WantLock(Query, 1), 0, 0, []));
  }

  lemma FirstIsSent()
    ensures Reachable(State(LoggedIn(1, {}).(free := PERMITS - 1),
                            [Reader(InFlight(Query, 1, 0), 1, 1, [] + [LoginSent] + [QuerySent])]))
  {
    FirstBegins();
    LogsIn(0, {}, 1, 0, 0, []);
    Sends(LoggedIn(1, {}), 1, 0, 0, 1, [] + [LoginSent]);
  }

  lemma FirstIsRefused()
    ensures Reachable(State(NoToken(1, {} + {0}), [Reader(WantLock(Query, 2), 1, 1, [] + [LoginSent] + [QuerySent])]))
  {
    FirstIsSent();
    IsRefused(1, {}, 1, 1, [] + [LoginSent] + [QuerySent]);
  }

  /** One query can reach the server twice, each time after a login of its own. */
  lemma QueriesCanBeSentTwice() returns (s: State)
    ensures Reachable(s) && |s.tasks| == 1 && s.tasks[0].kind == Reading
    ensures s.tasks[0].log == [LoginSent, QuerySent, LoginSent, QuerySent] && s.tasks[0].requests == 2
  {
    var log := [] + [LoginSent] + [QuerySent] + [LoginSent];
    FirstIsRefused();
    LogsIn(1, {} + {0}, 2, 1, 1, [] + [LoginSent] + [QuerySent]);
    Sends(LoggedIn(2, {} + {0}), 2, 1, 1, 2, log);
    s := State(LoggedIn(2, {} + {0}).(free := PERMITS - 1), [Reader(InFlight(Query, 2, 1), 2, 2, log + [QuerySent])]);
  }

  /** A refused query need not be sent again: its deadline can strike first. */
  lemma RefusedWithoutASecondRequest() returns (s: State)
    ensures Reachable(s) && |s.tasks| == 1 && 0 in s.shared.refused
    ensures s.tasks[0].pc == Ended(Failed(Timeout)) && s.tasks[0].log == [LoginSent, QuerySent]
  {
    var log := [] + [LoginSent] + [QuerySent];
    FirstIsRefused();
    Advance(NoToken(1, {} + {0}), Reader(WantLock(Query, 2), 1, 1, log), Deadline,
            NoToken(1, {} + {0}), Reader(Ended(Failed(Timeout)), 1, 1, log));
    s := State(NoToken(1, {} + {0}), [Reader(Ended(Failed(Timeout)), 1, 1, log)]);
  }

  // ---------- Executions that succeed ----------

  /** A state with a single task. */
  datatype Point = Point(g: Shared, t: Task)

  predicate Leads(from: Point, e: Event, to: Point) {
    TaskStep(0, from.g, from.t, e) == Moved(to.g, to.t)
  }

  predicate Linked(path: seq<Point>, events: seq<Event>) {
    |path| == |events| + 1 && forall k :: 0 <= k < |events| ==> Leads(path[k], events[k], path[k + 1])
  }

  lemma {:induction false} PathIsRun(path: seq<Point>, events: seq<Event>)
    requires Linked(path, events) && Reachable(State(path[0].g, [path[0].t]))
    ensures Reachable(State(path[|events|].g, [path[|events|].t]))
    decreases |events|
  {
    if events != [] {
      assert Leads(path[0], events[0], path[1]);
      Advance(path[0].g, path[0].t, events[0], path[1].g, path[1].t);
      assert Linked(path[1..], events[1..]) by {
        assert forall k :: 0 <= k < |events[1..]| ==> events[1..][k] == events[k + 1] && path[1..][k] == path[k + 1];
      }
      PathIsRun(path[1..], events[1..]);
    }
  }

  function Doing(k: Kind, pc: Pc, logins: nat, log: seq<Note>): Task {
    Task(k, pc, HoldsPermit(pc), HoldsLock(pc), false, 1, 0, logins, log)
  }

  /** From the start to the first request. */
  function FirstPath(k: Kind): seq<Point> {
    var op, g, h := FirstOperation(k), NoToken(0, {}), NoToken(0, {}).(lock := HeldBy(0));
    [Point(g, NewTask(k)), Point(g, Doing(k, WantLock(op, 1), 0, [])), Point(h, Doing(k, HoldLock(op, 1), 0, [])),
     Point(h.(free := 3), Doing(k, Login(op, 1), 1, [LoginSent])),
     Point(h.(issued := 1), Doing(k, Store(op, 1, 0), 1, [LoginSent])),
     Point(LoggedIn(1, {}), Doing(k, ToSend(op, 1, 0), 1, [LoginSent])),
     Point(LoggedIn(1, {}).(free := 3), Doing(k, Dispatch(op, 1, 0), 1, [LoginSent]))]
  }

  function FirstEvents(): seq<Event> {
    [Begin, TakeLock, Look, LoginReplied(GOOD_LOGIN), StoreToken, Prepare]
  }

  lemma FirstLocks(k: Kind, n: nat)
    requires n < 3
    ensures Leads(FirstPath(k)[n], FirstEvents()[n], FirstPath(k)[n + 1])
  {
    assert [] + [LoginSent] == [LoginSent];
  }

  lemma FirstStores(k: Kind, n: nat)
    requires 3 <= n < 6
    ensures Leads(FirstPath(k)[n], FirstEvents()[n], FirstPath(k)[n + 1])
  {
    GoodLoginGrants();
    assert LoggedIn(1, {}) == NoToken(0, {}).(cell := Some(0), issued := 1, stores := 1, stored := {0});
  }

  lemma FirstPathLinked(k: Kind)
    ensures Linked(FirstPath(k), FirstEvents())
  {
    forall n | 0 <= n < 6
      ensures Leads(FirstPath(k)[n], FirstEvents()[n], FirstPath(k)[n + 1])
    {
      if n < 3 {
        FirstLocks(k, n);
      } else {
        FirstStores(k, n);
      }
    }
  }

  lemma FirstRequestIsReached(k: Kind)
    ensures Reachable(State(LoggedIn(1, {}).(free := 3), [Doing(k, Dispatch(FirstOperation(k), 1, 0), 1, [LoginSent])]))
  {
    assert Start([k]) == State(NoToken(0, {}), [NewTask(k)]);
    assert Exec(Start([k]), []) == Some(Start([k]));
    FirstPathLinked(k);
    PathIsRun(FirstPath(k), FirstEvents());
  }

  /** The reply with this status and body, received in one piece. */
  function WholeReply(status: nat, bytes: string, body: Json.Value): Reply {
    Response(status, None, [BoundedRead.Chunk(bytes)], Some(body))
  }

  lemma WholeReplyDelivers(status: nat, bytes: string, body: Json.Value)
    requires 200 <= status <= 299 && 0 < |bytes| <= 4194304
    ensures forall op :: Classify(op, WholeReply(status, bytes, body)) == Answered(status, body)
  {
    assert [BoundedRead.Chunk(bytes)][1..] == [];
    assert BoundedRead.Received([BoundedRead.Chunk(bytes)]) == bytes + "" == bytes;
  }

  /** From a preflight to the mutation it guards. */
  function GuardedPath(k: Kind): seq<Point>
    requires k.Executing?
  {
    var g := LoggedIn(1, {});
    var log := [LoginSent, QuerySent, SafeReported(k.osd)];
    [Point(g.(free := 3), Doing(k, InFlight(Query, 1, 0), 1, [LoginSent, QuerySent]).(requests := 1)),
     Point(g, Doing(k, WantLock(Mutation, 1), 0, log)),
     Point(g.(lock := HeldBy(0)), Doing(k, HoldLock(Mutation, 1), 0, log)),
     Point(g, Doing(k, ToSend(Mutation, 1, 0), 0, log)),
     Point(g.(free := 3), Doing(k, Dispatch(Mutation, 1, 0), 0, log))]
  }

  lemma SafeReplyLeadsOn(k: Kind, bytes: string, body: Json.Value)
    requires NeedsPreflight(k) && 0 < |bytes| <= 4194304 && SaysSafe(body, true) && WellFormed(body)
    ensures Leads(GuardedPath(k)[0], Replied(WholeReply(200, bytes, body)), GuardedPath(k)[1])
  {
    WholeReplyDelivers(200, bytes, body);
    ReportsSafeIff(body, true);
  }

  lemma GuardedPathLinked(k: Kind)
    requires NeedsPreflight(k)
    ensures Linked(GuardedPath(k)[1..], [TakeLock, Look, Prepare])
  {
  }

  /** The mutation of a destroy or purge is on its way, after the log `[LoginSent, QuerySent, SafeReported]`. */
  lemma GuardedMutationIsReached(k: Kind, bytes: string, body: Json.Value)
    requires NeedsPreflight(k) && 0 < |bytes| <= 4194304 && SaysSafe(body, true) && WellFormed(body)
    ensures Reachable(State(LoggedIn(1, {}).(free := 3), [GuardedPath(k)[4].t]))
  {
    FirstRequestIsReached(k);
    var from := Point(LoggedIn(1, {}).(free := 3), Doing(k, Dispatch(Query, 1, 0), 1, [LoginSent]));
    var path := GuardedPath(k);
    Advance(from.g, from.t, SendNow, path[0].g, path[0].t);
    SafeReplyLeadsOn(k, bytes, body);
    PathIsRun([path[0], path[1]], [Replied(WholeReply(200, bytes, body))]);
    GuardedPathLinked(k);
    PathIsRun(path[1..], [TakeLock, Look, Prepare]);
  }

  lemma MutationEnds(k: Kind, t: Task, status: nat, bytes: string, body: Json.Value) returns (s: State)
    requires k.Executing? && 200 <= status <= 299 && 0 < |bytes| <= 4194304
    requires t.kind == k && t.pc == Dispatch(Mutation, 1, 0) && t.permit
    requires Reachable(State(LoggedIn(1, {}).(free := 3), [t]))
    ensures Reachable(s) && |s.tasks| == 1 && s.shared.free == 4
    ensures s.tasks[0].pc == Ended(MutationOutcome(k.action, k.osd, status, body))
    ensures s.tasks[0].log == t.log + [MutationSent(k.action, k.osd)]
  {
    var g := LoggedIn(1, {});
    var t1 := t.(pc := InFlight(Mutation, 1, 0), dispatched := true, requests := t.requests + 1,
                 log := t.log + [MutationSent(k.action, k.osd)]);
    Advance(g.(free := 3), t, SendNow, g.(free := 3), t1);
    WholeReplyDelivers(status, bytes, body);
    var t2 := t1.(pc := Ended(MutationOutcome(k.action, k.osd, status, body)), permit := false);
    Advance(g.(free := 3), t1, Replied(WholeReply(status, bytes, body)), g, t2);
    s := State(g, [t2]);
  }

  /** Every execution can be carried out: once its preflight, if it needs one, says that the OSD is safe, its mutation
    is sent, and a 200 completes it. */
  lemma ExecutionCanComplete(action: Action, osd: nat, bytes: string, preflight: Json.Value, body: Json.Value)
      returns (s: State)
    requires 0 < |bytes| <= 4194304 && SaysSafe(preflight, true) && WellFormed(preflight)
    ensures Reachable(s) && |s.tasks| == 1 && s.shared.free == 4
    ensures s.tasks[0].pc == Ended(Completed)
    ensures s.tasks[0].log ==
        if action == Destroy || action == Purge
        then [LoginSent, QuerySent, SafeReported(osd), MutationSent(action, osd)]
        else [LoginSent, MutationSent(action, osd)]
  {
    var k := Executing(action, osd);
    if NeedsPreflight(k) {
      GuardedMutationIsReached(k, bytes, preflight);
      s := MutationEnds(k, GuardedPath(k)[4].t, 200, bytes, body);
    } else {
      FirstRequestIsReached(k);
      s := MutationEnds(k, Doing(k, Dispatch(Mutation, 1, 0), 1, [LoginSent]), 200, bytes, body);
    }
  }

  /** A destroy or purge can also be accepted, with the task that deletes its own OSD. */
  lemma DestructionCanBeAccepted(action: Action, osd: nat, bytes: string, preflight: Json.Value, body: Json.Value)
      returns (s: State)
    requires action == Destroy || action == Purge
    requires 0 < |bytes| <= 4194304 && SaysSafe(preflight, true) && WellFormed(preflight) && Deletes(body, osd)
    ensures Reachable(s) && |s.tasks| == 1 && s.tasks[0].pc == Ended(Accepted(osd))
  {
    var k := Executing(action, osd);
    GuardedMutationIsReached(k, bytes, preflight);
    s := MutationEnds(k, GuardedPath(k)[4].t, 202, bytes, body);
  }

  /** A reading can get its answer. */
  lemma ReadingCanAnswer(bytes: string, body: Json.Value) returns (s: State)
    requires 0 < |bytes| <= 4194304
    ensures Reachable(s) && |s.tasks| == 1 && s.shared.free == 4
    ensures s.tasks[0].pc == Ended(Answer) && s.tasks[0].log == [LoginSent, QuerySent]
  {
    FirstRequestIsReached(Reading);
    var g, t := LoggedIn(1, {}), Doing(Reading, Dispatch(Query, 1, 0), 1, [LoginSent]);
    var t1 := t.(pc := InFlight(Query, 1, 0), requests := 1, log := [LoginSent, QuerySent]);
    Advance(g.(free := 3), t, SendNow, g.(free := 3), t1);
    WholeReplyDelivers(200, bytes, body);
    Advance(g.(free := 3), t1, Replied(WholeReply(200, bytes, body)), g, t1.(permit := false, pc := HaveAnswer));
    ReadingFinishes(g, t1.(permit := false, pc := HaveAnswer));
    s := State(g, [t1.(permit := false, pc := Ended(Answer))]);
  }

  lemma ReadingFinishes(g: Shared, t: Task)
    requires Reachable(State(g, [t])) && t.pc.HaveAnswer?
    ensures Reachable(State(g, [t.(pc := Ended(Answer))]))
  {
    Advance(g, t, Finish(None), g, t.(pc := Ended(Answer)));
  }
}
