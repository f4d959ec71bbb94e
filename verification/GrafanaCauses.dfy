/** Why a Grafana call ends as it does: every outcome has its cause among the events of its own call. */
module GrafanaCauses {
  import opened Wrappers
  import opened Json
  import opened GrafanaPermits
  import BoundedRead

  // ---------- Replies by their raw fields ----------

  /** A body received to its end within four mebibytes. */
  predicate Whole(reply: Reply) {
    && reply.Response? && BoundedRead.Failed !in reply.chunks && |BoundedRead.Received(reply.chunks)| <= 4194304
    && (reply.declared.Some? ==> reply.declared.value <= 4194304)
  }

  /** A body that broke off before it became too long. */
  predicate CutOff(reply: Reply) {
    && reply.Response? && BoundedRead.Failed in reply.chunks && |BoundedRead.Received(reply.chunks)| <= 4194304
    && (reply.declared.Some? ==> reply.declared.value <= 4194304)
  }

  predicate Status(reply: Reply, low: nat, high: nat) {
    reply.Response? && low <= reply.status <= high
  }

  predicate Unauthorises(reply: Reply) {
    Status(reply, 401, 401) || Status(reply, 403, 403)
  }

  predicate Rejects(reply: Reply) {
    Status(reply, 400, 499) && !Unauthorises(reply)
  }

  /** No reply, or one that neither succeeds nor refuses. */
  predicate Unavailable(reply: Reply) {
    reply.NoReply? || (!Status(reply, 200, 299) && !Status(reply, 400, 499))
  }

  predicate Delivers(reply: Reply, body: Value) {
    Status(reply, 200, 299) && Whole(reply) && reply.normalized == Some(body)
  }

  predicate Draws(reply: Reply, bytes: string) {
    && Status(reply, 200, 200) && Whole(reply) && reply.png && bytes == BoundedRead.Received(reply.chunks)
    && |bytes| >= 8 && bytes[..8] == ['\U{89}', 'P', 'N', 'G', '\U{D}', '\U{A}', '\U{1A}', '\U{A}']
  }

  lemma SignatureIff(bytes: string)
    ensures PNG_SIGNATURE <= bytes <==>
      |bytes| >= 8 && bytes[..8] == ['\U{89}', 'P', 'N', 'G', '\U{D}', '\U{A}', '\U{1A}', '\U{A}']
  {
    assert PNG_SIGNATURE == ['\U{89}', 'P', 'N', 'G', '\U{D}', '\U{A}', '\U{1A}', '\U{A}'];
  }

  /** What a read makes of a reply, over all replies. */
  lemma ReadTable(reply: Reply)
    ensures var o := OutcomeOf(Read, reply);
            && (forall body :: o == Answer(body) <==> Delivers(reply, body))
            && (o == Failed(Unauthorized) <==> Unauthorises(reply))
            && (o == Failed(QueryRejected) <==> Rejects(reply))
            && (o == Failed(UpstreamUnavailable) <==>
                  Unavailable(reply) || (Status(reply, 200, 299) && CutOff(reply)))
            && (o == Failed(InvalidResponse) <==>
                  Status(reply, 200, 299) && !CutOff(reply) && !(Whole(reply) && reply.normalized.Some?))
  {
  }

  /** What a mutation makes of a reply: rejected only on a 400, and unknown on everything that is no clear answer. */
  lemma MutationTable(reply: Reply)
    ensures var o := OutcomeOf(Mutation, reply);
            && (forall body :: o == Answer(body) <==> Delivers(reply, body))
            && (o == Failed(Unauthorized) <==> Unauthorises(reply))
            && (o == Failed(MutationRejected) <==> Status(reply, 400, 400))
            && (o == Failed(MutationOutcomeUnknown) <==>
                  !Unauthorises(reply) && !Status(reply, 400, 400) && forall body :: !Delivers(reply, body))
  {
    if reply.Response? && reply.normalized.Some? {
      assert Delivers(reply, reply.normalized.value) || !Status(reply, 200, 299) || !Whole(reply);
    }
  }

  /** What a render makes of a reply. */
  lemma RenderTable(reply: Reply)
    ensures var o := OutcomeOf(Render, reply);
            && (forall bytes :: o == Image(bytes) <==> Draws(reply, bytes))
            && (o == Failed(Unauthorized) <==> Unauthorises(reply))
            && (o == Failed(RenderRejected) <==> Rejects(reply))
            && (o == Failed(UpstreamUnavailable) <==>
                  reply.NoReply? || (reply.status != 200 && !Status(reply, 400, 499)))
            && (o == Failed(RenderInvalidResponse) <==>
                  Status(reply, 200, 200) && !Draws(reply, BoundedRead.Received(reply.chunks)))
  {
    if reply.Response? {
      SignatureIff(BoundedRead.Received(reply.chunks));
    }
  }

  // ---------- Causes ----------

  /** A reply that ended the call in this way. */
  predicate Got(kind: Kind, seen: set<Event>, o: Outcome) {
    exists e :: e in seen && e.Replied? && OutcomeOf(kind, e.reply) == o
  }

  /** What must have happened for an outcome; the three tables say which replies these are. */
  predicate Cause(kind: Kind, seen: set<Event>, o: Outcome) {
    || Got(kind, seen, o)
    || (o == Failed(CapacityExhausted) && (TryGlobal in seen || (kind.Render? && TryRender in seen)))
    || (o == Failed(InvalidArguments) && Build(UrlTooLong) in seen)
    || (o == Failed(UpstreamUnavailable) && !kind.Mutation? && Build(UrlBad) in seen)
    || (o == Failed(MutationOutcomeUnknown) && kind.Mutation? && (Build(UrlBad) in seen || TimedOut in seen))
    || (o == Failed(Timeout) && kind.Read? && TimedOut in seen)
    || (o == Failed(RenderTimeout) && kind.Render? && TimedOut in seen)
  }

  predicate Explained(t: Task, seen: set<Event>) {
    && (t.pc.Ended? ==> Cause(t.kind, seen, t.pc.outcome))
    && (t.sent ==> Build(UrlGood) in seen)
  }

  lemma GotStays(kind: Kind, seen: set<Event>, e: Event)
    ensures forall o :: Got(kind, seen, o) ==> Got(kind, seen + {e}, o)
    ensures e.Replied? ==> Got(kind, seen + {e}, OutcomeOf(kind, e.reply))
  {
    assert e in seen + {e};
  }

  lemma StepExplained(free: nat, renders: nat, t: Task, e: Event, seen: set<Event>)
    requires TaskInv(t) && Explained(t, seen) && TaskStep(free, renders, t, e).Moved?
    ensures Explained(TaskStep(free, renders, t, e).task, seen + {e})
  {
    GotStays(t.kind, seen, e);
  }

  /** What has happened to call `i`. */
  function EventsOf(moves: seq<Move>, i: nat): set<Event> {
    set m | m in moves && m.who == i :: m.what
  }

  lemma EventsOfCons(moves: seq<Move>, i: nat, seen: set<Event>)
    requires moves != []
    ensures moves[0].who == i ==> seen + EventsOf(moves, i) == seen + {moves[0].what} + EventsOf(moves[1..], i)
    ensures moves[0].who != i ==> EventsOf(moves, i) == EventsOf(moves[1..], i)
  {
    assert moves == [moves[0]] + moves[1..];
  }

  lemma {:induction false} RunExplained(s: State, moves: seq<Move>, i: nat, seen: set<Event>)
    requires Inv(s) && i < |s.tasks| && Exec(s, moves).Some? && Explained(s.tasks[i], seen)
    ensures var s' := Exec(s, moves).value;
            |s'.tasks| == |s.tasks| && s'.tasks[i].kind == s.tasks[i].kind &&
            Explained(s'.tasks[i], seen + EventsOf(moves, i))
    decreases moves
  {
    if moves == [] {
      assert seen + EventsOf(moves, i) == seen;
    } else {
      var s' := Apply(s, moves[0]).value;
      ApplyKeepsInv(s, moves[0]);
      EventsOfCons(moves, i, seen);
      if moves[0].who == i {
        TaskStepIsGood(s.free, s.freeRenders, s.tasks[i], moves[0].what);
        StepExplained(s.free, s.freeRenders, s.tasks[i], moves[0].what, seen);
        RunExplained(s', moves[1..], i, seen + {moves[0].what});
      } else {
        RunExplained(s', moves[1..], i, seen);
      }
    }
  }

  /** Every outcome has its cause among what happened to its own call, and a request is sent only after its URL was
    built and found short enough. */
  lemma OutcomesHaveCauses(kinds: seq<Kind>, moves: seq<Move>, s: State, i: nat)
    requires Exec(Start(kinds), moves) == Some(s) && i < |kinds|
    ensures |s.tasks| == |kinds| && s.tasks[i].kind == kinds[i]
    ensures s.tasks[i].pc.Ended? ==> Cause(kinds[i], EventsOf(moves, i), s.tasks[i].pc.outcome)
    ensures s.tasks[i].sent ==> Build(UrlGood) in EventsOf(moves, i)
  {
    StartInv(kinds);
    RunExplained(Start(kinds), moves, i, {});
    assert {} + EventsOf(moves, i) == EventsOf(moves, i);
  }

  /** A mutation counts as rejected only if its own reply was a 400, whatever deadline struck. */
  lemma RejectedByReply(kinds: seq<Kind>, moves: seq<Move>, s: State, i: nat) returns (reply: Reply)
    requires Exec(Start(kinds), moves) == Some(s) && i < |kinds| && kinds[i].Mutation?
    requires i < |s.tasks| && s.tasks[i].pc == Ended(Failed(MutationRejected))
    ensures Move(i, Replied(reply)) in moves && reply.Response? && reply.status == 400
  {
    OutcomesHaveCauses(kinds, moves, s, i);
    var e :| e in EventsOf(moves, i) && e.Replied? && OutcomeOf(Mutation, e.reply) == Failed(MutationRejected);
    reply := e.reply;
    MutationTable(reply);
  }

  // ---------- A call by itself ----------

  function Course(kind: Kind, reply: Reply): seq<Move> {
    if kind.Render?
    then [Move(0, TryGlobal), Move(0, TryRender), Move(0, Build(UrlGood)), Move(0, Replied(reply))]
    else [Move(0, TryGlobal), Move(0, Build(UrlGood)), Move(0, Replied(reply))]
  }

  lemma RunOn(free: nat, renders: nat, t: Task, e: Event, free': nat, renders': nat, t': Task, rest: seq<Move>)
    requires TaskStep(free, renders, t, e) == Moved(free', renders', t')
    ensures Exec(State(free, renders, [t]), [Move(0, e)] + rest) == Exec(State(free', renders', [t']), rest)
  {
    assert [t][0 := t'] == [t'];
    assert ([Move(0, e)] + rest)[1..] == rest;
  }

  /** A call by itself gets through to its reply, and both permits come back. */
  lemma CallsGetThrough(kind: Kind, reply: Reply)
    ensures Exec(Start([kind]), Course(kind, reply))
         == Some(State(4, 2, [Task(kind, Ended(OutcomeOf(kind, reply)), false, false, true)]))
  {
    var t, building := Task(kind, Idle, false, false, false), Task(kind, Building, true, kind.Render?, false);
    var renders := if kind.Render? then 1 else 2;
    var build, replied := Move(0, Build(UrlGood)), Move(0, Replied(reply));
    assert Start([kind]) == State(4, 2, [t]);
    if kind.Render? {
      RunOn(4, 2, t, TryGlobal, 3, 2, t.(pc := HaveGlobal, global := true), [Move(0, TryRender), build, replied]);
      RunOn(3, 2, t.(pc := HaveGlobal, global := true), TryRender, 3, 1, building, [build, replied]);
    } else {
      RunOn(4, 2, t, TryGlobal, 3, 2, building, [build, replied]);
    }
    var sent := building.(pc := InFlight, sent := true);
    RunOn(3, renders, building, build.what, 3, renders, sent, [replied]);
    var ended := Task(kind, Ended(OutcomeOf(kind, reply)), false, false, true);
    RunOn(3, renders, sent, replied.what, 4, 2, ended, []);
  }
}
