/** Runs of the deploy runner whose answers are less certain, or less welcome, than they could be. */
module DeployRuns {
  import opened Wrappers
  import opened DeployErrors
  import opened DeployRunner
  import opened DeployCauses
  import UvLoop
  import SystemInfo
  import SshKeys

  // ---------- Steps of a concrete run ----------

  lemma {:induction false} ExecSnoc(p: SystemInfo.Protocol, s: State, moves: seq<Move>, m: Move)
    requires Exec(p, s, moves).Some?
    ensures Exec(p, s, moves + [m]) == Apply(p, Exec(p, s, moves).value, m)
    decreases moves
  {
    if moves == [] {
      assert moves + [m] == [m];
    } else {
      assert (moves + [m])[1..] == moves[1..] + [m];
      ExecSnoc(p, Apply(p, s, moves[0]).value, moves[1..], m);
    }
  }

  lemma Advance(p: SystemInfo.Protocol, s: State, who: nat, what: Event, c: Call, free: nat) returns (s': State)
    requires Reachable(p, s) && who < |s.calls| && CallStep(p, s.calls[who], s.free, what) == Moved(c, free)
    ensures s' == State(free, s.calls[who := c]) && Reachable(p, s')
  {
    var pins, moves :| Exec(p, Start(pins), moves) == Some(s);
    s' := State(free, s.calls[who := c]);
    ExecSnoc(p, Start(pins), moves, Move(who, what));
    assert Exec(p, Start(pins), moves + [Move(who, what)]) == Some(s');
  }

  lemma EmptyPinIsRefused()
    ensures PinOf(Some("")) == Unusable
  {
  }

  // Two machines whose pins the runner cannot use.
  function Waiting(): Call {
    NewCall(Unusable)
  }

  function FirstCall(): Call {
    NewCall(Unusable).(caller := Awaiting, permit := true)
  }

  lemma FirstIsChecked(p: SystemInfo.Protocol) returns (s: State)
    ensures Reachable(p, s) && s == State(0, [Waiting().(caller := Resolved, permit := true), Waiting()])
  {
    EmptyPinIsRefused();
    var pins := [Some(""), Some("")];
    assert Exec(p, Start(pins), []) == Some(Start(pins));
    s := Advance(p, Start(pins), 0, Acquire, Waiting().(caller := Admitted, permit := true), 0);
    s := Advance(p, s, 0, Resolve(None), Waiting().(caller := Resolved, permit := true), 0);
  }

  lemma FirstIsSpawned(p: SystemInfo.Protocol) returns (s: State)
    ensures Reachable(p, s) && s == State(0, [FirstCall().(stage := CheckFirst), Waiting()])
  {
    s := FirstIsChecked(p);
    s := Advance(p, s, 0, RequirePin, Waiting().(caller := Checked, permit := true), 0);
    s := Advance(p, s, 0, Spawn, FirstCall().(stage := CheckFirst), 0);
  }

  function DeadCall(): Call {
    FirstCall().(died := true)
  }

  lemma FirstDies(p: SystemInfo.Protocol) returns (s: State)
    ensures Reachable(p, s) && s == State(0, [DeadCall().(stage := Leave(Dead)), Waiting()])
  {
    s := FirstIsSpawned(p);
    s := Advance(p, s, 0, Die, DeadCall().(stage := Leave(Dead)), 0);
  }

  lemma FirstCleansUp(p: SystemInfo.Protocol) returns (s: State)
    ensures Reachable(p, s) && s == State(0, [DeadCall().(stage := Send(Dead)), Waiting()])
  {
    s := FirstDies(p);
    s := Advance(p, s, 0, Io(true), DeadCall().(stage := Send(Dead)), 0);
  }

  /** A worker can die before it starts uv; then its caller is told that the outcome is open although
    nothing ran. */
  lemma OpenWithoutAStart(p: SystemInfo.Protocol) returns (s: State)
    ensures Reachable(p, s) && |s.calls| == 2
    ensures s.calls[0].caller == Returned(Failure(ExecutionOutcomeUnknown)) && !s.calls[0].uvStarted
  {
    s := FirstCleansUp(p);
    var dead := DeadCall().(stage := Release, mailbox := SenderGone);
    s := Advance(p, s, 0, Go, dead, 0);
    s := Advance(p, s, 0, Receive, dead.(caller := Returned(Failure(ExecutionOutcomeUnknown)), cancel := Closed), 0);
  }

  lemma FirstReachesItsPin(p: SystemInfo.Protocol) returns (s: State)
    ensures Reachable(p, s) && s == State(0, [FirstCall().(stage := CheckPin), Waiting()])
  {
    s := FirstIsSpawned(p);
    s := Advance(p, s, 0, Go, FirstCall().(stage := CheckPin), 0);
  }

  lemma FirstIsRefused(p: SystemInfo.Protocol) returns (s: State)
    ensures Reachable(p, s)
    ensures s == State(0, [FirstCall().(stage := Leave(Result(Failure(MissingHostPin)))), Waiting()])
  {
    s := FirstReachesItsPin(p);
    s := Advance(p, s, 0, Go, FirstCall().(stage := Leave(Result(Failure(MissingHostPin)))), 0);
  }

  lemma FirstIsSending(p: SystemInfo.Protocol) returns (s: State)
    ensures Reachable(p, s) && s == State(0, [FirstCall().(stage := Send(Result(Failure(MissingHostPin)))), Waiting()])
  {
    s := FirstIsRefused(p);
    s := Advance(p, s, 0, Io(true), FirstCall().(stage := Send(Result(Failure(MissingHostPin)))), 0);
  }

  lemma FirstIsTold(p: SystemInfo.Protocol) returns (s: State)
    ensures Reachable(p, s)
    ensures s == State(0, [FirstCall().(stage := Release, mailbox := Delivered(Failure(MissingHostPin))), Waiting()])
  {
    s := FirstIsSending(p);
    s := Advance(p, s, 0, Go, FirstCall().(stage := Release, mailbox := Delivered(Failure(MissingHostPin))), 0);
  }

  /** A caller can hold its result while the permit is still on its way back, so the next
    attempt may be refused although no deploy is running any more. */
  lemma BusyAfterAResult(p: SystemInfo.Protocol) returns (s: State)
    ensures Reachable(p, s) && |s.calls| == 2
    ensures s.calls[0].caller == Returned(Failure(MissingHostPin))
    ensures s.calls[1].caller == Returned(Failure(Busy))
  {
    s := FirstIsTold(p);
    var c := s.calls[0].(caller := Returned(Failure(MissingHostPin)), cancel := Closed);
    s := Advance(p, s, 0, Receive, c, 0);
    s := Advance(p, s, 1, Acquire, Waiting().(caller := Returned(Failure(Busy))), 0);
  }

  // ---------- A deploy that succeeds ----------

  /** A state with a single call. */
  datatype Point = Point(call: Call, free: nat)

  /** Each event leads from one point of the path to the next. */
  predicate Linked(p: SystemInfo.Protocol, path: seq<Point>, events: seq<Event>) {
    |path| == |events| + 1 && forall k :: 0 <= k < |events| ==> Leads(p, path[k], events[k], path[k + 1])
  }

  predicate Leads(p: SystemInfo.Protocol, from: Point, e: Event, to: Point) {
    CallStep(p, from.call, from.free, e) == Moved(to.call, to.free)
  }

  lemma {:induction false} PathIsRun(p: SystemInfo.Protocol, path: seq<Point>, events: seq<Event>)
    requires Linked(p, path, events) && Reachable(p, State(path[0].free, [path[0].call]))
    ensures Reachable(p, State(path[|events|].free, [path[|events|].call]))
    decreases |events|
  {
    if events != [] {
      var to := path[1];
      assert Leads(p, path[0], events[0], to);
      var s := Advance(p, State(path[0].free, [path[0].call]), 0, events[0], to.call, to.free);
      assert s == State(to.free, [to.call]);
      assert Linked(p, path[1..], events[1..]) by {
        assert forall k :: 0 <= k < |events[1..]| ==> events[1..][k] == events[k + 1] && path[1..][k] == path[k + 1];
      }
      PathIsRun(p, path[1..], events[1..]);
    }
  }

  function AdmissionPath(): seq<Point> {
    var c := NewCall(Usable);
    var held := c.(permit := true);
    [Point(c, 1), Point(held.(caller := Admitted), 0), Point(held.(caller := Resolved), 0),
     Point(held.(caller := Checked), 0), Engaged(0)]
  }

  lemma AdmissionLinked(p: SystemInfo.Protocol)
    ensures Linked(p, AdmissionPath(), [Acquire, Resolve(None), RequirePin, Spawn])
  {
  }

  const STAGES_TO_UV: seq<Stage> :=
    [CheckFirst, CheckPin, MakeDir, SpawnKeygen, AwaitKeygen, RestrictKeys, ReadKey, CheckAgain, AwaitSign,
     WriteCertificate, RemovePublicKey, WriteKnownHosts, WriteInventory, SpawnUv, TakePipes]

  /** The worker after `k` of the steps to uv. */
  function Engaged(k: nat): Point
    requires k <= 14
  {
    var c := NewCall(Usable).(caller := Awaiting, permit := true, stage := STAGES_TO_UV[k]);
    Point(c.(dir := if k < 3 then Absent else Present, uvStarted := k == 14), 0)
  }

  lemma KeyIsMade(p: SystemInfo.Protocol, k: nat)
    requires k < 7
    ensures Leads(p, Engaged(k), StepsToUv()[k], Engaged(k + 1))
  {
  }

  lemma KeyIsSigned(p: SystemInfo.Protocol, k: nat)
    requires 7 <= k < 14
    ensures Leads(p, Engaged(k), StepsToUv()[k], Engaged(k + 1))
  {
  }

  lemma EngagedLinked(p: SystemInfo.Protocol)
    ensures Linked(p, seq(15, k requires 0 <= k < 15 => Engaged(k)), StepsToUv())
  {
    forall k | 0 <= k < 14
      ensures Leads(p, Engaged(k), StepsToUv()[k], Engaged(k + 1))
    {
      if k < 7 {
        KeyIsMade(p, k);
      } else {
        KeyIsSigned(p, k);
      }
    }
  }

  /** A wake-up at which only the given completions are new. */
  function WakeUp(child: Option<UvLoop.Wait>, stdout: Option<Option<string>>, stderr: Option<Option<string>>): Event {
    PollUv(UvLoop.Poll(false, false, child, stdout, stderr))
  }

  function UvEvents(output: string): seq<Event> {
    [Io(true), WakeUp(Some(UvLoop.Exited(UvLoop.Code(0))), None, None), WakeUp(None, Some(Some(output)), None),
     WakeUp(None, None, Some(Some("")))]
  }

  function InUv(uv: UvLoop.State): Point {
    Point(Engaged(14).call.(stage := AwaitUv(uv)), 0)
  }

  /** After a uv run that exited with code 0. */
  function Printed(output: string, stage: Stage): Call {
    Engaged(14).call.(stage := stage, uvOutput := Some(output))
  }

  function UvPath(output: string): seq<Point> {
    var exited := UvLoop.STARTED.(status := Some(UvLoop.Code(0)));
    [Engaged(14), InUv(UvLoop.STARTED), InUv(exited), InUv(exited.(output := Some(output))),
     Point(Printed(output, Normalise(output)), 0)]
  }

  lemma UvLinked(p: SystemInfo.Protocol, output: string)
    requires |output| <= 512 * 1024
    ensures Linked(p, UvPath(output), UvEvents(output))
  {
  }

  lemma NormaliseLinked(p: SystemInfo.Protocol, output: string, sections: seq<string>)
    requires SystemInfo.Parse(p, output) == Some(sections)
    ensures Leads(p, Point(Printed(output, Normalise(output)), 0), Go, LeavePath(output, sections)[0])
  {
  }

  function LeavePath(output: string, sections: seq<string>): seq<Point> {
    var r := Report(sections);
    var sent := Printed(output, Release).(dir := Removed, mailbox := Delivered(r));
    [Point(Printed(output, Leave(Result(r))), 0), Point(Printed(output, Send(Result(r))).(dir := Removed), 0),
     Point(sent, 0),
     Point(sent.(stage := Ended, permit := false), 1),
     Point(sent.(stage := Ended, permit := false, caller := Returned(r), cancel := Closed), 1)]
  }

  lemma LeaveLinked(p: SystemInfo.Protocol, output: string, sections: seq<string>)
    ensures Linked(p, LeavePath(output, sections), [Io(true), Go, Go, Receive])
  {
  }

  lemma UsableReachesUv(p: SystemInfo.Protocol, pin: string)
    requires SshKeys.RunnerAccepts(pin)
    ensures Reachable(p, State(0, [Engaged(14).call]))
  {
    var start := Start([Some(pin)]);
    assert start == State(1, [NewCall(Usable)]) && Exec(p, start, []) == Some(start);
    AdmissionLinked(p);
    PathIsRun(p, AdmissionPath(), [Acquire, Resolve(None), RequirePin, Spawn]);
    EngagedLinked(p);
    PathIsRun(p, seq(15, k requires 0 <= k < 15 => Engaged(k)), StepsToUv());
  }

  /** Every machine with an accepted host key can be deployed: there is a run in which nothing fails, and it
    ends with the sections its uv printed, whatever they are, with the run directory removed and the permit free. */
  lemma DeployCanSucceed(p: SystemInfo.Protocol, pin: string, output: string, sections: seq<string>)
      returns (s: State)
    requires SshKeys.RunnerAccepts(pin) && |output| <= 512 * 1024 && SystemInfo.Parse(p, output) == Some(sections)
    ensures Reachable(p, s) && s.free == 1 && |s.calls| == 1
    ensures s.calls[0].caller == Returned(Report(sections)) && s.calls[0].uvStarted
    ensures s.calls[0].stage == Ended && s.calls[0].dir == Removed
  {
    UsableReachesUv(p, pin);
    UvLinked(p, output);
    PathIsRun(p, UvPath(output), UvEvents(output));
    NormaliseLinked(p, output, sections);
    PathIsRun(p, [Point(Printed(output, Normalise(output)), 0), LeavePath(output, sections)[0]], [Go]);
    LeaveLinked(p, output, sections);
    PathIsRun(p, LeavePath(output, sections), [Io(true), Go, Go, Receive]);
    s := State(1, [LeavePath(output, sections)[4].call]);
  }
}
