/** The loop that waits for the uv process: cancellation, deadline, child exit and two
  bounded readers race in one biased `select!`. */
module UvLoop {
  import opened Wrappers
  import opened DeployErrors
  import BoundedRead

  datatype Exit = Code(n: int) | Signalled

  predicate Success(exit: Exit) {
    exit == Code(0)
  }

  datatype Wait = Exited(exit: Exit) | WaitFailed

  /** What is ready at one wake-up. A reader is ready with its bytes, or with nothing when
    it failed or passed its limit. Values of finished futures are ignored. */
  datatype Poll = Poll(cancelled: bool, expired: bool, child: Option<Wait>,
                       stdout: Option<Option<string>>, stderr: Option<Option<string>>)

  const MAX_STDOUT_BYTES: nat := 512 * 1024

  /** What the reader of standard output can deliver: bytes within its limit, or nothing. */
  predicate Captured(p: Poll) {
    p.stdout.Some? && p.stdout.value.Some? ==> |p.stdout.value.value| <= MAX_STDOUT_BYTES
  }

  /** What `drain` returns at its limit is such a delivery, whatever the stream. */
  lemma DrainedIsCaptured(p: Poll, input: seq<BoundedRead.Read>)
    requires p.stdout == Some(BoundedRead.Bounded(BoundedRead.Content(input), MAX_STDOUT_BYTES))
    ensures Captured(p)
  {
  }

  datatype State = State(status: Option<Exit>, output: Option<string>, errors: Option<string>)

  const STARTED := State(None, None, None)

  /** `last` is the state in which the loop was left or still is. */
  datatype Outcome =
    | Finished(result: Result<string, DeployError>, last: State)
    | Running(last: State)

  predicate Complete(s: State) {
    s.status.Some? && s.output.Some? && s.errors.Some?
  }

  function Missing(s: State): nat {
    (if s.status.None? then 1 else 0) + (if s.output.None? then 1 else 0) + (if s.errors.None? then 1 else 0)
  }

  function Verdict(exit: Exit, output: string): Result<string, DeployError> {
    if Success(exit) then Ok(output) else Err(ExecutionOutcomeUnknown)
  }

  /** One biased `select!`: the first ready branch wins. */
  function Step(s: State, p: Poll): Outcome {
    if p.cancelled then Finished(Err(CancelledOutcomeUnknown), s)
    else if p.expired then Finished(Err(TimeoutOutcomeUnknown), s)
    else if s.status.None? && p.child.Some? then
      match p.child.value
      case Exited(exit) => Running(s.(status := Some(exit)))
      case WaitFailed => Finished(Err(ExecutionOutcomeUnknown), s)
    else if s.output.None? && p.stdout.Some? then
      match p.stdout.value
      case Some(bytes) => Running(s.(output := Some(bytes)))
      case None => Finished(Err(OutputTooLargeOutcomeUnknown), s)
    else if s.errors.None? && p.stderr.Some? then
      match p.stderr.value
      case Some(bytes) => Running(s.(errors := Some(bytes)))
      case None => Finished(Err(OutputTooLargeOutcomeUnknown), s)
    else Running(s)
  }

  /** The whole loop over a schedule of wake-ups. */
  function Run(s: State, polls: seq<Poll>): Outcome
    decreases polls
  {
    if Complete(s) then Finished(Verdict(s.status.value, s.output.value), s)
    else if polls == [] then Running(s)
    else match Step(s, polls[0])
      case Finished(result, last) => Finished(result, last)
      case Running(next) => Run(next, polls[1..])
  }

  // ---------- The loop over its child and reader handles ----------

  class Child {
    var exited: bool   // its exit status was collected, so it has no process id any more
    var killed: bool   // its process group was sent SIGKILL
    var waited: bool   // some wait on it has completed

    constructor ()
      ensures !exited && !killed && !waited
    {
      exited, killed, waited := false, false, false;
    }
  }

  /** A spawned reader task's join handle. Polling it again after it finished would panic. */
  class Reader {
    var live: bool

    constructor ()
      ensures live
    {
      live := true;
    }

    method TakeResult()
      requires live
      modifies this
      ensures !live
    {
      live := false;
    }

    method AbortAndJoin()
      requires live
      modifies this
      ensures !live
    {
      live := false;
    }
  }

  /** Kills the group while the leader still has a process id, waits for the leader, and
    joins the readers that are still running. */
  method TerminateGroup(child: Child, stdout: Reader?, stderr: Reader?)
    requires stdout != null ==> stdout.live
    requires stderr != null ==> stderr.live
    requires stdout != null ==> stdout != stderr
    modifies child, stdout, stderr
    ensures child.exited == old(child.exited)
    ensures child.killed == (old(child.killed) || !old(child.exited)) && child.waited
    ensures stdout != null ==> !stdout.live
    ensures stderr != null ==> !stderr.live
  {
    if !child.exited {
      child.killed := true;
    }
    child.waited := true;
    if stdout != null {
      stdout.AbortAndJoin();
    }
    if stderr != null {
      stderr.AbortAndJoin();
    }
  }

  /** The handles agree with the results collected so far. */
  ghost predicate HandlesMatch(s: State, child: Child, stdout: Reader, stderr: Reader)
    reads child, stdout, stderr
  {
    && child.exited == s.status.Some? && child.waited == child.exited && !child.killed
    && stdout.live == s.output.None?
    && stderr.live == s.errors.None?
  }

  method RunUv(child: Child, stdout: Reader, stderr: Reader, polls: seq<Poll>) returns (outcome: Outcome)
    requires stdout != stderr && HandlesMatch(STARTED, child, stdout, stderr)
    modifies child, stdout, stderr
    ensures outcome == Run(STARTED, polls)
    ensures outcome.Running? ==> HandlesMatch(outcome.last, child, stdout, stderr)
    // Every way out has waited for the child and joined both readers, and the group is
    // killed exactly on the abnormal ways out that precede the child's exit.
    ensures outcome.Finished? ==> child.waited && !stdout.live && !stderr.live
    ensures outcome.Finished? ==> child.killed == (!Complete(outcome.last) && outcome.last.status.None?)
  {
    var s := STARTED;
    var i := 0;
    assert polls[0..] == polls;
    while true
      invariant 0 <= i <= |polls|
      invariant HandlesMatch(s, child, stdout, stderr)
      invariant Run(STARTED, polls) == Run(s, polls[i..])
      decreases |polls| - i
    {
      if Complete(s) {
        return Finished(Verdict(s.status.value, s.output.value), s);
      }
      if i == |polls| {
        return Running(s);
      }
      var p := polls[i];
      assert polls[i..][0] == p && polls[i..][1..] == polls[i + 1..];
      i := i + 1;
      if p.cancelled {
        TerminateGroup(child, if s.output.None? then stdout else null, if s.errors.None? then stderr else null);
        return Finished(Err(CancelledOutcomeUnknown), s);
      } else if p.expired {
        TerminateGroup(child, if s.output.None? then stdout else null, if s.errors.None? then stderr else null);
        return Finished(Err(TimeoutOutcomeUnknown), s);
      } else if s.status.None? && p.child.Some? {
        match p.child.value {
          case Exited(exit) =>
            child.exited, child.waited := true, true;
            s := s.(status := Some(exit));
          case WaitFailed =>
            TerminateGroup(child, if s.output.None? then stdout else null, if s.errors.None? then stderr else null);
            return Finished(Err(ExecutionOutcomeUnknown), s);
        }
      } else if s.output.None? && p.stdout.Some? {
        stdout.TakeResult();
        match p.stdout.value {
          case Some(bytes) =>
            s := s.(output := Some(bytes));
          case None =>
            TerminateGroup(child, null, if s.errors.None? then stderr else null);
            return Finished(Err(OutputTooLargeOutcomeUnknown), s);
        }
      } else if s.errors.None? && p.stderr.Some? {
        stderr.TakeResult();
        match p.stderr.value {
          case Some(bytes) =>
            s := s.(errors := Some(bytes));
          case None =>
            TerminateGroup(child, if s.output.None? then stdout else null, null);
            return Finished(Err(OutputTooLargeOutcomeUnknown), s);
        }
      }
    }
  }

  // ---------- What the loop decides ----------

  /** The three completions the environment will deliver, in whatever order. */
  datatype Facts = Facts(exit: Exit, stdout: string, stderr: string)

  predicate Agrees(s: State, f: Facts) {
    && (s.status.Some? ==> s.status.value == f.exit)
    && (s.output.Some? ==> s.output.value == f.stdout)
    && (s.errors.Some? ==> s.errors.value == f.stderr)
  }

  /** A wake-up without cancellation, deadline or failure. */
  predicate Quiet(p: Poll, f: Facts) {
    && !p.cancelled && !p.expired
    && (p.child.Some? ==> p.child.value == Exited(f.exit))
    && (p.stdout.Some? ==> p.stdout.value == Some(f.stdout))
    && (p.stderr.Some? ==> p.stderr.value == Some(f.stderr))
  }

  /** The wake-up brings something the loop still misses. */
  predicate Useful(s: State, p: Poll) {
    || (s.status.None? && p.child.Some?)
    || (s.output.None? && p.stdout.Some?)
    || (s.errors.None? && p.stderr.Some?)
  }

  /** The number of wake-ups that bring something before the loop is left. */
  function UsefulPolls(s: State, polls: seq<Poll>): nat
    decreases polls
  {
    if Complete(s) || polls == [] then 0
    else match Step(s, polls[0])
      case Finished(_, _) => 0
      case Running(next) => (if Useful(s, polls[0]) then 1 else 0) + UsefulPolls(next, polls[1..])
  }

  /** Undisturbed, the result depends only on the exit status and the two streams: in any completion order the
    loop is left after exactly the missing completions, with the output when the exit code is 0. */
  lemma {:induction false} OrderDoesNotMatter(s: State, polls: seq<Poll>, f: Facts)
    requires Agrees(s, f) && forall i :: 0 <= i < |polls| ==> Quiet(polls[i], f)
    ensures var outcome := Run(s, polls);
            && Agrees(outcome.last, f)
            && (outcome.Finished? <==> UsefulPolls(s, polls) == Missing(s))
            && (outcome.Finished? ==> Complete(outcome.last))
            && (outcome.Finished? ==>
                  outcome.result == if f.exit == Code(0) then Ok(f.stdout) else Err(ExecutionOutcomeUnknown))
    decreases polls
  {
    if !Complete(s) && polls != [] {
      var next := Step(s, polls[0]).last;
      assert Useful(s, polls[0]) ==> Missing(next) == Missing(s) - 1;
      OrderDoesNotMatter(next, polls[1..], f);
      UsefulAtMostMissing(next, polls[1..]);
    } else if !Complete(s) {
      assert Missing(s) > 0;
    }
  }

  /** At most three wake-ups bring something, whatever happens. */
  lemma {:induction false} UsefulAtMostMissing(s: State, polls: seq<Poll>)
    ensures UsefulPolls(s, polls) <= Missing(s) <= 3
    decreases polls
  {
    if !Complete(s) && polls != [] && Step(s, polls[0]).Running? {
      var next := Step(s, polls[0]).last;
      assert Useful(s, polls[0]) ==> Missing(next) == Missing(s) - 1;
      UsefulAtMostMissing(next, polls[1..]);
    }
  }

  lemma {:induction false} RunSnoc(s: State, polls: seq<Poll>, p: Poll)
    requires Run(s, polls).Running?
    ensures Run(s, polls + [p]) == Run(Run(s, polls).last, [p]) && !Complete(Run(s, polls).last)
    decreases polls
  {
    if polls == [] {
      assert polls + [p] == [p];
    } else {
      assert (polls + [p])[1..] == polls[1..] + [p];
      RunSnoc(Step(s, polls[0]).last, polls[1..], p);
    }
  }

  /** While the loop runs, cancellation beats everything that is ready with it. */
  lemma CancelWins(s: State, polls: seq<Poll>, p: Poll)
    requires Run(s, polls).Running? && p.cancelled
    ensures Run(s, polls + [p]) == Finished(Err(CancelledOutcomeUnknown), Run(s, polls).last)
  {
    RunSnoc(s, polls, p);
  }

  /** The child's exit is news to the loop. */
  predicate ChildIsNews(s: State, p: Poll) {
    s.status.None? && p.child.Some?
  }

  predicate StdoutIsNews(s: State, p: Poll) {
    s.output.None? && p.stdout.Some? && !ChildIsNews(s, p)
  }

  predicate StderrIsNews(s: State, p: Poll) {
    s.errors.None? && p.stderr.Some? && !ChildIsNews(s, p) && !StdoutIsNews(s, p)
  }

  /** The exit status once the wake-up is handled. */
  function StatusAfter(s: State, p: Poll): Option<Exit> {
    if ChildIsNews(s, p) && p.child.value.Exited? then Some(p.child.value.exit) else s.status
  }

  /** The wake-up brings the last thing missing. */
  predicate Completes(s: State, p: Poll) {
    && !p.cancelled && !p.expired && Missing(s) == 1
    && (|| (ChildIsNews(s, p) && p.child.value.Exited?)
        || (StdoutIsNews(s, p) && p.stdout.value.Some?)
        || (StderrIsNews(s, p) && p.stderr.value.Some?))
  }

  /** What each wake-up of a running loop decides, over all schedules: cancellation, then the deadline, then the
    first news in the order child, standard output, standard error. */
  lemma WakeUpDecides(polls: seq<Poll>, p: Poll)
    requires Run(STARTED, polls).Running?
    ensures var s := Run(STARTED, polls).last; var o := Run(STARTED, polls + [p]);
            && (o == Finished(Err(CancelledOutcomeUnknown), s) <==> p.cancelled)
            && (o == Finished(Err(TimeoutOutcomeUnknown), s) <==> !p.cancelled && p.expired)
            && (o == Finished(Err(OutputTooLargeOutcomeUnknown), s) <==>
                  !p.cancelled && !p.expired &&
                      ((StdoutIsNews(s, p) && p.stdout.value.None?) || (StderrIsNews(s, p) && p.stderr.value.None?)))
            && (o == Finished(Err(ExecutionOutcomeUnknown), s) <==>
                  !p.cancelled && !p.expired && ChildIsNews(s, p) && p.child.value.WaitFailed?)
            && (o.Finished? && Complete(o.last) <==> Completes(s, p))
            && (o.Finished? && Complete(o.last) ==> o.last.status == StatusAfter(s, p))
  {
    RunSnoc(STARTED, polls, p);
  }

  /** A finished loop was decided by one wake-up, after which nothing counts. */
  lemma {:induction false} SomeWakeUpDecided(s: State, polls: seq<Poll>) returns (k: nat)
    requires Run(s, polls).Finished? && !Complete(s)
    ensures k < |polls| && Run(s, polls[..k]).Running? && Run(s, polls[..k] + [polls[k]]) == Run(s, polls)
    decreases polls
  {
    var next := Step(s, polls[0]);
    k := 0;
    assert polls[..0] + [polls[0]] == [polls[0]];
    if next.Running? && !Complete(next.last) {
      k := SomeWakeUpDecided(next.last, polls[1..]);
      k := k + 1;
      assert polls[..k] == [polls[0]] + polls[1..][..k - 1];
      assert polls[..k] + [polls[k]] == [polls[0]] + (polls[1..][..k - 1] + [polls[1..][k - 1]]);
    }
  }

  /** In every schedule success is exactly a loop left complete with exit code 0, with the captured output; a
    complete loop with another exit leaves the outcome unknown. */
  lemma {:induction false} OkIff(s: State, polls: seq<Poll>)
    requires Run(s, polls).Finished?
    ensures var o := Run(s, polls);
            && (o.result.Ok? <==> Complete(o.last) && o.last.status == Some(Code(0)))
            && (o.result.Ok? ==> o.last.output == Some(o.result.value))
            && (Complete(o.last) && o.last.status != Some(Code(0)) ==> o.result == Err(ExecutionOutcomeUnknown))
    decreases polls
  {
    if !Complete(s) && Step(s, polls[0]).Running? {
      OkIff(Step(s, polls[0]).last, polls[1..]);
    }
  }

  ghost predicate ChildReported(polls: seq<Poll>, exit: Exit) {
    exists i :: 0 <= i < |polls| && polls[i].child == Some(Exited(exit))
  }

  ghost predicate StdoutReported(polls: seq<Poll>, output: string) {
    exists i :: 0 <= i < |polls| && polls[i].stdout == Some(Some(output))
  }

  /** Success means the child reported exit code 0 and the result is what its standard output
    held; anything else leaves the outcome unknown. */
  lemma ResultsOfLoop(polls: seq<Poll>)
    requires Run(STARTED, polls).Finished?
    ensures var result := Run(STARTED, polls).result;
            if result.Ok? then ChildReported(polls, Code(0)) && StdoutReported(polls, result.value)
            else OutcomeUnknown(result.error)
  {
    CollectedWasReported(STARTED, polls);
    LeftWith(STARTED, polls);
  }

  lemma {:induction false} LeftWith(s: State, polls: seq<Poll>)
    requires Run(s, polls).Finished?
    ensures var outcome := Run(s, polls);
            if outcome.result.Ok? then outcome.last.status == Some(Code(0)) &&
                outcome.last.output == Some(outcome.result.value)
            else OutcomeUnknown(outcome.result.error)
    decreases polls
  {
    if !Complete(s) && Step(s, polls[0]).Running? {
      LeftWith(Step(s, polls[0]).last, polls[1..]);
    }
  }

  lemma {:induction false} CollectedWasReported(s: State, polls: seq<Poll>)
    ensures var last := Run(s, polls).last;
            && (last.status == s.status || (last.status.Some? && ChildReported(polls, last.status.value)))
            && (last.output == s.output || (last.output.Some? && StdoutReported(polls, last.output.value)))
    decreases polls
  {
    if !Complete(s) && polls != [] && Step(s, polls[0]).Running? {
      CollectedWasReported(Step(s, polls[0]).last, polls[1..]);
      assert forall i :: 0 <= i < |polls[1..]| ==> polls[1..][i] == polls[i + 1];
    }
  }
}
