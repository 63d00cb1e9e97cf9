/**
 A stop wins over whole runs.

 The restart timer reads the desired state before it takes the operation lock.
 A stop that completes between the two is overridden; the theorem below says
 that this is the only way.
 */
module StopWins {
  import opened Wrappers
  import opened Lifecycle
  import opened Runs
  import opened LifecycleSafety

  /** A restart timer has read the desired state and is waiting for the lock. */
  ghost predicate TimerArmed(s: State, t: nat) {
    t in s.tasks && s.tasks[t].phase.Armed?
  }

  ghost predicate NoTimerArmed(s: State) {
    forall t :: !TimerArmed(s, t)
  }

  /** Nothing the system does on its own leads out of these states. */
  ghost predicate Settled(s: State) {
    && (!s.up ==> s.tasks == map[] && s.op.Idle?)
    && s.row.Some? && s.row.value.desired == WantStopped
    && !InLaunch(s.op) && NoTimerArmed(s)
    && (s.up ==> s.desired == WantStopped)
  }

  /** The stop in progress has recorded what the user wants. */
  ghost predicate StopRecorded(s: State) {
    InStop(s.op) ==>
      s.up && s.desired == WantStopped && s.row.Some? && s.row.value.desired == WantStopped
  }

  /** What a completed stop leaves. */
  ghost predicate StopDone(s: State) {
    && s.up && s.op.Idle? && s.handle.None?
    && s.desired == WantStopped && s.row.Some? && s.row.value.desired == WantStopped
  }

  ghost predicate NamesService(run: seq<Label>) {
    exists i :: 0 <= i < |run| && run[i] == Launch(UserBegin)
  }

  ghost predicate Launches(run: seq<Label>) {
    exists i :: 0 <= i < |run| && run[i] == Launch(Spawn)
  }

  /** No run without a user start or restart launches the service. */
  ghost predicate StopPrevails(s: State) {
    forall run | Exec(s, run).Some? && !NamesService(run) :: !Launches(run)
  }

  lemma WatchKeepsSettled(s: State, t: nat, l: WatchStep, n: State)
    requires s.up && Settled(s) && t in s.tasks && NextWatch(s, t, l) == Some(n)
    ensures Settled(n)
  {
    assert !TimerArmed(s, t);
    forall u ensures !TimerArmed(n, u) {
      assert !TimerArmed(s, u);
    }
  }

  lemma SettledLaunchesNothing(s: State, l: LaunchStep)
    requires s.up && Settled(s) && !l.UserBegin?
    ensures NextLaunch(s, l).None?
  {
    assert l.TimerBegin? ==> !TimerArmed(s, l.task);
  }

  lemma StopKeepsSettled(s: State, l: StopStep, n: State)
    requires s.up && Settled(s) && NextStop(s, l) == Some(n)
    ensures Settled(n)
  {
    SameTimers(s, n);
  }

  lemma OtherStepsKeepSettled(s: State, l: Label, n: State)
    requires Settled(s) && Next(s, l) == Some(n) && !l.Launch? && !l.Stop? && !l.Watch?
    ensures Settled(n)
  {
    SameTimers(s, n);
  }

  lemma SameTimers(s: State, n: State)
    requires NoTimerArmed(s)
    requires forall t <- n.tasks | n.tasks[t].phase.Armed? :: t in s.tasks && s.tasks[t].phase.Armed?
    ensures NoTimerArmed(n)
  {
    forall t ensures !TimerArmed(n, t) {
      assert !TimerArmed(s, t);
    }
  }

  lemma StepKeepsSettled(s: State, l: Label, n: State)
    requires Settled(s) && Next(s, l) == Some(n) && l != Launch(UserBegin)
    ensures Settled(n) && l != Launch(Spawn)
  {
    hide Settled;
    match l
    case Launch(step) => SettledLaunchesNothing(s, step);
    case Stop(step) => StopKeepsSettled(s, step, n);
    case Watch(t, step) => WatchKeepsSettled(s, t, step, n);
    case _ => OtherStepsKeepSettled(s, l, n);
  }

  lemma {:induction false} SettledRunNeverLaunches(s: State, run: seq<Label>)
    requires Settled(s) && Exec(s, run).Some? && !NamesService(run)
    ensures !Launches(run) && Settled(Exec(s, run).value)
    decreases |run|
  {
    if run != [] {
      var n := Next(s, run[0]).value;
      assert run[0] != Launch(UserBegin);
      StepKeepsSettled(s, run[0], n);
      assert forall i | 0 <= i < |run[1..]| :: run[1..][i] == run[i + 1];
      SettledRunNeverLaunches(n, run[1..]);
      assert forall i | 1 <= i < |run| :: run[i] == run[1..][i - 1];
    }
  }

  lemma StopKeepsStopRecorded(s: State, l: StopStep, n: State)
    requires StopRecorded(s) && s.up && NextStop(s, l) == Some(n)
    ensures StopRecorded(n)
  {
  }

  lemma LaunchIsNoStop(s: State, l: LaunchStep, n: State)
    requires NextLaunch(s, l) == Some(n)
    ensures !InStop(n.op)
  {
  }

  lemma WatchKeepsDesired(s: State, t: nat, l: WatchStep, n: State)
    requires t in s.tasks && NextWatch(s, t, l) == Some(n)
    ensures n.up == s.up && n.op == s.op && n.desired == s.desired
    ensures n.row == s.row || n.row == Some(RowOf(n))
  {
  }

  lemma StepKeepsStopRecorded(s: State, l: Label, n: State)
    requires StopRecorded(s) && (!s.up ==> s.op.Idle?) && Next(s, l) == Some(n)
    ensures StopRecorded(n)
  {
    match l
    case Stop(step) => StopKeepsStopRecorded(s, step, n);
    case Launch(step) => LaunchIsNoStop(s, step, n);
    case Watch(t, step) => WatchKeepsDesired(s, t, step, n);
    case _ =>
  }

  lemma {:induction false} RunKeepsStopRecorded(s: State, run: seq<Label>)
    requires Inv(s) && StopRecorded(s) && Exec(s, run).Some?
    ensures StopRecorded(Exec(s, run).value)
    decreases |run|
  {
    if run != [] {
      var n := Next(s, run[0]).value;
      StepKeepsInv(s, run[0], n);
      StepKeepsStopRecorded(s, run[0], n);
      RunKeepsStopRecorded(n, run[1..]);
    }
  }

  /** Whatever happened before and whatever interleaves, a stop that completes
      leaves the desired state STOPPED in memory and in the database. */
  lemma CompletedStop(run: seq<Label>, s: State, l: Label, n: State)
    requires Exec(INIT, run) == Some(s) && Next(s, l) == Some(n)
    requires l == Stop(StopSave) || l == Stop(StopSettle)
    ensures StopDone(n)
  {
    hide Exec, Next, StopDone;
    ReachableInv(run, s);
    RunKeepsStopRecorded(INIT, run);
    StopCompletes(s, l, n);
  }

  lemma StopCompletes(s: State, l: Label, n: State)
    requires OpOk(s) && StopRecorded(s) && Next(s, l) == Some(n)
    requires l == Stop(StopSave) || l == Stop(StopSettle)
    ensures StopDone(n)
  {
  }

  /** A timer that was armed when the stop completed launches the service. */
  lemma ArmedTimerOverridesStop(s: State, t: nat) returns (run: seq<Label>)
    requires StopDone(s) && TimerArmed(s, t)
    ensures Exec(s, run).Some? && !NamesService(run) && Launches(run)
    ensures Exec(s, run).value.desired == WantRunning
  {
    run := [];
    NoSteps(s);
    hide Exec;
    var n := s;
    run, n := Then(s, run, n, Launch(TimerBegin(t)));
    run, n := Then(s, run, n, Launch(WriteWanted));
    run, n := Then(s, run, n, Launch(WriteStarting));
    run, n := Then(s, run, n, Launch(Spawn));
    assert run[3] == Launch(Spawn);
  }

  /** After a completed stop, late watchers, timers, daemon deaths and
      reconciliation never launch the service again exactly when no restart timer
      is waiting for the operation lock at that moment. */
  lemma StopPrevailsExactly(past: seq<Label>, s: State)
    requires Exec(INIT, past) == Some(s) && StopDone(s)
    ensures StopPrevails(s) <==> NoTimerArmed(s)
  {
    ReachableInv(past, s);
    if NoTimerArmed(s) {
      forall run | Exec(s, run).Some? && !NamesService(run) ensures !Launches(run) {
        SettledRunNeverLaunches(s, run);
      }
    } else {
      var t :| TimerArmed(s, t);
      var run := ArmedTimerOverridesStop(s, t);
    }
  }

  /** The watcher accounts for an exit. */
  lemma ExitIsRecorded(s: State, t: nat) returns (run: seq<Label>, n: State)
    requires s.up && t in s.tasks && s.tasks[t].phase.Watching? && s.tasks[t].gen == s.generation
    requires s.tasks[t].run !in s.alive && s.desired == WantRunning
    ensures run == [Watch(t, Take(false)), Watch(t, Record), Watch(t, Release), Watch(t, Save)] && Exec(s, run) == Some(n)
    ensures n.up && n.op == s.op && n.handle.None? && n.desired == WantRunning
    ensures t in n.tasks && n.tasks[t].phase.Deciding? && n.tasks[t].plan == s.tasks[t].plan
  {
    NoSteps(s);
    hide Exec;
    run, n := [], s;
    run, n := Then(s, run, n, Watch(t, Take(false)));
    run, n := Then(s, run, n, Watch(t, Record));
    run, n := Then(s, run, n, Watch(t, Release));
    run, n := Then(s, run, n, Watch(t, Save));
  }

  /** A crash followed by the whole restart delay. */
  lemma ExitArmsTimer(s: State, t: nat) returns (run: seq<Label>, n: State)
    requires s.up && t in s.tasks && s.tasks[t].phase.Watching? && s.tasks[t].gen == s.generation
    requires s.tasks[t].run !in s.alive && s.desired == WantRunning && s.tasks[t].plan == Plan(Always, 0)
    ensures Exec(s, run) == Some(n) && !NamesService(run)
    ensures n.up && n.op == s.op && n.handle.None? && TimerArmed(n, t)
  {
    hide Exec;
    run, n := ExitIsRecorded(s, t);
    run, n := Then(s, run, n, Watch(t, Decide(false)));
    run, n := Then(s, run, n, Watch(t, Fire));
  }

  /** Stopping a service that is not running. */
  lemma StopsNothing(s: State) returns (run: seq<Label>, n: State)
    requires s.up && s.op.Idle? && s.handle.None?
    ensures Exec(s, run) == Some(n) && StopDone(n) && n.tasks == s.tasks
  {
    NoSteps(s);
    hide Exec;
    run, n := [], s;
    run, n := Then(s, run, n, Stop(StopBegin));
    run, n := Then(s, run, n, Stop(StopTake));
    run, n := Then(s, run, n, Stop(StopClear));
    run, n := Then(s, run, n, Stop(StopSettle));
  }

  /** The exception is real: a start, a crash, and a stop while the restart timer waits
      for the lock. */
  lemma StopWithArmedTimerIsReachable() returns (past: seq<Label>, s: State)
    ensures Exec(INIT, past) == Some(s) && StopDone(s) && TimerArmed(s, 0)
    ensures !StopPrevails(s)
  {
    hide Exec, Next, StopPrevails, StopDone;
    past, s := FirstInstanceExits(Plan(Always, 0));
    var steps, armed := ExitArmsTimer(s, 0);
    ExecAppend(INIT, past, steps);
    past, s := past + steps, armed;
    var stop, stopped := StopsNothing(s);
    ExecAppend(INIT, past, stop);
    past, s := past + stop, stopped;
    StopPrevailsExactly(past, s);
  }
}
