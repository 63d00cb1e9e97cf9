/**
 When the database is consistent at every point at which the daemon may die.

 The first part says, for all runs, which steps break consistency.  The second gives a
 condition on the interleaving under which none of them is ever taken.  In quiet runs
 the watcher of the current instance accounts for an exit in one go, a launch starts
 without a handle, and a start failure is recorded for a service without a handle;
 stale watchers may wake at any time.  Then come the recovery after a death, the
 steps that take ports away, and concrete runs that are not quiet.
 */
module CrashConsistency {
  import opened Wrappers
  import opened Lifecycle
  import opened Runs
  import opened LifecycleSafety
  import opened StopWins
  import opened InstanceHistory

  /** A row that the next daemon will not look at belongs to a service without
      ports. */
  predicate Consistent(s: State) {
    !RowSupervised(s) ==> s.held == {}
  }

  // ------------------------------------------------------ which steps break it

  /** The step writes a row that the next daemon ignores. */
  predicate WritesIgnored(s: State, l: Label) {
    match l
    case Launch(WriteWanted) | Stop(StopBegin) | Stop(StopSave) | Reconcile(VanishSave) => !WasSupervised(s.actual)
    case Watch(_, Save) => !WasSupervised(s.actual)
    case Launch(WriteFailure) | Stop(StopSettle) | FailOnly(_) => true
    case Watch(_, TimerBlocked(_)) => true
    case Watch(t, Decide(clean)) =>
      t in s.tasks && Qualifies(s.tasks[t].plan, clean) && Exhausted(s.tasks[t].plan, s.restarts)
    case _ => false
  }

  /** A port is claimed behind a row that the next daemon ignores, or such a row is
      written in front of ports. */
  predicate Breaks(s: State, l: Label) {
    || (l == Launch(ReserveOne) && !RowSupervised(s))
    || (s.held != {} && WritesIgnored(s, l))
  }

  lemma LaunchBreaksExactly(s: State, l: LaunchStep, n: State)
    requires StatusOk(s) && Consistent(s) && NextLaunch(s, l) == Some(n)
    ensures !Consistent(n) <==> Breaks(s, Launch(l))
  {
  }

  lemma StopBreaksExactly(s: State, l: StopStep, n: State)
    requires Consistent(s) && NextStop(s, l) == Some(n)
    ensures !Consistent(n) <==> Breaks(s, Stop(l))
  {
  }

  lemma WatchBreaksExactly(s: State, t: nat, l: WatchStep, n: State)
    requires Consistent(s) && t in s.tasks && NextWatch(s, t, l) == Some(n)
    ensures !Consistent(n) <==> Breaks(s, Watch(t, l))
  {
  }

  lemma ReconcileBreaksExactly(s: State, l: ReconcileStep, n: State)
    requires Consistent(s) && NextReconcile(s, l) == Some(n)
    ensures !Consistent(n) <==> Breaks(s, Reconcile(l))
  {
  }

  lemma StepBreaks(s: State, l: Label, n: State)
    requires StatusOk(s) && Consistent(s) && Next(s, l) == Some(n)
    ensures !Consistent(n) <==> Breaks(s, l)
  {
    hide StatusOk;
    match l
    case Launch(step) => LaunchBreaksExactly(s, step, n);
    case Stop(step) => StopBreaksExactly(s, step, n);
    case Watch(t, step) => WatchBreaksExactly(s, t, step, n);
    case Reconcile(step) => ReconcileBreaksExactly(s, step, n);
    case _ =>
  }

  lemma StartIsKnown()
    ensures Known(INIT)
  {
  }

  /** From any reachable consistent state, a step of any kind leads to an inconsistent
      one exactly when it is one of those that `Breaks` names. */
  lemma StepBreaksExactly(past: seq<Label>, s: State, l: Label, n: State)
    requires Exec(INIT, past) == Some(s) && Consistent(s) && Next(s, l) == Some(n)
    ensures !Consistent(n) <==> Breaks(s, l)
  {
    hide Next, Inv, StatusOk, DesiredOk, OutcomesOk, StopRecorded, Consistent, Breaks;
    StartIsKnown();
    RunKeepsKnown(INIT, past);
    StepBreaks(s, l, n);
  }

  /** The state is consistent before the run and after each of its steps. */
  predicate ConsistentThroughout(s: State, run: seq<Label>)
    requires Exec(s, run).Some?
    decreases |run|
  {
    Consistent(s) && (run != [] ==> ConsistentThroughout(Next(s, run[0]).value, run[1..]))
  }

  predicate NeverBreaks(s: State, run: seq<Label>)
    requires Exec(s, run).Some?
    decreases |run|
  {
    run != [] ==> !Breaks(s, run[0]) && NeverBreaks(Next(s, run[0]).value, run[1..])
  }

  lemma {:induction false} RunBreaks(s: State, run: seq<Label>)
    requires Known(s) && Consistent(s) && Exec(s, run).Some?
    ensures ConsistentThroughout(s, run) <==> NeverBreaks(s, run)
    decreases |run|
  {
    hide Next, Inv, StatusOk, DesiredOk, OutcomesOk, StopRecorded, Consistent, Breaks;
    if run != [] {
      var n := Next(s, run[0]).value;
      StepBreaks(s, run[0], n);
      StepKeepsKnown(s, run[0], n);
      if Consistent(n) {
        RunBreaks(n, run[1..]);
      }
    }
  }

  /** Over every run from a fresh installation, quiet or not: the database is consistent
      between any two steps exactly when no step of the run breaks it. */
  lemma ConsistentExactly(run: seq<Label>)
    requires Exec(INIT, run).Some?
    ensures ConsistentThroughout(INIT, run) <==> NeverBreaks(INIT, run)
  {
    StartIsKnown();
    RunBreaks(INIT, run);
  }

  // ---------------------------------------------------------------- quiet runs

  predicate Cleaning(p: Phase) {
    p.Recording? || p.Releasing? || p.Saving? || p.Deciding?
  }

  /** A watcher is between taking an exit and scheduling the restart. */
  ghost predicate InCleanup(s: State) {
    exists t <- s.tasks :: Cleaning(s.tasks[t].phase)
  }

  /** The watcher of an instance that has been stopped or replaced. */
  predicate Stale(s: State, t: nat) {
    t in s.tasks && s.tasks[t].gen != s.generation
  }

  ghost predicate Quiet(s: State, l: Label) {
    match l
    case Launch(step) =>
      if step.UserBegin? || step.TimerBegin? then s.op.Idle? && s.handle.None? && !InCleanup(s) else !InCleanup(s)
    case Stop(_) => !InCleanup(s)
    case Watch(t, step) =>
      if step.Take? then Stale(s, t) || (s.op.Idle? && !InCleanup(s))
      else if step.TimerBlocked? then s.op.Idle? && s.handle.None? && !InCleanup(s)
      else true
    case FailOnly(_) => s.op.Idle? && s.handle.None? && !InCleanup(s)
    case _ => true
  }

  ghost predicate QuietRun(s: State, run: seq<Label>)
    decreases |run|
  {
    run == [] || (Quiet(s, run[0]) && Next(s, run[0]).Some? && QuietRun(Next(s, run[0]).value, run[1..]))
  }

  /** What each program point of the operation guarantees about ports and row. */
  predicate PortsAtOp(s: State) {
    match s.op
    case Idle => s.up && s.handle.Some? ==> RowSupervised(s)
    case Launching | Wanted => s.held == {}
    case Reserving(mine) => s.held == mine && RowSupervised(s)
    case Unwinding(mine) => s.held == mine && RowSupervised(s)
    case Dropping(_) => RowSupervised(s)
    case Failing(_) => s.held == {}
    case Spawned(_) => RowSupervised(s)
    case Recorded(_) => s.handle.Some? && RowSupervised(s)
    case Halting => s.handle.Some? ==> RowSupervised(s)
    case Clearing => s.handle.None? && s.held == {}
    case Cleared => s.handle.None? && s.held == {}
    case Killing(_, _) => RowSupervised(s)
    case Killed(_, _) => RowSupervised(s)
    case Closing(_) => s.handle.None? && RowSupervised(s)
    case Freeing => s.handle.None? && RowSupervised(s)
    case Sealing => s.handle.None? && s.held == {}
    case Loaded => s.handle.None? && RowSupervised(s)
    case Vanishing(_) => s.handle.None? && RowSupervised(s)
    case VanishFreeing => s.handle.None? && RowSupervised(s)
    case VanishSaving => s.handle.None? && s.held == {}
  }

  ghost predicate PortsAtTasks(s: State) {
    && (forall t <- s.tasks, u <- s.tasks | Cleaning(s.tasks[t].phase) && Cleaning(s.tasks[u].phase) :: t == u)
    && (forall t <- s.tasks | Cleaning(s.tasks[t].phase) ::
          && s.op.Idle? && s.handle.None?
          && (s.tasks[t].phase.Recording? || s.tasks[t].phase.Releasing? ==> s.held == {} || RowSupervised(s))
          && (s.tasks[t].phase.Saving? || s.tasks[t].phase.Deciding? ==> s.held == {}))
  }

  ghost predicate PortsOk(s: State) {
    && Consistent(s)
    && PortsAtOp(s)
    && PortsAtTasks(s)
    && (!s.up ==> s.op.Idle? && s.handle.None? && s.tasks == map[])
    && (s.up && s.handle.None? && (s.op.Idle? || s.op.Halting?) && !InCleanup(s) ==> s.held == {})
    && (s.up && s.handle.Some? && !s.op.Killed? ==> WasSupervised(s.actual))
    && (InLaunch(s.op) && !s.op.Recorded? ==> s.handle.None?)
    && (Reconciling(s.op) ==> s.tasks == map[])
  }

  lemma BeginKeepsPortsOk(s: State, l: LaunchStep, n: State)
    requires s.up && PortsOk(s) && Quiet(s, Launch(l)) && NextLaunch(s, l) == Some(n)
    requires l.UserBegin? || l.TimerBegin?
    ensures PortsOk(n)
  {
  }

  lemma ReservationKeepsPortsOk(s: State, l: LaunchStep, n: State)
    requires s.up && PortsOk(s) && Quiet(s, Launch(l)) && NextLaunch(s, l) == Some(n)
    requires l.WriteWanted? || l.WriteStarting? || l.ReserveOne? || l.ReserveConflict? || l.RollbackOne?
    ensures PortsOk(n)
  {
  }

  lemma OutcomeKeepsPortsOk(s: State, l: LaunchStep, n: State)
    requires s.up && PortsOk(s) && Quiet(s, Launch(l)) && NextLaunch(s, l) == Some(n)
    requires !l.UserBegin? && !l.TimerBegin?
    requires !l.WriteWanted? && !l.WriteStarting? && !l.ReserveOne? && !l.ReserveConflict? && !l.RollbackOne?
    ensures PortsOk(n)
  {
  }

  lemma LaunchKeepsPortsOk(s: State, l: LaunchStep, n: State)
    requires s.up && PortsOk(s) && Quiet(s, Launch(l)) && NextLaunch(s, l) == Some(n)
    ensures PortsOk(n)
  {
    hide PortsOk, Quiet, NextLaunch;
    match l
    case UserBegin | TimerBegin(_) => BeginKeepsPortsOk(s, l, n);
    case WriteWanted | WriteStarting | ReserveOne | ReserveConflict | RollbackOne(_) => ReservationKeepsPortsOk(s, l, n);
    case _ => OutcomeKeepsPortsOk(s, l, n);
  }

  lemma EarlyStopKeepsPortsOk(s: State, l: StopStep, n: State)
    requires s.up && PortsOk(s) && Quiet(s, Stop(l)) && NextStop(s, l) == Some(n)
    requires l.StopBegin? || l.StopTake? || l.StopClear? || l.StopSettle?
    ensures PortsOk(n)
  {
  }

  lemma LateStopKeepsPortsOk(s: State, l: StopStep, n: State)
    requires s.up && PortsOk(s) && Quiet(s, Stop(l)) && NextStop(s, l) == Some(n)
    requires !l.StopBegin? && !l.StopTake? && !l.StopClear? && !l.StopSettle?
    ensures PortsOk(n)
  {
  }

  lemma StopKeepsPortsOk(s: State, l: StopStep, n: State)
    requires s.up && PortsOk(s) && Quiet(s, Stop(l)) && NextStop(s, l) == Some(n)
    ensures PortsOk(n)
  {
    hide PortsOk, Quiet, NextStop;
    match l
    case StopBegin | StopTake | StopClear | StopSettle => EarlyStopKeepsPortsOk(s, l, n);
    case _ => LateStopKeepsPortsOk(s, l, n);
  }

  lemma StaleTakeKeepsPortsOk(s: State, t: nat, n: State)
    requires s.up && PortsOk(s) && t in s.tasks && s.tasks[t].phase.Watching? && n == Drop(s, t)
    ensures PortsOk(n)
  {
    if u :| u in s.tasks && Cleaning(s.tasks[u].phase) {
      assert u in n.tasks && n.tasks[u] == s.tasks[u];
    }
  }

  lemma TakeKeepsPortsOk(s: State, t: nat, l: WatchStep, n: State)
    requires s.up && PortsOk(s) && Quiet(s, Watch(t, l)) && t in s.tasks && NextWatch(s, t, l) == Some(n)
    requires l.Take? || l.Record? || l.Release? || l.Save?
    ensures PortsOk(n)
  {
    if l.Take? && Stale(s, t) {
      StaleTakeKeepsPortsOk(s, t, n);
    } else if t in n.tasks && Cleaning(n.tasks[t].phase) {
      assert InCleanup(n);
    }
  }

  lemma DecideKeepsPortsOk(s: State, t: nat, clean: bool, n: State)
    requires s.up && PortsOk(s) && t in s.tasks && NextWatch(s, t, Decide(clean)) == Some(n)
    ensures PortsOk(n)
  {
  }

  lemma TimerKeepsPortsOk(s: State, t: nat, l: WatchStep, n: State)
    requires s.up && PortsOk(s) && Quiet(s, Watch(t, l)) && t in s.tasks && NextWatch(s, t, l) == Some(n)
    requires l.Fire? || l.TimerBlocked?
    ensures PortsOk(n)
  {
    if InCleanup(s) && !Cleaning(s.tasks[t].phase) {
      var u :| u in s.tasks && Cleaning(s.tasks[u].phase);
      assert u in n.tasks && n.tasks[u] == s.tasks[u];
    }
  }

  lemma ReconcileKeepsPortsOk(s: State, l: ReconcileStep, n: State)
    requires s.up && PortsOk(s) && NextReconcile(s, l) == Some(n)
    ensures PortsOk(n)
  {
  }

  lemma DaemonKeepsPortsOk(s: State, l: Label, n: State)
    requires PortsOk(s) && Quiet(s, l) && Next(s, l) == Some(n)
    requires l.Exit? || l.Crash? || l.Boot? || l.FailOnly?
    ensures PortsOk(n)
  {
  }

  lemma StepKeepsPortsOk(s: State, l: Label, n: State)
    requires PortsOk(s) && Quiet(s, l) && Next(s, l) == Some(n)
    ensures PortsOk(n)
  {
    match l
    case Launch(step) => LaunchKeepsPortsOk(s, step, n);
    case Stop(step) => StopKeepsPortsOk(s, step, n);
    case Watch(t, Decide(clean)) => DecideKeepsPortsOk(s, t, clean, n);
    case Watch(t, step) =>
      if step.Fire? || step.TimerBlocked? {
        TimerKeepsPortsOk(s, t, step, n);
      } else {
        TakeKeepsPortsOk(s, t, step, n);
      }
    case Reconcile(step) => ReconcileKeepsPortsOk(s, step, n);
    case _ => DaemonKeepsPortsOk(s, l, n);
  }

  lemma {:induction false} QuietRunKeepsPortsOk(s: State, run: seq<Label>)
    requires PortsOk(s) && QuietRun(s, run)
    ensures Exec(s, run).Some? && PortsOk(Exec(s, run).value)
    decreases |run|
  {
    if run != [] {
      var n := Next(s, run[0]).value;
      StepKeepsPortsOk(s, run[0], n);
      QuietRunKeepsPortsOk(n, run[1..]);
    }
  }

  /** After every step of every quiet run, hence between any two writes: a
      persisted state that the next daemon ignores comes without ports. */
  lemma AlwaysConsistent(run: seq<Label>, s: State)
    requires QuietRun(INIT, run) && Exec(INIT, run) == Some(s)
    ensures Consistent(s)
  {
    QuietRunKeepsPortsOk(INIT, run);
  }

  /** The service was adopted with its ports, or no ports are left. */
  predicate Recovered(s: State, n: State) {
    n.held == {} || (s.row.Some? && n.handle.Some? && n.handle == s.row.value.pid && n.held == s.held)
  }

  /** The daemon dies in any state and a new one reconciles: every port has an owner
      afterwards exactly when the state was consistent. */
  lemma RecoveryAfterDeath(s: State, plan: Plan) returns (run: seq<Label>, n: State)
    requires s.up
    ensures Exec(s, run) == Some(n) && n.up && n.op.Idle?
    ensures Recovered(s, n) <==> Consistent(s)
    ensures if RowSupervised(s) && s.row.value.pid.Some? && s.row.value.pid.value in s.alive
            then n.handle == s.row.value.pid && n.held == s.held && n.actual == Running
                 && run == [Crash, Boot, Reconcile(Adopt(plan))]
            else if RowSupervised(s)
            then n.handle.None? && n.held == {} && n.actual == FinalStatus(s.row.value.desired) && n.row == Some(RowOf(n))
                 && run == [Crash, Boot] + VANISH_STEPS
            else n.handle.None? && n.held == s.held && run == [Crash, Boot]
    ensures n.row.Some? == s.row.Some? && (s.row.Some? ==> n.desired == s.row.value.desired)
  {
    DeathAndBoot(s);
    run, n := [Crash, Boot], LoadRow(Die(s));
    if n.op.Loaded? {
      if Adoptable(n) {
        run, n := Then(s, run, n, Reconcile(Adopt(plan)));
      } else {
        ExecAppend(s, run, VANISH_STEPS);
        run := run + VANISH_STEPS;
        n := Vanished(n);
      }
    }
  }

  // ------------------------------------------------------- who takes ports away

  /** In any reachable state, the ports of an instance that keeps running change exactly
      when some watcher releases them. */
  lemma RunningKeepsPortsExactly(past: seq<Label>, s: State, l: Label, n: State)
    requires Exec(INIT, past) == Some(s) && Next(s, l) == Some(n)
    requires IsRunning(s) && IsRunning(n) && s.handle == n.handle
    ensures n.held != s.held <==> l.Watch? && l.watch.Release? && s.held != {}
  {
    ReachableInv(past, s);
    RunningStep(s, l, n);
  }

  lemma RunningStep(s: State, l: Label, n: State)
    requires OpOk(s) && Next(s, l) == Some(n)
    requires IsRunning(s) && IsRunning(n) && s.handle == n.handle
    ensures n.held != s.held <==> l.Watch? && l.watch.Release? && s.held != {}
  {
    match l
    case Watch(t, step) => RunningWatch(s, t, step, n);
    case Launch(_) | Stop(_) | Reconcile(_) => RunningOperation(s, l, n);
    case _ =>
  }

  lemma RunningWatch(s: State, t: nat, l: WatchStep, n: State)
    requires t in s.tasks && NextWatch(s, t, l) == Some(n)
    ensures n.held != s.held <==> l.Release? && s.held != {}
  {
  }

  lemma RunningOperation(s: State, l: Label, n: State)
    requires OpOk(s) && Next(s, l) == Some(n) && (l.Launch? || l.Stop? || l.Reconcile?)
    requires IsRunning(s) && IsRunning(n) && s.handle == n.handle
    ensures n.held == s.held
  {
  }

  /** The run never lets go of the handle, and its process stays alive. */
  predicate KeepsRunning(s: State, run: seq<Label>)
    requires Exec(s, run).Some?
    decreases |run|
  {
    IsRunning(s) && (run != [] ==>
      var n := Next(s, run[0]).value;
      n.handle == s.handle && KeepsRunning(n, run[1..]))
  }

  /** Some run changes the ports of the instance that keeps running. */
  ghost predicate CanLosePorts(s: State) {
    exists run | Exec(s, run).Some? && KeepsRunning(s, run) :: Exec(s, run).value.held != s.held
  }

  /** A watcher is still going to release ports. */
  ghost predicate ReleasePending(s: State) {
    exists t <- s.tasks :: s.tasks[t].phase.Recording? || s.tasks[t].phase.Releasing?
  }

  lemma NothingComesPending(s: State, l: Label, n: State)
    requires Next(s, l) == Some(n) && !ReleasePending(s) && s.handle.Some? && n.handle == s.handle
    ensures !ReleasePending(n)
  {
    match l
    case Watch(t, step) => WatcherStaysCalm(s, t, step, n);
    case Launch(step) => LaunchStaysCalm(s, step, n);
    case Stop(_) | Reconcile(_) => OthersStayCalm(s, l, n);
    case _ =>
  }

  lemma WatcherStaysCalm(s: State, t: nat, l: WatchStep, n: State)
    requires t in s.tasks && NextWatch(s, t, l) == Some(n) && !ReleasePending(s)
    requires s.handle.Some? && n.handle == s.handle
    ensures !ReleasePending(n)
  {
    assert !s.tasks[t].phase.Recording? && !s.tasks[t].phase.Releasing?;
    assert forall u <- n.tasks | u != t :: u in s.tasks && n.tasks[u] == s.tasks[u];
  }

  lemma LaunchStaysCalm(s: State, l: LaunchStep, n: State)
    requires NextLaunch(s, l) == Some(n) && !ReleasePending(s)
    ensures !ReleasePending(n)
  {
    match l
    case TimerBegin(t) => assert n.tasks == s.tasks - {t};
    case Insert(plan) =>
      assert forall t <- n.tasks | t != s.nextTask :: t in s.tasks && n.tasks[t] == s.tasks[t];
    case _ => assert n.tasks == s.tasks;
  }

  lemma OthersStayCalm(s: State, l: Label, n: State)
    requires Next(s, l) == Some(n) && !ReleasePending(s) && (l.Stop? || l.Reconcile?)
    ensures !ReleasePending(n)
  {
    if l.Reconcile? && l.reconcile.Adopt? {
      assert forall t <- n.tasks | t != s.nextTask :: t in s.tasks && n.tasks[t] == s.tasks[t];
    } else {
      assert n.tasks == s.tasks;
    }
  }

  lemma {:induction false} NothingIsLost(s: State, run: seq<Label>)
    requires Inv(s) && Exec(s, run).Some? && KeepsRunning(s, run)
    requires s.held == {} || !ReleasePending(s)
    ensures Exec(s, run).value.held == s.held
    decreases |run|
  {
    hide Next, WatchersOk, RecordsOk;
    if run != [] {
      var n := Next(s, run[0]).value;
      StepKeepsInv(s, run[0], n);
      StepLosesNothing(s, run[0], n);
      NothingIsLost(n, run[1..]);
    }
  }

  lemma StepLosesNothing(s: State, l: Label, n: State)
    requires Inv(s) && Next(s, l) == Some(n) && IsRunning(s) && IsRunning(n) && n.handle == s.handle
    requires s.held == {} || !ReleasePending(s)
    ensures n.held == s.held && (n.held == {} || !ReleasePending(n))
  {
    RunningStep(s, l, n);
    if !ReleasePending(s) {
      NothingComesPending(s, l, n);
    }
  }

  /** The watcher goes on and releases the ports. */
  lemma PendingReleaseHappens(s: State, t: nat) returns (run: seq<Label>)
    requires s.up && IsRunning(s) && t in s.tasks && (s.tasks[t].phase.Recording? || s.tasks[t].phase.Releasing?)
    ensures Exec(s, run).Some? && KeepsRunning(s, run) && Exec(s, run).value.held == {}
    decreases if s.tasks[t].phase.Recording? then 1 else 0
  {
    if s.tasks[t].phase.Recording? {
      var m := Next(s, Watch(t, Record)).value;
      var rest := PendingReleaseHappens(m, t);
      run := [Watch(t, Record)] + rest;
      assert run[1..] == rest;
    } else {
      run := [Watch(t, Release)];
    }
  }

  /** In any reachable state, an instance can lose its ports while it keeps running
      exactly when it has some and a watcher has yet to release those of an instance
      that has exited. */
  lemma CanLosePortsExactly(past: seq<Label>, s: State)
    requires Exec(INIT, past) == Some(s) && IsRunning(s)
    ensures CanLosePorts(s) <==> s.held != {} && ReleasePending(s)
  {
    ReachableInv(past, s);
    if s.held != {} && ReleasePending(s) {
      var t :| t in s.tasks && (s.tasks[t].phase.Recording? || s.tasks[t].phase.Releasing?);
      var run := PendingReleaseHappens(s, t);
    } else {
      forall run | Exec(s, run).Some? && KeepsRunning(s, run) ensures Exec(s, run).value.held == s.held {
        NothingIsLost(s, run);
      }
    }
  }

  /** In quiet runs no watcher does. */
  lemma QuietRunningKeepsPorts(past: seq<Label>, s: State, l: Label, n: State)
    requires QuietRun(INIT, past) && Exec(INIT, past) == Some(s) && Next(s, l) == Some(n)
    requires IsRunning(s) && IsRunning(n) && s.handle == n.handle
    ensures n.held == s.held
  {
    RunningKeepsPortsExactly(past, s, l, n);
    QuietRunKeepsPortsOk(INIT, past);
    NobodyReleases(s);
  }

  lemma NobodyReleases(s: State)
    requires PortsOk(s) && s.handle.Some?
    ensures forall t <- s.tasks :: !s.tasks[t].phase.Releasing?
  {
    assert forall t <- s.tasks :: s.tasks[t].phase.Releasing? ==> Cleaning(s.tasks[t].phase);
  }

  // ---------------------------------------------------- why runs must be quiet

  /** After a quiet run, recording a start failure between two operations keeps
      consistency for a service without a handle, and for one with a handle exactly when
      it holds no ports. */
  lemma FailureRecordedExactly(past: seq<Label>, s: State, failure: Status, n: State)
    requires QuietRun(INIT, past) && Exec(INIT, past) == Some(s) && s.up && s.op.Idle? && !InCleanup(s)
    requires Next(s, FailOnly(failure)) == Some(n)
    ensures Consistent(n) <==> s.handle.None? || s.held == {}
  {
    QuietRunKeepsPortsOk(INIT, past);
  }

  /** A stop that begins after the watcher has taken an exit and before it has released
      the ports: the row says CRASHED in front of reserved ports.  If the daemon dies
      then, the ports stay reserved for a service that nobody supervises. */
  lemma StopBeforeRelease(plan: Plan) returns (past: seq<Label>, s: State, n: State)
    ensures past == [Boot] + LaunchSteps(plan) + [Exit(0), Watch(0, Take(false)), Stop(StopBegin)]
    ensures Exec(INIT, past) == Some(s) && !Consistent(s)
    ensures Exec(s, [Crash, Boot]) == Some(n) && n.up && n.op.Idle? && n.handle.None? && n.held != {}
  {
    hide Exec;
    past, s := FirstLaunch(plan);
    past, s := Then(INIT, past, s, Exit(0));
    past, s := Then(INIT, past, s, Watch(0, Take(false)));
    past, s := Then(INIT, past, s, Stop(StopBegin));
    assert 0 in s.held;
    DeathAndBoot(s);
    n := LoadRow(Die(s));
    assert past == [Boot] + LaunchSteps(plan) + [Exit(0), Watch(0, Take(false)), Stop(StopBegin)];
  }

  /** A dependency failure recorded while a launch holds ports. */
  lemma FailureDuringLaunch(failure: Status) returns (past: seq<Label>, s: State, n: State)
    requires IsFailure(failure)
    ensures past == [Boot] + ANNOUNCE_STEPS + [Launch(ReserveOne)] && Exec(INIT, past) == Some(s) && Consistent(s)
    ensures Next(s, FailOnly(failure)) == Some(n) && !Consistent(n)
  {
    var booted;
    NoSteps(INIT);
    past, booted := Then(INIT, [], INIT, Boot);
    s := PreparedLaunch(booted);
    ExecAppend(INIT, past, ANNOUNCE_STEPS + [Launch(ReserveOne)]);
    past := past + (ANNOUNCE_STEPS + [Launch(ReserveOne)]);
    assert past == [Boot] + ANNOUNCE_STEPS + [Launch(ReserveOne)];
    n := Next(s, FailOnly(failure)).value;
    assert 0 in s.held;
  }

  /** A dependency failure recorded for a running service: its ports are reserved behind
      a row that says BLOCKED. */
  lemma FailureOfRunningService(plan: Plan) returns (past: seq<Label>, s: State, n: State)
    ensures past == [Boot] + LaunchSteps(plan) && Exec(INIT, past) == Some(s) && IsRunning(s) && s.held != {}
    ensures Next(s, FailOnly(Blocked)) == Some(n) && IsRunning(n) && !Consistent(n)
  {
    past, s := FirstLaunch(plan);
    n := Next(s, FailOnly(Blocked)).value;
    assert 0 in s.held;
  }

  /** A launch that starts after an exit that the watcher has not yet accounted
      for, and that fails before it has reserved anything, breaks consistency
      exactly when ports of the previous instance are still reserved. */
  lemma LaunchFailsExactly(s: State, failure: Status) returns (run: seq<Label>, n: State)
    requires s.up && s.op.Idle? && !IsRunning(s) && IsFailure(failure)
    ensures run == ANNOUNCE_STEPS + [Launch(GiveUp(failure)), Launch(WriteFailure)]
    ensures Exec(s, run) == Some(n) && (Consistent(n) <==> s.held == {})
  {
    n := AnnouncedLaunch(s);
    run := ANNOUNCE_STEPS;
    run, n := Then(s, run, n, Launch(GiveUp(failure)));
    run, n := Then(s, run, n, Launch(WriteFailure));
  }

  /** A run from a fresh installation in which the tail of a late watcher takes away the
      ports of the instance that has been started since: crash, the watcher takes the
      exit, the user starts again, the watcher goes on. */
  lemma LateReleaseStripsNewInstance(plan: Plan) returns (past: seq<Label>, s: State, n: State)
    ensures Exec(INIT, past) == Some(s) && IsRunning(s) && s.op.Idle? && s.actual == Running && s.held != {}
    ensures Next(s, Watch(0, Release)) == Some(n) && IsRunning(n) && n.handle == s.handle && n.held == {}
  {
    hide Exec;
    past, s := FirstInstanceExits(plan);
    past, s := Then(INIT, past, s, Watch(0, Take(false)));
    var relaunched := SuccessfulLaunch(s, plan);
    ExecAppend(INIT, past, LaunchSteps(plan));
    var port := s.nextPort;
    past, s := past + LaunchSteps(plan), relaunched;
    past, s := Then(INIT, past, s, Watch(0, Record));
    assert port in s.held;
    n := Next(s, Watch(0, Release)).value;
  }
}
