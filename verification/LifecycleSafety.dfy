/**
 What every reachable state of the lifecycle keeps, whatever the interleaving:
 watchers may fire arbitrarily late, timers may expire at any time, and the
 daemon may die between any two steps.
 */
module LifecycleSafety {
  import opened Wrappers
  import opened Lifecycle

  // --------------------------------------------------------- the invariant

  ghost predicate Fresh(s: State) {
    && (s.instance.Some? ==> s.instance.value < s.nextRun)
    && (forall r <- s.alive :: r < s.nextRun)
    && (forall r <- s.instances :: r < s.nextRun)
    && (forall r <- s.finished :: r < s.nextRun)
    && (forall r <- s.killed :: r < s.nextRun)
    && (forall r <- s.lost :: r < s.nextRun)
    && (s.row.Some? && s.row.value.instance.Some? ==> s.row.value.instance.value < s.nextRun)
  }

  ghost predicate TasksOk(s: State) {
    && (forall t <- s.tasks :: t < s.nextTask && s.tasks[t].gen <= s.generation && s.tasks[t].run < s.nextRun)
    && (forall t <- s.tasks | !s.tasks[t].phase.Watching? :: s.tasks[t].run !in s.alive)
    && (forall t <- s.tasks | s.tasks[t].phase.Recording? ::
          s.tasks[t].phase.instance == Some(s.tasks[t].run) && s.tasks[t].run !in s.finished)
    && (forall t <- s.tasks, u <- s.tasks | t != u :: s.tasks[t].gen != s.tasks[u].gen && s.tasks[t].run != s.tasks[u].run)
  }

  /** The watcher that carries the current generation belongs to the current
      handle until it has taken the exit; then there is no handle. */
  ghost predicate CurrentTask(s: State) {
    forall t <- s.tasks | s.tasks[t].gen == s.generation ::
      !Invalidated(s.op) && s.handle == if s.tasks[t].phase.Watching? then Some(s.tasks[t].run) else None
  }

  /** No watcher has taken the exit of run `r`. */
  ghost predicate Untaken(s: State, r: nat) {
    forall t <- s.tasks | s.tasks[t].run == r :: s.tasks[t].phase.Watching?
  }

  ghost predicate NoTask(s: State, r: nat) {
    forall t <- s.tasks :: s.tasks[t].run != r
  }

  ghost predicate HandleOk(s: State) {
    s.handle.Some? ==>
      var r := s.handle.value;
      && s.instance == Some(r)
      && r !in s.lost && r !in s.finished
      && (r in s.instances ==> s.instances[r] == Running)
      && Untaken(s, r)
  }

  ghost predicate OpOk(s: State) {
    && (InLaunch(s.op) && !s.op.Recorded? ==> !IsRunning(s))
    && (s.op.Spawned? ==>
          var r := s.op.run;
          && r < s.nextRun && r !in s.lost && r !in s.finished && r !in s.killed && r !in s.instances
          && s.handle != Some(r) && NoTask(s, r))
    && (s.op.Recorded? ==>
          s.handle == Some(s.op.run) && NoTask(s, s.op.run) && s.op.run !in s.killed && s.op.run !in s.instances)
    && (s.op.Killing? || s.op.Killed? ==> s.handle == Some(s.op.run) && s.op.instance == Some(s.op.run))
    && (s.op.Killed? ==> s.op.run !in s.alive && s.op.run in s.killed)
    && (InStop(s.op) && !s.op.Halting? && !s.op.Killing? && !s.op.Killed? ==> s.handle.None?)
    && (s.op.Closing? ==>
          && s.op.instance.Some?
          && s.op.instance.value !in s.finished && s.op.instance.value !in s.alive
          && s.op.instance.value < s.nextRun && Untaken(s, s.op.instance.value))
    && (Reconciling(s.op) ==>
          s.tasks == map[] && s.killed == {} && s.handle.None? && s.row.Some?)
    && (s.op.Loaded? || s.op.Vanishing? ==> s.finished == {})
    && (s.op.Loaded? ==> WasSupervised(s.row.value.actual) && s.instance == s.row.value.instance)
    && (s.op.Vanishing? && s.op.instance.Some? ==> s.op.instance.value < s.nextRun)
    && (!s.up ==> s.op.Idle? && s.tasks == map[] && s.finished == {} && s.killed == {} && s.handle.None?)
  }

  /** Every live process is lost, or some part of the daemon or the row knows it. */
  ghost predicate Tracked(s: State) {
    forall p <- s.alive ::
      || p in s.lost
      || s.handle == Some(p)
      || s.op == Spawned(p)
      || ((!s.up || s.op.Loaded?) && Findable(s.row) == Some(p))
  }

  ghost predicate RowOk(s: State) {
    && (s.row.Some? && s.row.value.pid.Some? ==>
          && s.row.value.instance == s.row.value.pid
          && (WasSupervised(s.row.value.actual) ==> s.row.value.pid.value !in s.lost))
    && (forall p <- s.alive | p !in s.lost && p in s.instances :: s.instances[p] == Running)
  }

  ghost predicate KilledOk(s: State) {
    forall r <- s.killed ::
      && r !in s.alive
      && (r in s.instances ==> s.instances[r] != Crashed)
      && (s.handle == Some(r) ==> s.op.Killed?)
      && (forall t <- s.tasks | s.tasks[t].run == r :: s.tasks[t].phase.Watching? && s.tasks[t].gen != s.generation)
  }

  /** Watchers and the handle. */
  ghost predicate WatchersOk(s: State) {
    Fresh(s) && TasksOk(s) && CurrentTask(s) && HandleOk(s)
  }

  /** Operation, processes and records. */
  ghost predicate RecordsOk(s: State) {
    OpOk(s) && Tracked(s) && RowOk(s) && KilledOk(s)
  }

  ghost predicate Inv(s: State) {
    WatchersOk(s) && RecordsOk(s)
  }

  // ------------------------------------------------- one group of steps each

  /** The operation advances and perhaps writes a state, the ports or the row. */
  lemma OperationMoves(s: State, n: State)
    requires s.up && Inv(s)
    requires n == s.(desired := n.desired, actual := n.actual, held := n.held, row := n.row, nextPort := n.nextPort, op := n.op)
    requires n.row == s.row || n.row == Some(RowOf(n))
    requires !Reconciling(s.op) && OpOk(n)
    requires s.op.Spawned? || s.op.Killed? ==> n.op == s.op
    requires Invalidated(n.op) ==> Invalidated(s.op)
    ensures Inv(n)
  {
  }

  /** The operation bumps the generation, so no watcher is current any more. */
  lemma InvalidateKeepsInv(s: State, n: State)
    requires s.up && Inv(s) && (s.op.Idle? || s.op.Halting?)
    requires n == s.(generation := s.generation + 1, restarts := n.restarts, actual := n.actual, op := n.op)
    requires OpOk(n) && !Reconciling(n.op) && !n.op.Spawned? && !n.op.Killed?
    ensures Inv(n)
  {
  }

  lemma BeginKeepsInv(s: State, isRestart: bool)
    requires s.up && Inv(s) && s.op.Idle? && !IsRunning(s)
    ensures Inv(Begin(s, isRestart))
  {
    InvalidateKeepsInv(s, Begin(s, isRestart));
  }

  lemma SpawnKeepsInv(s: State, n: State)
    requires s.up && Inv(s) && NextLaunch(s, Spawn) == Some(n)
    ensures Inv(n)
  {
  }

  lemma CommitKeepsInv(s: State, n: State)
    requires s.up && Inv(s) && NextLaunch(s, Commit) == Some(n)
    ensures Inv(n)
  {
  }

  lemma InsertKeepsInvWatchers(s: State, plan: Plan, n: State)
    requires s.up && Inv(s) && NextLaunch(s, Insert(plan)) == Some(n)
    ensures WatchersOk(n)
  {
  }

  lemma InsertKeepsInvRecords(s: State, plan: Plan, n: State)
    requires s.up && Inv(s) && NextLaunch(s, Insert(plan)) == Some(n)
    ensures RecordsOk(n)
  {
  }

  lemma InsertKeepsInv(s: State, plan: Plan, n: State)
    requires s.up && Inv(s) && NextLaunch(s, Insert(plan)) == Some(n)
    ensures Inv(n)
  {
    hide WatchersOk, RecordsOk;
    InsertKeepsInvWatchers(s, plan, n);
    InsertKeepsInvRecords(s, plan, n);
  }

  lemma LaunchMovesKeepInv(s: State, l: LaunchStep, n: State)
    requires s.up && Inv(s) && NextLaunch(s, l) == Some(n)
    requires !l.UserBegin? && !l.TimerBegin? && !l.Spawn? && !l.Commit? && !l.Insert?
    ensures Inv(n)
  {
    OperationMoves(s, n);
  }

  lemma StopMovesKeepInv(s: State, l: StopStep, n: State)
    requires s.up && Inv(s) && NextStop(s, l) == Some(n)
    requires !l.StopTake? && !l.Kill? && !l.KillTake? && !l.StopRecord?
    ensures Inv(n)
  {
    OperationMoves(s, n);
  }

  lemma StopTakeKeepsInv(s: State, n: State)
    requires s.up && Inv(s) && NextStop(s, StopTake) == Some(n)
    ensures Inv(n)
  {
    InvalidateKeepsInv(s, n);
  }

  lemma KillKeepsInv(s: State, n: State)
    requires s.up && Inv(s) && NextStop(s, Kill) == Some(n)
    ensures Inv(n)
  {
  }

  lemma KillTakeKeepsInv(s: State, n: State)
    requires s.up && Inv(s) && NextStop(s, KillTake) == Some(n)
    ensures Inv(n)
  {
  }

  lemma FinishKeepsInvWatchers(s: State, i: nat, status: Status)
    requires s.up && Inv(s) && i < s.nextRun && !Reconciling(s.op)
    requires i !in s.alive && s.handle != Some(i) && s.op != Spawned(i) && s.op != Closing(Some(i))
    requires forall t <- s.tasks | s.tasks[t].run == i :: !s.tasks[t].phase.Recording?
    requires i in s.killed ==> status != Crashed
    ensures WatchersOk(Finish(s, Some(i), status))
  {
  }

  lemma FinishKeepsInvRecords(s: State, i: nat, status: Status)
    requires s.up && Inv(s) && i < s.nextRun && !Reconciling(s.op)
    requires i !in s.alive && s.handle != Some(i) && s.op != Spawned(i) && s.op != Closing(Some(i))
    requires forall t <- s.tasks | s.tasks[t].run == i :: !s.tasks[t].phase.Recording?
    requires i in s.killed ==> status != Crashed
    ensures RecordsOk(Finish(s, Some(i), status))
  {
  }

  /** The record of an instance that nobody else will finish is written. */
  lemma FinishKeepsInv(s: State, i: nat, status: Status)
    requires s.up && Inv(s) && i < s.nextRun && !Reconciling(s.op)
    requires i !in s.alive && s.handle != Some(i) && s.op != Spawned(i) && s.op != Closing(Some(i))
    requires forall t <- s.tasks | s.tasks[t].run == i :: !s.tasks[t].phase.Recording?
    requires i in s.killed ==> status != Crashed
    ensures Inv(Finish(s, Some(i), status))
  {
    hide WatchersOk, RecordsOk;
    FinishKeepsInvWatchers(s, i, status);
    FinishKeepsInvRecords(s, i, status);
  }

  lemma StopRecordKeepsInv(s: State, n: State)
    requires s.up && Inv(s) && NextStop(s, StopRecord) == Some(n)
    ensures Inv(n)
  {
    var m := s.(op := Freeing);
    OperationMoves(s, m);
    FinishKeepsInv(m, s.op.instance.value, Stopped);
  }

  lemma StaleTakeKeepsInv(s: State, t: nat, n: State)
    requires s.up && Inv(s) && t in s.tasks && s.tasks[t].gen != s.generation && n == Drop(s, t)
    ensures Inv(n)
  {
  }

  lemma CurrentTakeWatchers(s: State, t: nat, stable: bool, n: State)
    requires s.up && Inv(s) && t in s.tasks && NextWatch(s, t, Take(stable)) == Some(n)
    requires s.tasks[t].gen == s.generation
    ensures WatchersOk(n)
  {
    assert s.handle == Some(s.tasks[t].run);
    assert forall u <- n.tasks | u != t :: n.tasks[u] == s.tasks[u];
  }

  lemma CurrentTakeRecords(s: State, t: nat, stable: bool, n: State)
    requires s.up && Inv(s) && t in s.tasks && NextWatch(s, t, Take(stable)) == Some(n)
    requires s.tasks[t].gen == s.generation
    ensures RecordsOk(n)
  {
    assert s.handle == Some(s.tasks[t].run);
    assert forall u <- n.tasks | u != t :: n.tasks[u] == s.tasks[u];
  }

  lemma TakeKeepsInv(s: State, t: nat, stable: bool, n: State)
    requires s.up && Inv(s) && t in s.tasks && NextWatch(s, t, Take(stable)) == Some(n)
    ensures Inv(n)
  {
    hide WatchersOk, RecordsOk;
    if s.tasks[t].gen != s.generation {
      StaleTakeKeepsInv(s, t, n);
    } else {
      CurrentTakeWatchers(s, t, stable, n);
      CurrentTakeRecords(s, t, stable, n);
    }
  }

  lemma TaskMovesWatchers(s: State, t: nat, n: State)
    requires s.up && Inv(s) && t in s.tasks && !s.tasks[t].phase.Watching?
    requires n == s.(actual := n.actual, restarts := n.restarts, held := n.held, row := n.row, tasks := n.tasks)
    requires n.row == s.row || (n.row == Some(RowOf(n)) && !Reconciling(s.op))
    requires || n.tasks == s.tasks - {t}
             || exists p: Phase :: n.tasks == s.tasks[t := s.tasks[t].(phase := p)] && !p.Watching? && !p.Recording?
    ensures WatchersOk(n)
  {
    assert forall u <- n.tasks :: u in s.tasks && n.tasks[u] == s.tasks[u].(phase := n.tasks[u].phase)
                                  && (n.tasks[u].phase == s.tasks[u].phase || u == t);
    assert forall u <- n.tasks :: n.tasks[u].phase.Watching? == s.tasks[u].phase.Watching?;
  }

  lemma TaskMovesRecords(s: State, t: nat, n: State)
    requires s.up && Inv(s) && t in s.tasks && !s.tasks[t].phase.Watching?
    requires n == s.(actual := n.actual, restarts := n.restarts, held := n.held, row := n.row, tasks := n.tasks)
    requires n.row == s.row || (n.row == Some(RowOf(n)) && !Reconciling(s.op))
    requires || n.tasks == s.tasks - {t}
             || exists p: Phase :: n.tasks == s.tasks[t := s.tasks[t].(phase := p)] && !p.Watching? && !p.Recording?
    ensures RecordsOk(n)
  {
    assert forall u <- n.tasks :: u in s.tasks && n.tasks[u] == s.tasks[u].(phase := n.tasks[u].phase)
                                  && (n.tasks[u].phase == s.tasks[u].phase || u == t);
    assert forall u <- n.tasks :: n.tasks[u].phase.Watching? == s.tasks[u].phase.Watching?;
  }

  /** A watcher past its first two phases only advances or ends, and perhaps
      writes a status, the attempt counter, the ports or the row. */
  lemma TaskMoves(s: State, t: nat, n: State)
    requires s.up && Inv(s) && t in s.tasks && !s.tasks[t].phase.Watching?
    requires n == s.(actual := n.actual, restarts := n.restarts, held := n.held, row := n.row, tasks := n.tasks)
    requires n.row == s.row || (n.row == Some(RowOf(n)) && !Reconciling(s.op))
    requires || n.tasks == s.tasks - {t}
             || exists p: Phase :: n.tasks == s.tasks[t := s.tasks[t].(phase := p)] && !p.Watching? && !p.Recording?
    ensures Inv(n)
  {
    hide WatchersOk, RecordsOk;
    TaskMovesWatchers(s, t, n);
    TaskMovesRecords(s, t, n);
  }

  lemma RecordKeepsInv(s: State, t: nat, n: State)
    requires s.up && Inv(s) && t in s.tasks && NextWatch(s, t, Record) == Some(n)
    ensures Inv(n)
  {
    var task := s.tasks[t];
    assert !Reconciling(s.op);
    var m := InPhase(s, t, Releasing(task.phase.wanted));
    TaskMoves(s, t, m);
    FinishKeepsInv(m, task.run, FinalStatus(task.phase.wanted));
  }

  lemma TailKeepsInv(s: State, t: nat, l: WatchStep, n: State)
    requires s.up && Inv(s) && t in s.tasks && NextWatch(s, t, l) == Some(n)
    requires l.Release? || l.Save?
    ensures Inv(n)
  {
    assert !Reconciling(s.op);
    TaskMoves(s, t, n);
  }

  lemma TimerKeepsInv(s: State, t: nat, l: WatchStep, n: State)
    requires s.up && Inv(s) && t in s.tasks && NextWatch(s, t, l) == Some(n)
    requires l.Decide? || l.Fire? || l.TimerBlocked?
    ensures Inv(n)
  {
    assert !Reconciling(s.op);
    TaskMoves(s, t, n);
  }

  lemma AdoptKeepsInv(s: State, plan: Plan, n: State)
    requires s.up && Inv(s) && NextReconcile(s, Adopt(plan)) == Some(n)
    ensures Inv(n)
  {
  }

  lemma VanishKeepsInv(s: State, l: ReconcileStep, n: State)
    requires s.up && Inv(s) && NextReconcile(s, l) == Some(n) && !l.Adopt?
    ensures Inv(n)
  {
  }

  lemma ExitKeepsInv(s: State, run: nat)
    requires Inv(s)
    ensures Inv(s.(alive := s.alive - {run}))
  {
  }

  lemma DieKeepsInv(s: State)
    requires s.up && Inv(s)
    ensures Inv(Die(s))
  {
  }

  lemma BootKeepsInv(s: State)
    requires !s.up && Inv(s)
    ensures Inv(LoadRow(s))
  {
  }

  lemma TimerBeginKeepsInv(s: State, t: nat, n: State)
    requires s.up && Inv(s) && NextLaunch(s, TimerBegin(t)) == Some(n)
    ensures Inv(n)
  {
    assert !Reconciling(s.op);
    TaskMoves(s, t, Drop(s, t));
    if !IsRunning(s) {
      BeginKeepsInv(Drop(s, t), true);
    }
  }

  lemma LaunchKeepsInv(s: State, l: LaunchStep, n: State)
    requires s.up && Inv(s) && NextLaunch(s, l) == Some(n)
    ensures Inv(n)
  {
    match l
    case UserBegin => BeginKeepsInv(s, false);
    case TimerBegin(t) => TimerBeginKeepsInv(s, t, n);
    case Spawn => SpawnKeepsInv(s, n);
    case Commit => CommitKeepsInv(s, n);
    case Insert(plan) => InsertKeepsInv(s, plan, n);
    case _ => LaunchMovesKeepInv(s, l, n);
  }

  lemma StopKeepsInv(s: State, l: StopStep, n: State)
    requires s.up && Inv(s) && NextStop(s, l) == Some(n)
    ensures Inv(n)
  {
    hide WatchersOk, RecordsOk;
    match l
    case StopTake => StopTakeKeepsInv(s, n);
    case Kill => KillKeepsInv(s, n);
    case KillTake => KillTakeKeepsInv(s, n);
    case StopRecord => StopRecordKeepsInv(s, n);
    case _ => StopMovesKeepInv(s, l, n);
  }

  lemma WatchKeepsInv(s: State, t: nat, l: WatchStep, n: State)
    requires s.up && Inv(s) && t in s.tasks && NextWatch(s, t, l) == Some(n)
    ensures Inv(n)
  {
    hide WatchersOk, RecordsOk;
    match l
    case Take(stable) => TakeKeepsInv(s, t, stable, n);
    case Record => RecordKeepsInv(s, t, n);
    case Release | Save => TailKeepsInv(s, t, l, n);
    case _ => TimerKeepsInv(s, t, l, n);
  }

  lemma StepKeepsInv(s: State, l: Label, n: State)
    requires Inv(s) && Next(s, l) == Some(n)
    ensures Inv(n)
  {
    match l
    case Launch(step) => LaunchKeepsInv(s, step, n);
    case Stop(step) => StopKeepsInv(s, step, n);
    case Watch(t, step) => WatchKeepsInv(s, t, step, n);
    case Reconcile(Adopt(plan)) => AdoptKeepsInv(s, plan, n);
    case Reconcile(step) => VanishKeepsInv(s, step, n);
    case Exit(run) => ExitKeepsInv(s, run);
    case FailOnly(_) => OperationMoves(s, n);
    case Crash => DieKeepsInv(s);
    case Boot => BootKeepsInv(s);
  }

  lemma {:induction false} RunKeepsInv(s: State, run: seq<Label>)
    requires Inv(s) && Exec(s, run).Some?
    ensures Inv(Exec(s, run).value)
    decreases |run|
  {
    if run != [] {
      var n := Next(s, run[0]).value;
      StepKeepsInv(s, run[0], n);
      RunKeepsInv(n, run[1..]);
    }
  }

  /** Every state that a fresh installation can reach keeps the invariant. */
  lemma ReachableInv(run: seq<Label>, s: State)
    requires Exec(INIT, run) == Some(s)
    ensures Inv(s)
  {
    RunKeepsInv(INIT, run);
  }

  // ----------------------------------------------------------- the theorems

  /** At most one watcher carries the current generation, and it watches the
      current handle. */
  lemma OneCurrentWatcher(run: seq<Label>, s: State, t: nat, u: nat)
    requires Exec(INIT, run) == Some(s)
    requires t in s.tasks && s.tasks[t].gen == s.generation && s.tasks[t].phase.Watching?
    requires u in s.tasks && s.tasks[u].gen == s.generation
    ensures t == u && s.handle == Some(s.tasks[t].run)
  {
    ReachableInv(run, s);
  }

  /** Two live processes of one service: only if a daemon died without a trace
      of one of them. */
  lemma OneLiveProcess(run: seq<Label>, s: State, p: nat, q: nat)
    requires Exec(INIT, run) == Some(s)
    requires p in s.alive && q in s.alive && p !in s.lost && q !in s.lost
    ensures p == q
  {
    ReachableInv(run, s);
  }

  /** No step finishes an instance that this daemon has finished before. */
  lemma InstanceFinishedOnce(run: seq<Label>, s: State, l: Label)
    requires Exec(INIT, run) == Some(s) && Next(s, l).Some?
    ensures l == Stop(StopRecord) && s.op.instance.Some? ==> s.op.instance.value !in s.finished
    ensures l == Reconcile(VanishRecord) && s.op.instance.Some? ==> s.op.instance.value !in s.finished
    ensures l.Watch? && l.watch.Record? ==>
              s.tasks[l.task].phase.instance == Some(s.tasks[l.task].run) && s.tasks[l.task].run !in s.finished
  {
    ReachableInv(run, s);
  }

  /** An instance that stopInstance ended is dead, is never recorded CRASHED by
      this daemon, and its watcher neither takes the exit nor reaches the
      restart policy: the next thing that watcher does is end. */
  lemma StopIsNeverACrash(run: seq<Label>, s: State, r: nat)
    requires Exec(INIT, run) == Some(s) && r in s.killed
    ensures r !in s.alive && (r in s.instances ==> s.instances[r] != Crashed)
    ensures forall t <- s.tasks | s.tasks[t].run == r ::
              s.tasks[t].phase.Watching? && (forall stable: bool :: Next(s, Watch(t, Take(stable))) == Some(Drop(s, t)))
  {
    ReachableInv(run, s);
  }
}
