/**
 What the death of a daemon does to the recorded outcome of an instance.

 Within one daemon an instance is finished once.  Reconciliation finishes the
 instance named by the row again; this module says when that changes history.
 */
module InstanceHistory {
  import opened Wrappers
  import opened Lifecycle
  import opened Runs
  import opened LifecycleSafety
  import opened StopWins

  /** The record of the instance that the row names agrees with what the next
      daemon would write for a vanished service. */
  ghost predicate OutcomeAgrees(row: Row, instances: map<nat, Status>) {
    row.instance.Some? && row.instance.value in instances ==>
      instances[row.instance.value] in {Running, FinalStatus(row.desired)}
  }

  /** A launch between persisting STARTING and its outcome. */
  predicate Preparing(op: Op) {
    op.Reserving? || op.Unwinding? || op.Dropping? || op.Failing? || op.Spawned?
  }

  /** The row of a service that runs or is being stopped. */
  predicate RowOfInstance(s: State) {
    RowSupervised(s) && s.row.value.actual != Starting
  }

  /** The actual state in memory is one that a program point allows. */
  predicate StatusOk(s: State) {
    && (!s.up ==> !WasSupervised(s.actual))
    && (s.up && s.actual == Starting ==> Preparing(s.op))
    && (Preparing(s.op) ==> s.actual == Starting || !WasSupervised(s.actual))
    && (s.up && s.handle.None? && !Reconciling(s.op) && !Preparing(s.op) ==> !WasSupervised(s.actual))
    && (s.op.Failing? || s.op.Dropping? ==> IsFailure(s.op.failure))
    && (s.op.VanishSaving? || s.op.VanishFreeing? || s.op.Vanishing? ==> !WasSupervised(s.actual))
  }

  /** The desired state in memory is that of the row. */
  predicate DesiredOk(s: State) {
    && (s.up && s.row.Some? ==> s.row.value.desired == s.desired)
    && (InLaunch(s.op) && !s.op.Launching? ==> s.desired == WantRunning)
    && (s.row.Some? && s.row.value.actual == Starting ==> s.row.value.desired == WantRunning)
  }

  ghost predicate OutcomesOk(s: State) {
    && (forall i <- s.instances :: s.instances[i] in {Running, Stopped, Crashed})
    && (s.op.Vanishing? ==>
          s.row.Some? && s.op.instance == s.row.value.instance && s.actual == FinalStatus(s.row.value.desired))
    && (RowOfInstance(s) ==> OutcomeAgrees(s.row.value, s.instances))
    && (forall t <- s.tasks | s.tasks[t].phase.Recording? ::
          RowOfInstance(s) && s.row.value.instance == s.tasks[t].phase.instance ==>
            s.row.value.desired == s.tasks[t].phase.wanted)
  }

  ghost predicate HistoryOk(s: State) {
    StatusOk(s) && DesiredOk(s) && OutcomesOk(s)
  }

  /** Everything the proof rests on. */
  ghost predicate Known(s: State) {
    Inv(s) && StopRecorded(s) && HistoryOk(s)
  }

  // -------------------------------------------------------------- status and desired

  lemma LaunchKeepsStatus(s: State, l: LaunchStep, n: State)
    requires s.up && StatusOk(s) && DesiredOk(s) && NextLaunch(s, l) == Some(n)
    ensures StatusOk(n) && DesiredOk(n)
  {
  }

  lemma StopKeepsStatus(s: State, l: StopStep, n: State)
    requires s.up && StatusOk(s) && DesiredOk(s) && OpOk(s) && NextStop(s, l) == Some(n)
    ensures StatusOk(n) && DesiredOk(n)
  {
  }

  lemma TakeKeepsStatus(s: State, t: nat, stable: bool, n: State)
    requires s.up && StatusOk(s) && DesiredOk(s) && OpOk(s) && CurrentTask(s)
    requires t in s.tasks && NextWatch(s, t, Take(stable)) == Some(n)
    ensures StatusOk(n) && DesiredOk(n)
  {
  }

  lemma TailKeepsStatus(s: State, t: nat, l: WatchStep, n: State)
    requires s.up && StatusOk(s) && DesiredOk(s) && OpOk(s) && t in s.tasks && NextWatch(s, t, l) == Some(n) && !l.Take?
    ensures StatusOk(n) && DesiredOk(n)
  {
  }

  lemma WatchKeepsStatus(s: State, t: nat, l: WatchStep, n: State)
    requires s.up && StatusOk(s) && DesiredOk(s) && OpOk(s) && CurrentTask(s) && t in s.tasks && NextWatch(s, t, l) == Some(n)
    ensures StatusOk(n) && DesiredOk(n)
  {
    hide StatusOk, DesiredOk, OpOk, CurrentTask;
    match l
    case Take(stable) => TakeKeepsStatus(s, t, stable, n);
    case _ => TailKeepsStatus(s, t, l, n);
  }

  lemma ReconcileKeepsStatus(s: State, l: ReconcileStep, n: State)
    requires s.up && StatusOk(s) && DesiredOk(s) && OpOk(s) && NextReconcile(s, l) == Some(n)
    ensures StatusOk(n) && DesiredOk(n)
  {
  }

  lemma DaemonKeepsStatus(s: State, l: Label, n: State)
    requires StatusOk(s) && DesiredOk(s) && OpOk(s) && Next(s, l) == Some(n)
    requires l.Exit? || l.Boot? || l.Crash? || l.FailOnly?
    ensures StatusOk(n) && DesiredOk(n)
  {
  }

  // ------------------------------------------------------------------------ outcomes

  /** A row written from memory names the instance of the handle, which still runs as far
      as the records go. */
  lemma WrittenRowAgrees(s: State)
    requires s.up && HandleOk(s) && TasksOk(s) && StatusOk(s) && !Reconciling(s.op)
    requires WasSupervised(s.actual) && s.actual != Starting
    ensures OutcomeAgrees(RowOf(s), s.instances)
    ensures forall t <- s.tasks | s.tasks[t].phase.Recording? :: s.tasks[t].phase.instance != s.instance
  {
    assert s.handle.Some?;
  }

  /** Steps that may write the row from memory and record no outcome. */
  lemma RowMoves(s: State, n: State)
    requires s.up && Known(s) && Inv(n) && StatusOk(n) && n.instances == s.instances
    requires n.row == s.row || (n.row == Some(RowOf(n)) && n.up && !Reconciling(n.op))
    requires forall t <- n.tasks | n.tasks[t].phase.Recording? :: t in s.tasks && n.tasks[t] == s.tasks[t]
    requires !n.op.Vanishing?
    ensures OutcomesOk(n)
  {
    if n.row != s.row && RowOfInstance(n) {
      WrittenRowAgrees(n);
    }
  }

  lemma StopRecordKeepsOutcomes(s: State, n: State)
    requires s.up && Known(s) && NextStop(s, StopRecord) == Some(n)
    ensures OutcomesOk(n)
  {
  }

  /** A task is dropped, or starts to record what the user wants now. */
  lemma TaskTakes(s: State, t: nat, n: State)
    requires s.up && OutcomesOk(s) && DesiredOk(s) && n.row == s.row && n.instances == s.instances && !n.op.Vanishing?
    requires forall u <- n.tasks | u != t :: u in s.tasks && n.tasks[u] == s.tasks[u]
    requires t in n.tasks && n.tasks[t].phase.Recording? ==> n.tasks[t].phase.wanted == s.desired
    ensures OutcomesOk(n)
  {
  }

  lemma TakeKeepsOutcomes(s: State, t: nat, stable: bool, n: State)
    requires s.up && Known(s) && t in s.tasks && NextWatch(s, t, Take(stable)) == Some(n)
    ensures OutcomesOk(n)
  {
    NotReconciling(s, t);
    hide Inv, StatusOk, DesiredOk, OutcomesOk, StopRecorded;
    TaskTakes(s, t, n);
  }

  lemma RecordKeepsOutcomes(s: State, t: nat, n: State)
    requires s.up && Known(s) && t in s.tasks && NextWatch(s, t, Record) == Some(n)
    ensures OutcomesOk(n)
  {
  }

  lemma InsertKeepsOutcomes(s: State, plan: Plan, n: State)
    requires s.up && Known(s) && NextLaunch(s, Insert(plan)) == Some(n)
    ensures OutcomesOk(n)
  {
  }

  lemma ReconcileKeepsOutcomes(s: State, l: ReconcileStep, n: State)
    requires s.up && Known(s) && NextReconcile(s, l) == Some(n)
    ensures OutcomesOk(n)
  {
  }

  lemma DaemonKeepsOutcomes(s: State, l: Label, n: State)
    requires OutcomesOk(s) && OpOk(s) && Next(s, l) == Some(n)
    requires l.Exit? || l.Boot? || l.Crash? || l.FailOnly?
    ensures OutcomesOk(n)
  {
  }

  lemma LaunchKeepsOutcomes(s: State, l: LaunchStep, n: State)
    requires s.up && Known(s) && Inv(n) && StatusOk(n) && NextLaunch(s, l) == Some(n) && !l.Insert?
    ensures OutcomesOk(n)
  {
    hide Inv, StatusOk, Known;
    RowMoves(s, n);
  }

  lemma StopKeepsOutcomes(s: State, l: StopStep, n: State)
    requires s.up && Known(s) && Inv(n) && StatusOk(n) && NextStop(s, l) == Some(n) && !l.StopRecord?
    ensures OutcomesOk(n)
  {
    hide Inv, StatusOk, Known;
    RowMoves(s, n);
  }

  lemma NotReconciling(s: State, t: nat)
    requires Inv(s) && t in s.tasks
    ensures !Reconciling(s.op)
  {
  }

  lemma TailWrites(s: State, t: nat, l: WatchStep, n: State)
    requires s.up && t in s.tasks && NextWatch(s, t, l) == Some(n) && !l.Take? && !l.Record?
    ensures n.instances == s.instances && n.op == s.op && n.up
    ensures n.row == s.row || n.row == Some(RowOf(n))
    ensures forall u <- n.tasks | n.tasks[u].phase.Recording? :: u in s.tasks && n.tasks[u] == s.tasks[u]
  {
    match l
    case Release => assert n.tasks == s.tasks[t := n.tasks[t]];
    case Save =>
    case Decide(_) =>
    case Fire =>
    case TimerBlocked(_) =>
  }

  lemma TailKeepsOutcomes(s: State, t: nat, l: WatchStep, n: State)
    requires s.up && Known(s) && Inv(n) && StatusOk(n) && t in s.tasks && NextWatch(s, t, l) == Some(n)
    requires !l.Take? && !l.Record?
    ensures OutcomesOk(n)
  {
    NotReconciling(s, t);
    TailWrites(s, t, l, n);
    hide *;
    RowMoves(s, n);
  }

  lemma StepKeepsStatus(s: State, l: Label, n: State)
    requires Known(s) && Next(s, l) == Some(n)
    ensures StatusOk(n) && DesiredOk(n)
  {
    hide StatusOk, DesiredOk, OpOk, CurrentTask, OutcomesOk, StopRecorded;
    match l
    case Launch(step) => LaunchKeepsStatus(s, step, n);
    case Stop(step) => StopKeepsStatus(s, step, n);
    case Watch(t, step) => WatchKeepsStatus(s, t, step, n);
    case Reconcile(step) => ReconcileKeepsStatus(s, step, n);
    case _ => DaemonKeepsStatus(s, l, n);
  }

  lemma StepKeepsOutcomes(s: State, l: Label, n: State)
    requires Known(s) && Next(s, l) == Some(n)
    ensures OutcomesOk(n)
  {
    hide StatusOk, DesiredOk, OpOk, CurrentTask, OutcomesOk, StopRecorded;
    StepKeepsInv(s, l, n);
    StepKeepsStatus(s, l, n);
    match l
    case Launch(Insert(plan)) => InsertKeepsOutcomes(s, plan, n);
    case Launch(step) => LaunchKeepsOutcomes(s, step, n);
    case Stop(StopRecord) => StopRecordKeepsOutcomes(s, n);
    case Stop(step) => StopKeepsOutcomes(s, step, n);
    case Watch(t, Take(stable)) => TakeKeepsOutcomes(s, t, stable, n);
    case Watch(t, Record) => RecordKeepsOutcomes(s, t, n);
    case Watch(t, step) => TailKeepsOutcomes(s, t, step, n);
    case Reconcile(step) => ReconcileKeepsOutcomes(s, step, n);
    case _ => DaemonKeepsOutcomes(s, l, n);
  }

  lemma DownIsIdle(s: State)
    requires Inv(s)
    ensures !s.up ==> s.op.Idle?
  {
  }

  lemma StepKeepsKnown(s: State, l: Label, n: State)
    requires Known(s) && Next(s, l) == Some(n)
    ensures Known(n)
  {
    hide Inv, StatusOk, DesiredOk, OutcomesOk, StopRecorded, Next;
    DownIsIdle(s);
    StepKeepsInv(s, l, n);
    StepKeepsStopRecorded(s, l, n);
    StepKeepsStatus(s, l, n);
    StepKeepsOutcomes(s, l, n);
  }

  lemma {:induction false} RunKeepsKnown(s: State, run: seq<Label>)
    requires Known(s) && Exec(s, run).Some?
    ensures Known(Exec(s, run).value)
    decreases |run|
  {
    hide Known, Next;
    if run != [] {
      var n := Next(s, run[0]).value;
      StepKeepsKnown(s, run[0], n);
      RunKeepsKnown(n, run[1..]);
    }
  }

  // ----------------------------------------------------------------- after the death

  /** The outcome of a finished instance differs between the two states. */
  ghost predicate Rewritten(s: State, n: State) {
    exists i <- s.instances :: s.instances[i] != Running && (i !in n.instances || n.instances[i] != s.instances[i])
  }

  const MARKING_VANISHED: seq<Label> := [Crash, Boot, Reconcile(VanishTake), Reconcile(VanishRecord)]

  lemma VanishedState(s: State) returns (n: State)
    requires s.up && RowSupervised(s) && !(s.row.value.pid.Some? && s.row.value.pid.value in s.alive)
    ensures Exec(s, MARKING_VANISHED) == Some(n)
    ensures var i := s.row.value.instance;
            n.instances == if i.Some? && i.value in s.instances
                           then s.instances[i.value := FinalStatus(s.row.value.desired)] else s.instances
  {
    DeathAndBoot(s);
    n := VanishRecorded(LoadRow(Die(s)));
    ExecAppend(s, [Crash, Boot], [Reconcile(VanishTake), Reconcile(VanishRecord)]);
    assert [Crash, Boot] + [Reconcile(VanishTake), Reconcile(VanishRecord)] == MARKING_VANISHED;
  }

  lemma RewrittenExactly(s: State, n: State)
    requires s.up && RowSupervised(s) && HistoryOk(s)
    requires var i := s.row.value.instance;
             n.instances == if i.Some? && i.value in s.instances
                            then s.instances[i.value := FinalStatus(s.row.value.desired)] else s.instances
    ensures Rewritten(s, n) <==> StartingOverStopped(s)
  {
  }

  /** A launch has persisted STARTING over an instance that was stopped. */
  predicate StartingOverStopped(s: State) {
    && s.row.Some? && s.row.value.actual == Starting
    && s.row.value.instance.Some?
    && s.row.value.instance.value in s.instances
    && s.instances[s.row.value.instance.value] == Stopped
  }

  /** In any reachable state, the death of the daemon makes its successor change a
      recorded outcome exactly when it falls into a launch that has persisted STARTING
      over an instance that was stopped. */
  lemma OutcomeRewrittenExactly(past: seq<Label>, s: State) returns (n: State)
    requires Exec(INIT, past) == Some(s) && s.up
    requires RowSupervised(s) && !(s.row.value.pid.Some? && s.row.value.pid.value in s.alive)
    ensures Exec(s, MARKING_VANISHED) == Some(n)
    ensures Rewritten(s, n) <==> StartingOverStopped(s)
  {
    RunKeepsKnown(INIT, past);
    n := VanishedState(s);
    RewrittenExactly(s, n);
  }
}
