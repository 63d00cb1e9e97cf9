/**
 The lifecycle of one service as a transition system.

 A step is one region that the supervisor executes atomically: a block under
 the service mutex together with the row it then persists, one other write to
 the database, or one event of the operating system.  Steps of the operation
 holding the service's operation lock, of watcher goroutines, of restart timers
 and of the operating system interleave freely, and the daemon may die between
 any two steps.  `Next` gives the effect of a step, `Exec` that of a run.
 */
module Lifecycle {
  import opened Wrappers

  datatype Desired = WantRunning | WantStopped

  datatype Status = Stopped | Starting | Running | Stopping | Crashed | Failed | Blocked | Unknown

  datatype RestartRule = Never | OnFailure | Always

  datatype Plan = Plan(rule: RestartRule, maxAttempts: int)

  /** The persisted service_runtime row.  A process and the instance record of
      the launch that spawned it share one number. */
  datatype Row = Row(desired: Desired, actual: Status, pid: Option<nat>, instance: Option<nat>, restarts: nat)

  /** How far the goroutine that watches one instance has come.  `wanted` is the
      desired state it read when it took the exit. */
  datatype Phase =
    | Watching
    | Recording(instance: Option<nat>, wanted: Desired)
    | Releasing(wanted: Desired)
    | Saving(wanted: Desired)
    | Deciding
    | Backoff(attempt: nat)
    | Armed

  datatype Task = Task(gen: nat, run: nat, plan: Plan, phase: Phase)

  /** Program point of the holder of the operation lock. */
  datatype Op =
    | Idle
    // launch
    | Launching
    | Wanted
    | Reserving(mine: set<nat>)
    | Unwinding(mine: set<nat>)
    | Dropping(failure: Status)
    | Failing(failure: Status)
    | Spawned(run: nat)
    | Recorded(run: nat)
    // stopInstance
    | Halting
    | Clearing
    | Cleared
    | Killing(run: nat, instance: Option<nat>)
    | Killed(run: nat, instance: Option<nat>)
    | Closing(instance: Option<nat>)
    | Freeing
    | Sealing
    // Reconcile
    | Loaded
    | Vanishing(instance: Option<nat>)
    | VanishFreeing
    | VanishSaving

  datatype State = State(
    // memory of the daemon
    up: bool,
    desired: Desired,
    actual: Status,
    handle: Option<nat>,
    generation: nat,
    instance: Option<nat>,
    restarts: nat,
    tasks: map<nat, Task>,
    op: Op,
    // database, which survives the daemon
    row: Option<Row>,
    held: set<nat>,
    instances: map<nat, Status>,
    // operating system
    alive: set<nat>,
    // counters that make identifiers fresh
    nextRun: nat,
    nextTask: nat,
    nextPort: nat,
    // history: instances finished and stopped by the current daemon, and
    // processes that no daemon can find again
    finished: set<nat>,
    killed: set<nat>,
    lost: set<nat>)

  datatype LaunchStep =
    | UserBegin
    | TimerBegin(task: nat)
    | WriteWanted
    | WriteStarting
    | ReserveOne
    | ReserveConflict
    | RollbackOne(port: nat)
    | GiveUp(failure: Status)
    | LateFailure(failure: Status)
    | DropPorts
    | WriteFailure
    | Spawn
    | Commit
    | Insert(plan: Plan)

  datatype StopStep =
    | StopBegin
    | StopTake
    | StopClear
    | StopSettle
    | Kill
    | KillTake
    | StopRecord
    | StopRelease
    | StopSave

  datatype WatchStep =
    | Take(stable: bool)
    | Record
    | Release
    | Save
    | Decide(clean: bool)
    | Fire
    | TimerBlocked(failure: Status)

  datatype ReconcileStep =
    | Adopt(plan: Plan)
    | VanishTake
    | VanishRecord
    | VanishRelease
    | VanishSave

  datatype Label =
    | Launch(launch: LaunchStep)
    | Stop(stop: StopStep)
    | Watch(task: nat, watch: WatchStep)
    | Reconcile(reconcile: ReconcileStep)
    | FailOnly(failure: Status)
    | Exit(run: nat)
    | Crash
    | Boot

  // ---------------------------------------------------------------- helpers

  /** Persisted states that make reconciliation look for a process. */
  predicate WasSupervised(actual: Status) {
    actual in {Running, Starting, Stopping, Unknown}
  }

  predicate IsFailure(status: Status) {
    status in {Failed, Blocked}
  }

  /** The daemon supervises a live instance. */
  predicate IsRunning(s: State) {
    s.handle.Some? && s.handle.value in s.alive
  }

  function RowOf(s: State): Row {
    Row(s.desired, s.actual, s.handle, s.instance, s.restarts)
  }

  function Persist(s: State): State {
    s.(row := Some(RowOf(s)))
  }

  function InPhase(s: State, t: nat, phase: Phase): State
    requires t in s.tasks
  {
    s.(tasks := s.tasks[t := s.tasks[t].(phase := phase)])
  }

  function Drop(s: State, t: nat): State {
    s.(tasks := s.tasks - {t})
  }

  /** An update of an instance record that does not exist changes nothing. */
  function Finish(s: State, instance: Option<nat>, status: Status): State {
    if instance.None? then s
    else s.(instances := if instance.value in s.instances then s.instances[instance.value := status] else s.instances,
            finished := s.finished + {instance.value})
  }

  function FinalStatus(wanted: Desired): Status {
    if wanted == WantRunning then Crashed else Stopped
  }

  /** The process recorded in the row, if the next daemon would look for it. */
  function Findable(row: Option<Row>): Option<nat> {
    if row.Some? && WasSupervised(row.value.actual) then row.value.pid else None
  }

  /** The persisted state is one the next daemon will look at. */
  predicate RowSupervised(s: State) {
    s.row.Some? && WasSupervised(s.row.value.actual)
  }

  predicate Reconciling(op: Op) {
    op.Loaded? || op.Vanishing? || op.VanishFreeing? || op.VanishSaving?
  }

  predicate InLaunch(op: Op) {
    op.Launching? || op.Wanted? || op.Reserving? || op.Unwinding? || op.Dropping? || op.Failing?
    || op.Spawned? || op.Recorded?
  }

  predicate InStop(op: Op) {
    op.Halting? || op.Clearing? || op.Cleared? || op.Killing? || op.Killed? || op.Closing?
    || op.Freeing? || op.Sealing?
  }

  /** The operation has invalidated the watcher of the previous instance. */
  predicate Invalidated(op: Op) {
    InLaunch(op) || (InStop(op) && !op.Halting?)
  }

  // ------------------------------------------------------------- transitions

  const INIT: State :=
    State(false, WantStopped, Stopped, None, 0, None, 0, map[], Idle,
          None, {}, map[], {}, 0, 0, 0, {}, {}, {})

  function Begin(s: State, isRestart: bool): State {
    s.(generation := s.generation + 1,
       restarts := if isRestart then s.restarts else 0,
       op := Launching)
  }

  function NextLaunch(s: State, l: LaunchStep): Option<State> {
    match l
    case UserBegin =>
      if s.op.Idle? && !IsRunning(s) then Some(Begin(s, false)) else None
    case TimerBegin(t) =>
      if s.op.Idle? && t in s.tasks && s.tasks[t].phase.Armed?
      then Some(if IsRunning(s) then Drop(s, t) else Begin(Drop(s, t), true)) else None
    case WriteWanted =>
      if s.op.Launching? then Some(Persist(s.(desired := WantRunning)).(op := Wanted)) else None
    case WriteStarting =>
      if s.op.Wanted? then Some(Persist(s.(actual := Starting)).(op := Reserving({}))) else None
    case ReserveOne =>
      if s.op.Reserving?
      then Some(s.(held := s.held + {s.nextPort}, nextPort := s.nextPort + 1,
                   op := Reserving(s.op.mine + {s.nextPort}))) else None
    case ReserveConflict =>
      if s.op.Reserving? then Some(s.(op := Unwinding(s.op.mine))) else None
    case RollbackOne(p) =>
      if s.op.Unwinding? && p in s.op.mine
      then Some(s.(held := s.held - {p}, op := Unwinding(s.op.mine - {p}))) else None
    case GiveUp(failure) =>
      if (s.op == Reserving({}) || s.op == Unwinding({})) && IsFailure(failure)
      then Some(s.(op := Failing(failure))) else None
    case LateFailure(failure) =>
      if s.op.Reserving? && IsFailure(failure) then Some(s.(op := Dropping(failure))) else None
    case DropPorts =>
      if s.op.Dropping? then Some(s.(held := {}, op := Failing(s.op.failure))) else None
    case WriteFailure =>
      if s.op.Failing? then Some(Persist(s.(actual := s.op.failure)).(op := Idle)) else None
    case Spawn =>
      if s.op.Reserving?
      then Some(s.(alive := s.alive + {s.nextRun}, nextRun := s.nextRun + 1, op := Spawned(s.nextRun))) else None
    case Commit =>
      if s.op.Spawned?
      then Some(Persist(s.(handle := Some(s.op.run), instance := Some(s.op.run), actual := Running))
                .(op := Recorded(s.op.run))) else None
    case Insert(plan) =>
      if s.op.Recorded?
      then Some(s.(instances := s.instances[s.op.run := Running],
                   tasks := s.tasks[s.nextTask := Task(s.generation, s.op.run, plan, Watching)],
                   nextTask := s.nextTask + 1,
                   op := Idle)) else None
  }

  function NextStop(s: State, l: StopStep): Option<State> {
    match l
    case StopBegin =>
      if s.op.Idle? then Some(Persist(s.(desired := WantStopped)).(op := Halting)) else None
    case StopTake =>
      if s.op.Halting?
      then Some(if s.handle.None? then s.(generation := s.generation + 1, op := Clearing)
                else s.(generation := s.generation + 1, actual := Stopping,
                        op := Killing(s.handle.value, s.instance))) else None
    case StopClear =>
      if s.op.Clearing? then Some(s.(held := {}, op := Cleared)) else None
    case StopSettle =>
      if s.op.Cleared? then Some(Persist(s.(actual := Stopped)).(op := Idle)) else None
    case Kill =>
      if s.op.Killing?
      then Some(s.(alive := s.alive - {s.op.run}, killed := s.killed + {s.op.run},
                   op := Killed(s.op.run, s.op.instance))) else None
    case KillTake =>
      if s.op.Killed?
      then Some(s.(handle := None, actual := Stopped, op := Closing(s.op.instance))) else None
    case StopRecord =>
      if s.op.Closing? then Some(Finish(s, s.op.instance, Stopped).(op := Freeing)) else None
    case StopRelease =>
      if s.op.Freeing? then Some(s.(held := {}, op := Sealing)) else None
    case StopSave =>
      if s.op.Sealing? then Some(Persist(s).(op := Idle)) else None
  }

  /** The restart policy asks for another attempt after this exit. */
  predicate Qualifies(plan: Plan, clean: bool) {
    plan.rule == Always || (plan.rule == OnFailure && !clean)
  }

  predicate Exhausted(plan: Plan, attempt: nat) {
    plan.maxAttempts > 0 && attempt >= plan.maxAttempts
  }

  function NextWatch(s: State, t: nat, l: WatchStep): Option<State>
    requires t in s.tasks
  {
    var task := s.tasks[t];
    match l
    case Take(stable) =>
      if !task.phase.Watching? || task.run in s.alive then None
      else if task.gen != s.generation then Some(Drop(s, t))
      else Some(InPhase(s.(handle := None,
                           actual := FinalStatus(s.desired),
                           restarts := if stable then 0 else s.restarts),
                        t, Recording(s.instance, s.desired)))
    case Record =>
      if !task.phase.Recording? then None
      else Some(InPhase(Finish(s, task.phase.instance, FinalStatus(task.phase.wanted)), t, Releasing(task.phase.wanted)))
    case Release =>
      if !task.phase.Releasing? then None
      else Some(InPhase(s.(held := {}), t, Saving(task.phase.wanted)))
    case Save =>
      if !task.phase.Saving? then None
      else if task.phase.wanted == WantRunning then Some(InPhase(Persist(s), t, Deciding))
      else Some(Drop(Persist(s), t))
    case Decide(clean) =>
      if !task.phase.Deciding? then None
      else if !Qualifies(task.plan, clean) then Some(Drop(s, t))
      else if Exhausted(task.plan, s.restarts) then Some(Drop(Persist(s.(actual := Failed)), t))
      else Some(InPhase(s, t, Backoff(s.restarts)))
    case Fire =>
      if !task.phase.Backoff? then None
      else if s.desired == WantRunning then Some(InPhase(s.(restarts := task.phase.attempt + 1), t, Armed))
      else Some(Drop(s.(restarts := task.phase.attempt + 1), t))
    case TimerBlocked(failure) =>
      if !task.phase.Armed? || !s.op.Idle? || !IsFailure(failure) then None
      else Some(Drop(Persist(s.(actual := failure)), t))
  }

  /** Everything the daemon holds in memory is gone; what is alive and will not
      be found through the row is lost. */
  function Die(s: State): State {
    s.(up := false, desired := WantStopped, actual := Stopped, handle := None, generation := 0,
       instance := None, restarts := 0, tasks := map[], nextTask := 0, op := Idle, finished := {}, killed := {},
       lost := s.lost + (s.alive - (if Findable(s.row).Some? then {Findable(s.row).value} else {})))
  }

  /** serviceState loads the row.  RUNNING and STARTING become UNKNOWN until
      reconciliation has found the process or given it up. */
  function LoadRow(s: State): State {
    if s.row.None? then s.(up := true)
    else
      var r := s.row.value;
      s.(up := true, desired := r.desired,
         actual := if r.actual == Running || r.actual == Starting then Unknown else r.actual,
         instance := r.instance, restarts := r.restarts,
         op := if WasSupervised(r.actual) then Loaded else Idle)
  }

  predicate Adoptable(s: State) {
    Findable(s.row).Some? && Findable(s.row).value in s.alive
  }

  function NextReconcile(s: State, l: ReconcileStep): Option<State> {
    match l
    case Adopt(plan) =>
      if !s.op.Loaded? || !Adoptable(s) then None
      else
        var r := s.row.value;
        var s1 := s.(generation := s.generation + 1, handle := r.pid, actual := Running, desired := r.desired,
                     instance := r.instance, restarts := r.restarts, op := Idle);
        Some(Persist(s1).(tasks := s.tasks[s.nextTask := Task(s1.generation, r.pid.value, plan, Watching)],
                          nextTask := s.nextTask + 1))
    case VanishTake =>
      if !s.op.Loaded? || Adoptable(s) || s.row.None? then None
      else Some(s.(handle := None, actual := FinalStatus(s.row.value.desired), desired := s.row.value.desired,
                   op := Vanishing(s.instance)))
    case VanishRecord =>
      if s.op.Vanishing? then Some(Finish(s, s.op.instance, s.actual).(op := VanishFreeing)) else None
    case VanishRelease =>
      if s.op.VanishFreeing? then Some(s.(held := {}, op := VanishSaving)) else None
    case VanishSave =>
      if s.op.VanishSaving? then Some(Persist(s).(op := Idle)) else None
  }

  /** The effect of one step, or None where the step cannot be taken. */
  function Next(s: State, l: Label): Option<State> {
    match l
    case Exit(run) => if run in s.alive then Some(s.(alive := s.alive - {run})) else None
    case Boot => if s.up then None else Some(LoadRow(s))
    case Crash => if s.up then Some(Die(s)) else None
    case FailOnly(failure) =>
      if !s.up || Reconciling(s.op) || !IsFailure(failure) then None else Some(Persist(s.(actual := failure)))
    case Launch(step) => if s.up then NextLaunch(s, step) else None
    case Stop(step) => if s.up then NextStop(s, step) else None
    case Watch(t, step) => if s.up && t in s.tasks then NextWatch(s, t, step) else None
    case Reconcile(step) => if s.up then NextReconcile(s, step) else None
  }

  /** The state after a run, or None where some step of it cannot be taken. */
  function Exec(s: State, run: seq<Label>): Option<State>
    decreases |run|
  {
    if run == [] then Some(s)
    else
      var n := Next(s, run[0]);
      if n.None? then None else Exec(n.value, run[1..])
  }

  /** Runs compose. */
  lemma {:induction false} ExecAppend(s: State, a: seq<Label>, b: seq<Label>)
    ensures Exec(s, a + b) == if Exec(s, a).None? then None else Exec(Exec(s, a).value, b)
    decreases |a|
  {
    if a == [] {
      assert a + b == b;
    } else {
      assert (a + b)[1..] == a[1..] + b;
      var n := Next(s, a[0]);
      if n.Some? {
        ExecAppend(n.value, a[1..], b);
      }
    }
  }

  lemma ExecSnoc(s: State, run: seq<Label>, l: Label)
    requires Exec(s, run).Some?
    ensures Exec(s, run + [l]) == Next(Exec(s, run).value, l)
  {
    ExecAppend(s, run, [l]);
    var m := Exec(s, run).value;
    assert [l][1..] == [];
    assert Next(m, l).Some? ==> Exec(Next(m, l).value, []) == Next(m, l);
  }

  /** Lengthens a known run by one step. */
  lemma Then(s: State, run: seq<Label>, m: State, l: Label) returns (longer: seq<Label>, n: State)
    requires Exec(s, run) == Some(m) && Next(m, l).Some?
    ensures longer == run + [l] && n == Next(m, l).value && Exec(s, longer) == Some(n)
  {
    ExecSnoc(s, run, l);
    longer, n := run + [l], Next(m, l).value;
  }
}
