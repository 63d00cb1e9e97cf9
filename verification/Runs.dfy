/**
 Complete runs of the machine: what a whole launch, death or reconciliation does, and
 the first runs from a fresh installation.
 */
module Runs {
  import opened Wrappers
  import opened Lifecycle

  lemma NoSteps(s: State)
    ensures Exec(s, []) == Some(s)
  {
  }

  const ANNOUNCE_STEPS: seq<Label> := [Launch(UserBegin), Launch(WriteWanted), Launch(WriteStarting)]

  function CompletionSteps(plan: Plan): seq<Label> {
    [Launch(Spawn), Launch(Commit), Launch(Insert(plan))]
  }

  function LaunchSteps(plan: Plan): seq<Label> {
    ANNOUNCE_STEPS + [Launch(ReserveOne)] + CompletionSteps(plan)
  }

  const VANISH_STEPS: seq<Label> :=
    [Reconcile(VanishTake), Reconcile(VanishRecord), Reconcile(VanishRelease), Reconcile(VanishSave)]

  /** A user start up to the point where ports are reserved. */
  lemma AnnouncedLaunch(s: State) returns (n: State)
    requires s.up && s.op.Idle? && !IsRunning(s)
    ensures Exec(s, ANNOUNCE_STEPS) == Some(n)
    ensures n == s.(desired := WantRunning, actual := Starting, generation := s.generation + 1, restarts := 0,
                    op := Reserving({}), row := Some(Row(WantRunning, Starting, s.handle, s.instance, 0)))
  {
    var run: seq<Label> := [];
    NoSteps(s);
    hide Exec;
    run, n := Then(s, run, s, Launch(UserBegin));
    run, n := Then(s, run, n, Launch(WriteWanted));
    run, n := Then(s, run, n, Launch(WriteStarting));
    assert run == ANNOUNCE_STEPS;
  }

  lemma PreparedLaunch(s: State) returns (n: State)
    requires s.up && s.op.Idle? && !IsRunning(s)
    ensures Exec(s, ANNOUNCE_STEPS + [Launch(ReserveOne)]) == Some(n)
    ensures n == s.(desired := WantRunning, actual := Starting, generation := s.generation + 1, restarts := 0,
                    op := Reserving({s.nextPort}),
                    row := Some(Row(WantRunning, Starting, s.handle, s.instance, 0)),
                    held := s.held + {s.nextPort}, nextPort := s.nextPort + 1)
  {
    n := AnnouncedLaunch(s);
    var run := ANNOUNCE_STEPS;
    run, n := Then(s, run, n, Launch(ReserveOne));
    assert run == ANNOUNCE_STEPS + [Launch(ReserveOne)];
    assert {} + {s.nextPort} == {s.nextPort};
  }

  lemma CompletedLaunch(s: State, plan: Plan) returns (n: State)
    requires s.up && s.op.Reserving?
    ensures Exec(s, CompletionSteps(plan)) == Some(n)
    ensures n == s.(actual := Running, handle := Some(s.nextRun), instance := Some(s.nextRun), op := Idle,
                    tasks := s.tasks[s.nextTask := Task(s.generation, s.nextRun, plan, Watching)],
                    nextTask := s.nextTask + 1,
                    row := Some(Row(s.desired, Running, Some(s.nextRun), Some(s.nextRun), s.restarts)),
                    instances := s.instances[s.nextRun := Running],
                    alive := s.alive + {s.nextRun}, nextRun := s.nextRun + 1)
  {
    var run: seq<Label> := [];
    NoSteps(s);
    hide Exec;
    run, n := Then(s, run, s, Launch(Spawn));
    run, n := Then(s, run, n, Launch(Commit));
    run, n := Then(s, run, n, Launch(Insert(plan)));
    assert run == CompletionSteps(plan);
  }

  /** A user start that reserves one port and succeeds. */
  lemma SuccessfulLaunch(s: State, plan: Plan) returns (n: State)
    requires s.up && s.op.Idle? && !IsRunning(s)
    ensures Exec(s, LaunchSteps(plan)) == Some(n)
    ensures n == s.(desired := WantRunning, actual := Running, handle := Some(s.nextRun), generation := s.generation + 1,
                    instance := Some(s.nextRun), restarts := 0, nextTask := s.nextTask + 1,
                    tasks := s.tasks[s.nextTask := Task(s.generation + 1, s.nextRun, plan, Watching)],
                    row := Some(Row(WantRunning, Running, Some(s.nextRun), Some(s.nextRun), 0)),
                    held := s.held + {s.nextPort}, nextPort := s.nextPort + 1,
                    instances := s.instances[s.nextRun := Running],
                    alive := s.alive + {s.nextRun}, nextRun := s.nextRun + 1)
  {
    var m := PreparedLaunch(s);
    n := CompletedLaunch(m, plan);
    ExecAppend(s, ANNOUNCE_STEPS + [Launch(ReserveOne)], CompletionSteps(plan));
  }

  /** The daemon dies and a new one loads the row. */
  lemma DeathAndBoot(s: State)
    requires s.up
    ensures Exec(s, [Crash, Boot]) == Some(LoadRow(Die(s)))
  {
  }

  lemma VanishRecorded(s: State) returns (n: State)
    requires s.up && s.op.Loaded? && s.row.Some? && !Adoptable(s)
    ensures Exec(s, [Reconcile(VanishTake), Reconcile(VanishRecord)]) == Some(n)
    ensures var status := FinalStatus(s.row.value.desired);
            n == Finish(s, s.instance, status).(handle := None, actual := status, desired := s.row.value.desired,
                   op := VanishFreeing)
  {
    var run: seq<Label> := [];
    NoSteps(s);
    hide Exec;
    run, n := Then(s, run, s, Reconcile(VanishTake));
    run, n := Then(s, run, n, Reconcile(VanishRecord));
    assert run == [Reconcile(VanishTake), Reconcile(VanishRecord)];
  }

  /** Reconciliation of a service whose process is gone. */
  lemma Vanished(s: State) returns (n: State)
    requires s.up && s.op.Loaded? && s.row.Some? && !Adoptable(s)
    ensures Exec(s, VANISH_STEPS) == Some(n)
    ensures n.up && n.op.Idle? && n.handle.None? && n.held == {} && n.row == Some(RowOf(n))
    ensures n.actual == FinalStatus(s.row.value.desired) && n.desired == s.row.value.desired
  {
    n := VanishRecorded(s);
    var run := [Reconcile(VanishTake), Reconcile(VanishRecord)];
    run, n := Then(s, run, n, Reconcile(VanishRelease));
    run, n := Then(s, run, n, Reconcile(VanishSave));
    assert run == VANISH_STEPS;
  }

  /** The first start of a service. */
  lemma FirstLaunch(plan: Plan) returns (past: seq<Label>, s: State)
    ensures past == [Boot] + LaunchSteps(plan) && Exec(INIT, past) == Some(s)
    ensures s == INIT.(up := true, desired := WantRunning, actual := Running, handle := Some(0), generation := 1,
                       instance := Some(0), nextTask := 1, tasks := map[0 := Task(1, 0, plan, Watching)],
                       row := Some(Row(WantRunning, Running, Some(0), Some(0), 0)), held := {0}, nextPort := 1,
                       instances := map[0 := Running], alive := {0}, nextRun := 1)
  {
    NoSteps(INIT);
    past, s := Then(INIT, [], INIT, Boot);
    hide Exec, Next;
    s := SuccessfulLaunch(s, plan);
    ExecAppend(INIT, [Boot], LaunchSteps(plan));
    past := past + LaunchSteps(plan);
    assert {} + {0} == {0};
  }

  /** The first instance exits and its watcher has not noticed yet. */
  lemma FirstInstanceExits(plan: Plan) returns (past: seq<Label>, s: State)
    ensures Exec(INIT, past) == Some(s) && s.up && s.op.Idle? && s.desired == WantRunning && s.row.Some?
    ensures s.tasks == map[0 := Task(s.generation, 0, plan, Watching)] && 0 !in s.alive && s.nextTask == 1
  {
    past, s := FirstLaunch(plan);
    past, s := Then(INIT, past, s, Exit(0));
  }
}
