/**
 The supervisor's code for one service.

 Each method does its work on the fields in the order of the original.  Its
 contract says that, left alone, it is a run of the transition system of module
 Lifecycle: `Exec(old(Now()), run) == Some(Now())`.  What is proved there about
 every run and every interleaving therefore holds of these methods.
 */
module Supervisor {
  import opened Wrappers
  import opened Lifecycle
  import opened Runs

  lemma CommitStep(s: State, started: nat)
    requires s.op == Op.Spawned(started) && s.up
    ensures Next(s, Launch(LaunchStep.Commit)) ==
              Some(Lifecycle.Persist(s.(handle := Some(started), instance := Some(started), actual := Running))
                   .(op := Recorded(started)))
  {
  }

  lemma VanishOneByOne()
    ensures [] + [Reconcile(VanishTake)] + [Reconcile(VanishRecord)] + [Reconcile(VanishRelease)] + [Reconcile(VanishSave)]
         == VANISH_STEPS
  {
  }

  /** The rows of one service; they outlive the daemon. */
  class Database {
    var row: Option<Row>
    var held: set<nat>
    var instances: map<nat, Status>
    var nextPort: nat

    constructor ()
      ensures row.None? && held == {} && instances == map[] && nextPort == 0
    {
      row, held, instances, nextPort := None, {}, map[], 0;
    }
  }

  /** The processes of the machine. */
  class Host {
    var alive: set<nat>
    var nextRun: nat
    ghost var lost: set<nat>

    constructor ()
      ensures alive == {} && nextRun == 0 && lost == {}
    {
      alive, nextRun, lost := {}, 0, {};
    }

    method Start() returns (run: nat)
      modifies this
      ensures run == old(nextRun) && nextRun == run + 1 && alive == old(alive) + {run} && lost == old(lost)
    {
      run := nextRun;
      alive, nextRun := alive + {run}, nextRun + 1;
    }

    method Stop(run: nat)
      modifies this
      ensures alive == old(alive) - {run} && nextRun == old(nextRun) && lost == old(lost)
    {
      alive := alive - {run};
    }
  }

  /** How the environment lets a launch turn out: whether a precondition is
      missing, a reservation conflicts after some ports, something fails after the
      reservation, or the process starts. */
  datatype Attempt =
    | Refused(failure: Status)
    | Conflict(ports: nat, failure: Status)
    | Broken(ports: nat, failure: Status)
    | Succeeds(ports: nat, plan: Plan)

  predicate Sensible(a: Attempt) {
    a.Succeeds? || a.failure == Failed || a.failure == Blocked
  }

  // ------------------------------------------------- what whole operations leave

  /** The ports that one launch claims. */
  ghost function Claimed(first: nat, count: nat): set<nat> {
    if count == 0 then {} else Claimed(first, count - 1) + {first + count - 1}
  }

  /** How a launch ends whose start is on record in `s`.  An early failure touches no
      port, a conflict gives back what was claimed, and a late failure releases
      everything. */
  ghost function Carried(s: State, a: Attempt): State {
    match a
    case Refused(failure) =>
      s.(actual := failure, op := Idle, row := Some(Row(s.desired, failure, s.handle, s.instance, s.restarts)))
    case Conflict(ports, failure) =>
      s.(actual := failure, op := Idle, row := Some(Row(s.desired, failure, s.handle, s.instance, s.restarts)),
         held := s.held - Claimed(s.nextPort, ports), nextPort := s.nextPort + ports)
    case Broken(ports, failure) =>
      s.(actual := failure, op := Idle, row := Some(Row(s.desired, failure, s.handle, s.instance, s.restarts)),
         held := {}, nextPort := s.nextPort + ports)
    case Succeeds(ports, plan) => Started(s, s.nextRun, ports, plan)
  }

  /** What was put on record before does not matter for how the launch ends. */
  lemma RecordIsReplaced(s: State, row: Row, a: Attempt)
    ensures Carried(s.(actual := Starting, op := Reserving({}), row := Some(row)), a) == Carried(s, a)
  {
  }

  /** A user start forgets the attempts anyway. */
  lemma UserStartForgets(s: State, run: seq<Label>)
    requires run != [] && run[0] == Launch(UserBegin)
    ensures Exec(s.(restarts := 0), run) == Exec(s, run)
  {
    assert Next(s.(restarts := 0), run[0]) == Next(s, run[0]);
  }

  ghost function Started(s: State, run: nat, ports: nat, plan: Plan): State {
    s.(actual := Running, handle := Some(run), instance := Some(run), op := Idle,
       row := Some(Row(s.desired, Running, Some(run), Some(run), s.restarts)),
       held := s.held + Claimed(s.nextPort, ports), nextPort := s.nextPort + ports,
       instances := s.instances[run := Running], alive := s.alive + {run}, nextRun := run + 1,
       tasks := s.tasks[s.nextTask := Task(s.generation, run, plan, Watching)], nextTask := s.nextTask + 1)
  }

  /** The instance records and the history after an instance has been finished. */
  ghost function Finished(s: State, id: Option<nat>, status: Status): State {
    s.(instances := WithOutcome(s.instances, id, status), finished := s.finished + Identified(id))
  }

  /** Only a record that exists is updated. */
  ghost function WithOutcome(instances: map<nat, Status>, id: Option<nat>, status: Status): map<nat, Status> {
    map i <- instances :: if id == Some(i) then status else instances[i]
  }

  ghost function Identified(id: Option<nat>): set<nat> {
    if id.Some? then {id.value} else {}
  }

  /** What a stop leaves, with and without a process to end. */
  ghost function Halted(s: State): State {
    var ended :=
      match s.handle
      case None => s
      case Some(run) => Finished(s, s.instance, Stopped).(alive := s.alive - {run}, killed := s.killed + {run});
    ended.(desired := WantStopped, actual := Stopped, handle := None, generation := s.generation + 1, held := {},
           row := Some(Row(WantStopped, Stopped, None, s.instance, s.restarts)))
  }

  /** What watch leaves that has taken an exit: nothing to do for a service that is not
      wanted any more, and the restart policy for one that is. */
  ghost function Exited(s: State, t: nat, stable: bool, clean: bool): State
    requires t in s.tasks
  {
    var attempts := if stable then 0 else s.restarts;
    var plan := s.tasks[t].plan;
    var outcome := if s.desired == WantRunning then Crashed else Stopped;
    var accounted := Finished(s, s.instance, outcome).(
      handle := None, held := {}, restarts := attempts, actual := outcome,
      row := Some(Row(s.desired, outcome, None, s.instance, attempts)));
    if s.desired == WantStopped || plan.rule == Never || (plan.rule == OnFailure && clean) then
      accounted.(tasks := s.tasks - {t})
    else if 0 < plan.maxAttempts <= attempts then
      accounted.(tasks := s.tasks - {t}, actual := Failed,
                 row := Some(Row(WantRunning, Failed, None, s.instance, attempts)))
    else
      accounted.(tasks := s.tasks[t := s.tasks[t].(phase := Backoff(attempts))])
  }

  /** Taking the exit, the writes that follow and the decision add up. */
  lemma ExitAddsUp(s: State, t: nat, stable: bool, clean: bool, taken: State, accounted: State)
    requires t in s.tasks
    requires var outcome := if s.desired == WantRunning then Crashed else Stopped;
             && taken == s.(handle := None, actual := outcome, restarts := if stable then 0 else s.restarts,
                            tasks := s.tasks[t := s.tasks[t].(phase := Recording(s.instance, s.desired))])
             && accounted == Finished(taken, s.instance, outcome).(
                               held := {}, row := Some(Row(s.desired, outcome, None, s.instance, taken.restarts)),
                               tasks := if s.desired == WantRunning
                                        then taken.tasks[t := taken.tasks[t].(phase := Deciding)]
                                        else taken.tasks - {t})
    ensures s.desired == WantStopped ==> accounted == Exited(s, t, stable, clean)
    ensures s.desired == WantRunning ==> t in accounted.tasks && Decided(accounted, t, clean) == Exited(s, t, stable, clean)
  {
    hide WithOutcome, Identified;
    var deciding := s.tasks[t].(phase := Deciding);
    SettingTwice(s.tasks, t, taken.tasks[t], deciding);
    SettingTwice(s.tasks, t, deciding, s.tasks[t].(phase := Backoff(taken.restarts)));
  }

  lemma SettingTwice(tasks: map<nat, Task>, t: nat, first: Task, second: Task)
    ensures tasks[t := first] - {t} == tasks - {t}
    ensures tasks[t := first][t := second] == tasks[t := second]
  {
  }

  /** What the restart policy makes of a wanted service that has exited. */
  ghost function Decided(s: State, t: nat, clean: bool): State
    requires t in s.tasks
  {
    var plan := s.tasks[t].plan;
    if plan.rule == Never || (plan.rule == OnFailure && clean) then s.(tasks := s.tasks - {t})
    else if 0 < plan.maxAttempts <= s.restarts then
      s.(tasks := s.tasks - {t}, actual := Failed, row := Some(Row(s.desired, Failed, s.handle, s.instance, s.restarts)))
    else s.(tasks := s.tasks[t := s.tasks[t].(phase := Backoff(s.restarts))])
  }

  lemma GoneAddsUp(s: State, record: Row, taken: State, finished: State)
    requires var outcome := if record.desired == WantRunning then Crashed else Stopped;
             && taken == s.(handle := None, actual := outcome, desired := record.desired, op := Vanishing(s.instance))
             && finished == Finished(taken, taken.instance, taken.actual).(op := VanishFreeing)
    ensures finished.(held := {}, op := Idle,
                      row := Some(Row(finished.desired, finished.actual, finished.handle, finished.instance, finished.restarts)))
         == Gone(s, record)
  {
  }

  /** What adoption leaves. */
  ghost function Adopted(s: State, record: Row, plan: Plan): State
    requires record.pid.Some?
  {
    s.(generation := s.generation + 1, op := Idle, handle := record.pid, actual := Running,
       desired := record.desired, instance := record.instance, restarts := record.restarts,
       row := Some(Row(record.desired, Running, record.pid, record.instance, record.restarts)),
       tasks := s.tasks[s.nextTask := Task(s.generation + 1, record.pid.value, plan, Watching)],
       nextTask := s.nextTask + 1)
  }

  /** What reconciliation leaves of a service whose process is gone. */
  ghost function Gone(s: State, record: Row): State {
    var outcome := if record.desired == WantRunning then Crashed else Stopped;
    Finished(s, s.instance, outcome).(
      handle := None, actual := outcome, desired := record.desired, held := {}, op := Idle,
      row := Some(Row(record.desired, outcome, None, s.instance, s.restarts)))
  }

  lemma FinishedAgrees(s: State, id: Option<nat>, status: Status)
    ensures Finish(s, id, status) == Finished(s, id, status)
  {
  }

  /** The state after the death of a daemon. */
  ghost function Offline(db: Database, host: Host): State
    reads db, host
  {
    State(false, WantStopped, Stopped, None, 0, None, 0, map[], Idle,
          db.row, db.held, db.instances, host.alive, host.nextRun, 0, db.nextPort, {}, {}, host.lost)
  }

  class Service {
    const db: Database
    const host: Host

    var desired: Desired
    var actual: Status
    var handle: Option<nat>
    var generation: nat
    var instance: Option<nat>
    var restarts: nat

    // the goroutines that watch instances and wait for restarts
    var tasks: map<nat, Task>
    var nextTask: nat

    // the program point of the holder of the operation lock
    ghost var op: Op
    ghost var finished: set<nat>
    ghost var killed: set<nat>

    /** serviceState: a new daemon loads what the previous one persisted. */
    constructor (db: Database, host: Host)
      ensures this.db == db && this.host == host
      ensures Next(Offline(db, host), Boot) == Some(Now())
    {
      this.db, this.host := db, host;
      desired, actual, handle, generation, instance, restarts := WantStopped, Stopped, None, 0, None, 0;
      tasks, nextTask := map[], 0;
      op, finished, killed := Idle, {}, {};
      if db.row.Some? {
        var record := db.row.value;
        desired := record.desired;
        actual := if record.actual == Running || record.actual == Starting then Unknown else record.actual;
        instance, restarts := record.instance, record.restarts;
        op := if WasSupervised(record.actual) then Loaded else Idle;
      }
    }

    /** The state of the transition system that these objects are in. */
    ghost function Now(): State
      reads this, db, host
    {
      State(true, desired, actual, handle, generation, instance, restarts, tasks, op,
            db.row, db.held, db.instances, host.alive, host.nextRun, nextTask, db.nextPort,
            finished, killed, host.lost)
    }

    method IsRunning() returns (r: bool)
      ensures r == Lifecycle.IsRunning(Now())
    {
      r := handle.Some? && handle.value in host.alive;
    }

    method Persist()
      modifies db
      ensures Now() == Lifecycle.Persist(old(Now()))
    {
      db.row := Some(Row(desired, actual, handle, instance, restarts));
    }

    method SetDesired(state: Desired)
      modifies this, db
      ensures Now() == Lifecycle.Persist(old(Now()).(desired := state))
    {
      desired := state;
      Persist();
    }

    method SetStatus(status: Status)
      modifies this, db
      ensures Now() == Lifecycle.Persist(old(Now()).(actual := status))
    {
      actual := status;
      Persist();
    }

    method ReleasePorts()
      modifies db
      ensures Now() == old(Now()).(held := {})
    {
      db.held := {};
    }

    method FinishInstance(id: Option<nat>, status: Status)
      modifies this, db
      ensures Now() == Finish(old(Now()), id, status)
    {
      if id.None? {
        return;
      }
      if id.value in db.instances {
        db.instances := db.instances[id.value := status];
      }
      finished := finished + {id.value};
    }

    /** Starts the goroutine that watches an instance. */
    method GoWatch(run: nat, plan: Plan)
      modifies this
      ensures Now() == old(Now()).(tasks := old(tasks)[old(nextTask) := Task(generation, run, plan, Watching)],
                                   nextTask := old(nextTask) + 1)
    {
      tasks, nextTask := tasks[nextTask := Task(generation, run, plan, Watching)], nextTask + 1;
    }

    /** Records one more step of a run. */
    ghost method Advance(s: State, run: seq<Label>, m: State, l: Label) returns (longer: seq<Label>)
      requires Exec(s, run) == Some(m) && Next(m, l) == Some(Now())
      ensures longer == run + [l] && Exec(s, longer) == Some(Now())
    {
      ExecSnoc(s, run, l);
      longer := run + [l];
    }

    // ------------------------------------------------------------------ launch

    method BeginLaunch(isRestart: bool)
      requires op == Idle && !Lifecycle.IsRunning(Now())
      modifies this
      ensures Now() == Begin(old(Now()), isRestart)
    {
      generation := generation + 1;
      if !isRestart {
        restarts := 0;
      }
      op := Launching;
    }

    /** Desired state and STARTING are persisted before anything is spawned. */
    method Announce() returns (ghost run: seq<Label>)
      requires op == Launching
      modifies this, db
      ensures run == [Launch(WriteWanted), Launch(WriteStarting)] && Exec(old(Now()), run) == Some(Now())
      ensures Now() == old(Now()).(desired := WantRunning, actual := Starting, op := Reserving({}),
                                   row := Some(Row(WantRunning, Starting, handle, instance, restarts)))
    {
      ghost var s0 := Now();
      run := [];
      NoSteps(s0);
      hide Exec;
      SetDesired(WantRunning);
      op := Wanted;
      run := Advance(s0, run, s0, Launch(WriteWanted));
      ghost var s1 := Now();
      SetStatus(Starting);
      op := Reserving({});
      run := Advance(s0, run, s1, Launch(WriteStarting));
    }

    method ReservePort() returns (port: nat)
      requires op.Reserving?
      modifies this, db
      ensures Next(old(Now()), Launch(ReserveOne)) == Some(Now())
      ensures port == old(db.nextPort)
      ensures Now() == old(Now()).(held := old(db.held) + {port}, nextPort := port + 1, op := Reserving(old(op.mine) + {port}))
    {
      port := db.nextPort;
      db.held, db.nextPort, op := db.held + {port}, port + 1, Reserving(op.mine + {port});
    }

    /** ReserveService claims the ports one by one. */
    method Reserve(ports: nat) returns (claimed: set<nat>, ghost run: seq<Label>)
      requires op == Reserving({})
      modifies this, db
      ensures Exec(old(Now()), run) == Some(Now()) && forall l <- run :: l == Launch(ReserveOne)
      ensures claimed == Claimed(old(db.nextPort), ports)
      ensures Now() == old(Now()).(held := old(db.held) + claimed, nextPort := old(db.nextPort) + ports,
                                   op := Reserving(claimed))
    {
      ghost var s0 := Now();
      run, claimed := [], {};
      NoSteps(s0);
      hide Next, Exec;
      for i := 0 to ports
        invariant Exec(s0, run) == Some(Now()) && forall l <- run :: l == Launch(ReserveOne)
        invariant claimed == Claimed(s0.nextPort, i)
        invariant Now() == s0.(held := s0.held + claimed, nextPort := s0.nextPort + i, op := Reserving(claimed))
      {
        ghost var m := Now();
        var port := ReservePort();
        claimed := claimed + {port};
        run := Advance(s0, run, m, Launch(ReserveOne));
      }
    }

    method GiveBack(port: nat)
      requires op.Unwinding? && port in op.mine
      modifies this, db
      ensures Next(old(Now()), Launch(RollbackOne(port))) == Some(Now())
      ensures Now() == old(Now()).(held := old(db.held) - {port}, op := Unwinding(old(op.mine) - {port}))
    {
      db.held, op := db.held - {port}, Unwinding(op.mine - {port});
    }

    /** ReserveService gives back, one by one, what it has claimed. */
    method Rollback(claimed: set<nat>) returns (ghost run: seq<Label>)
      requires op == Unwinding(claimed)
      modifies this, db
      ensures Exec(old(Now()), run) == Some(Now()) && Launch(Spawn) !in run
      ensures Now() == old(Now()).(held := old(db.held) - claimed, op := Unwinding({}))
    {
      ghost var s0 := Now();
      run := [];
      NoSteps(s0);
      hide Next, Exec;
      var left := claimed;
      while left != {}
        invariant left <= claimed && Exec(s0, run) == Some(Now()) && Launch(Spawn) !in run
        invariant Now() == s0.(held := s0.held - (claimed - left), op := Unwinding(left))
        decreases |left|
      {
        ghost var m := Now();
        var port :| port in left;
        left := left - {port};
        GiveBack(port);
        run := Advance(s0, run, m, Launch(RollbackOne(port)));
      }
    }

    /** sv.fail at the end of a launch. */
    method Fail(failure: Status)
      requires op == Failing(failure)
      modifies this, db
      ensures Next(old(Now()), Launch(WriteFailure)) == Some(Now())
      ensures Now() == old(Now()).(actual := failure, op := Idle,
                                   row := Some(Row(desired, failure, handle, instance, restarts)))
    {
      SetStatus(failure);
      op := Idle;
    }

    method StartProcess() returns (run: nat)
      requires op.Reserving?
      modifies this, host
      ensures Next(old(Now()), Launch(Spawn)) == Some(Now()) && run == old(host.nextRun)
      ensures Now() == old(Now()).(alive := old(host.alive) + {run}, nextRun := run + 1, op := Op.Spawned(run))
    {
      run := host.Start();
      op := Op.Spawned(run);
    }

    method Commit(started: nat)
      requires op == Op.Spawned(started)
      modifies this, db
      ensures Next(old(Now()), Launch(LaunchStep.Commit)) == Some(Now())
      ensures Now() == old(Now()).(handle := Some(started), instance := Some(started), actual := Running,
                                   row := Some(Row(desired, Running, Some(started), Some(started), restarts)),
                                   op := Recorded(started))
    {
      CommitStep(Now(), started);
      hide Next;
      handle, instance, actual := Some(started), Some(started), Running;
      Persist();
      op := Recorded(started);
    }

    method InsertInstance(started: nat, plan: Plan)
      requires op == Recorded(started)
      modifies this, db
      ensures Next(old(Now()), Launch(Insert(plan))) == Some(Now())
      ensures Now() == old(Now()).(instances := old(db.instances)[started := Running], op := Idle,
                                   tasks := old(tasks)[old(nextTask) := Task(generation, started, plan, Watching)],
                                   nextTask := old(nextTask) + 1)
    {
      db.instances := db.instances[started := Running];
      GoWatch(started, plan);
      op := Idle;
    }

    method Resign(failure: Status)
      requires (op == Reserving({}) || op == Unwinding({})) && IsFailure(failure)
      modifies this`op
      ensures Next(old(Now()), Launch(LaunchStep.GiveUp(failure))) == Some(Now())
      ensures Now() == old(Now()).(op := Failing(failure))
    {
      op := Failing(failure);
    }

    /** The end of a launch that a missing precondition or a port conflict ends. */
    method GiveUp(failure: Status) returns (ghost run: seq<Label>)
      requires (op == Reserving({}) || op == Unwinding({})) && IsFailure(failure)
      modifies this, db
      ensures Exec(old(Now()), run) == Some(Now()) && Launch(Spawn) !in run
      ensures Now() == old(Now()).(actual := failure, op := Idle,
                                   row := Some(Row(desired, failure, handle, instance, restarts)))
    {
      ghost var s0 := Now();
      run := [];
      NoSteps(s0);
      hide Next, Exec;
      Resign(failure);
      run := Advance(s0, run, s0, Launch(LaunchStep.GiveUp(failure)));
      ghost var m := Now();
      Fail(failure);
      run := Advance(s0, run, m, Launch(WriteFailure));
    }

    method BreakOff(failure: Status)
      requires op.Reserving? && IsFailure(failure)
      modifies this`op
      ensures Next(old(Now()), Launch(LateFailure(failure))) == Some(Now())
      ensures Now() == old(Now()).(op := Dropping(failure))
    {
      op := Dropping(failure);
    }

    method DropReservation(failure: Status)
      requires op == Dropping(failure)
      modifies this, db
      ensures Next(old(Now()), Launch(DropPorts)) == Some(Now())
      ensures Now() == old(Now()).(held := {}, op := Failing(failure))
    {
      ReleasePorts();
      op := Failing(failure);
    }

    /** The end of a launch that breaks after its ports are reserved. */
    method Abandon(failure: Status) returns (ghost run: seq<Label>)
      requires op.Reserving? && IsFailure(failure)
      modifies this, db
      ensures Exec(old(Now()), run) == Some(Now()) && Launch(Spawn) !in run
      ensures Now() == old(Now()).(actual := failure, held := {}, op := Idle,
                                   row := Some(Row(desired, failure, handle, instance, restarts)))
    {
      ghost var s0 := Now();
      run := [];
      NoSteps(s0);
      hide Next, Exec;
      BreakOff(failure);
      run := Advance(s0, run, s0, Launch(LateFailure(failure)));
      ghost var s1 := Now();
      DropReservation(failure);
      run := Advance(s0, run, s1, Launch(DropPorts));
      ghost var s2 := Now();
      Fail(failure);
      run := Advance(s0, run, s2, Launch(WriteFailure));
    }

    /** The end of a launch that succeeds. */
    method Succeed(plan: Plan) returns (ghost run: seq<Label>)
      requires op.Reserving?
      modifies this, db, host
      ensures Exec(old(Now()), run) == Some(Now()) && run == CompletionSteps(plan)
      ensures Now() == old(Now()).(
                actual := Running, handle := Some(old(host.nextRun)), instance := Some(old(host.nextRun)), op := Idle,
                row := Some(Row(desired, Running, Some(old(host.nextRun)), Some(old(host.nextRun)), restarts)),
                instances := old(db.instances)[old(host.nextRun) := Running],
                alive := old(host.alive) + {old(host.nextRun)}, nextRun := old(host.nextRun) + 1,
                tasks := old(tasks)[old(nextTask) := Task(generation, old(host.nextRun), plan, Watching)],
                nextTask := old(nextTask) + 1)
    {
      ghost var s0 := Now();
      run := [];
      NoSteps(s0);
      hide Next, Exec;
      var started := StartProcess();
      run := Advance(s0, run, s0, Launch(Spawn));
      ghost var s1 := Now();
      Commit(started);
      run := Advance(s0, run, s1, Launch(LaunchStep.Commit));
      ghost var s2 := Now();
      InsertInstance(started, plan);
      run := Advance(s0, run, s2, Launch(Insert(plan)));
    }

    /** The end of a launch whose ports are not all free. */
    method Retreat(claimed: set<nat>, failure: Status) returns (ghost run: seq<Label>)
      requires op == Reserving(claimed) && IsFailure(failure)
      modifies this, db
      ensures Exec(old(Now()), run) == Some(Now()) && Launch(Spawn) !in run
      ensures Now() == old(Now()).(actual := failure, held := old(db.held) - claimed, op := Idle,
                                   row := Some(Row(desired, failure, handle, instance, restarts)))
    {
      ghost var s0 := Now();
      run := [];
      NoSteps(s0);
      op := Unwinding(claimed);
      run := Advance(s0, run, s0, Launch(ReserveConflict));
      hide Next, Exec;
      ghost var rest := Rollback(claimed);
      ExecAppend(s0, run, rest);
      run := run + rest;
      rest := GiveUp(failure);
      ExecAppend(s0, run, rest);
      run := run + rest;
    }

    /** Everything in launch after the desired state is on record. */
    method Carry(attempt: Attempt) returns (ok: bool, ghost run: seq<Label>)
      requires op == Reserving({}) && Sensible(attempt)
      modifies this, db, host
      ensures Exec(old(Now()), run) == Some(Now()) && ok == attempt.Succeeds?
      ensures Now() == Carried(old(Now()), attempt)
      ensures !ok ==> Launch(Spawn) !in run
    {
      hide Next, Exec;
      ghost var s0 := Now();
      ok := attempt.Succeeds?;
      if attempt.Refused? {
        run := GiveUp(attempt.failure);
        return;
      }
      var claimed;
      ghost var rest: seq<Label>;
      claimed, run := Reserve(attempt.ports);
      match attempt {
        case Conflict(_, failure) =>
          rest := Retreat(claimed, failure);
        case Broken(_, failure) =>
          rest := Abandon(failure);
        case Succeeds(_, plan) =>
          rest := Succeed(plan);
      }
      ExecAppend(s0, run, rest);
      run := run + rest;
    }

    /** launch on behalf of a user, with the operation lock held. */
    method Start(attempt: Attempt) returns (ok: bool, ghost run: seq<Label>)
      requires op == Idle && Sensible(attempt)
      modifies this, db, host
      ensures Exec(old(Now()), run) == Some(Now()) && op == Idle
      ensures ok <==> !old(Lifecycle.IsRunning(Now())) && attempt.Succeeds?
      ensures old(Lifecycle.IsRunning(Now())) ==> run == [] && Now() == old(Now())
      ensures !old(Lifecycle.IsRunning(Now())) ==>
                && run != [] && run[0] == Launch(UserBegin)
                && Now() == Carried(old(Now()).(desired := WantRunning, generation := old(generation) + 1, restarts := 0),
                                    attempt)
      ensures !old(Lifecycle.IsRunning(Now())) ==> actual == if ok then Running else attempt.failure
      ensures ok ==> handle == instance == Some(old(host.nextRun)) && restarts == 0
      ensures ok ==> db.held == old(db.held) + Claimed(old(db.nextPort), attempt.ports)
      ensures ok ==> tasks == old(tasks)[old(nextTask) := Task(generation, old(host.nextRun), attempt.plan, Watching)]
    {
      ghost var s0 := Now();
      run := [];
      NoSteps(s0);
      assert !Lifecycle.IsRunning(s0) ==> Next(s0, Launch(UserBegin)) == Some(Begin(s0, false));
      hide Next, Exec;
      var live := IsRunning();
      if live {
        ok := false;
        return;
      }
      BeginLaunch(false);
      run := Advance(s0, run, s0, Launch(UserBegin));
      ghost var rest := Announce();
      ExecAppend(s0, run, rest);
      run := run + rest;
      RecordIsReplaced(s0.(desired := WantRunning, generation := generation, restarts := 0), db.row.value, attempt);
      ok, rest := Carry(attempt);
      ExecAppend(s0, run, rest);
      run := run + rest;
      assert run[0] == Launch(UserBegin);
    }

    // ------------------------------------------------------------ stopInstance

    method BeginStop()
      requires op == Idle
      modifies this, db
      ensures Next(old(Now()), Lifecycle.Stop(StopBegin)) == Some(Now())
      ensures Now() == old(Now()).(desired := WantStopped, op := Halting,
                                   row := Some(Row(WantStopped, actual, handle, instance, restarts)))
    {
      SetDesired(WantStopped);
      op := Halting;
    }

    /** A stop that finds no handle. */
    method StopNothing() returns (ghost run: seq<Label>)
      requires op == Halting && handle.None?
      modifies this, db
      ensures Exec(old(Now()), run) == Some(Now())
      ensures Now() == old(Now()).(generation := old(generation) + 1, actual := Stopped, held := {}, op := Idle,
                                   row := Some(Row(desired, Stopped, None, instance, restarts)))
    {
      ghost var s0 := Now();
      run := [];
      NoSteps(s0);
      hide Exec;
      generation, op := generation + 1, Clearing;
      run := Advance(s0, run, s0, Lifecycle.Stop(StopTake));
      ghost var s1 := Now();
      ReleasePorts();
      op := Cleared;
      run := Advance(s0, run, s1, Lifecycle.Stop(StopClear));
      ghost var s2 := Now();
      SetStatus(Stopped);
      op := Idle;
      run := Advance(s0, run, s2, Lifecycle.Stop(StopSettle));
    }

    method TakeInstance() returns (target: nat, id: Option<nat>)
      requires op == Halting && handle.Some?
      modifies this
      ensures Next(old(Now()), Lifecycle.Stop(StopTake)) == Some(Now())
      ensures target == old(handle).value && id == old(instance)
      ensures Now() == old(Now()).(generation := old(generation) + 1, actual := Stopping, op := Op.Killing(target, id))
    {
      target, id := handle.value, instance;
      generation, actual, op := generation + 1, Stopping, Op.Killing(target, id);
    }

    method KillInstance(target: nat, id: Option<nat>)
      requires op == Op.Killing(target, id)
      modifies this, host
      ensures Next(old(Now()), Lifecycle.Stop(Kill)) == Some(Now())
      ensures Now() == old(Now()).(alive := old(host.alive) - {target}, killed := old(killed) + {target},
                                   op := Op.Killed(target, id))
    {
      host.Stop(target);
      killed, op := killed + {target}, Op.Killed(target, id);
    }

    method ForgetInstance(target: nat, id: Option<nat>)
      requires op == Op.Killed(target, id)
      modifies this
      ensures Next(old(Now()), Lifecycle.Stop(KillTake)) == Some(Now())
      ensures Now() == old(Now()).(handle := None, actual := Stopped, op := Closing(id))
    {
      handle, actual, op := None, Stopped, Closing(id);
    }

    method RecordStop(id: Option<nat>)
      requires op == Closing(id)
      modifies this, db
      ensures Next(old(Now()), Lifecycle.Stop(StopRecord)) == Some(Now())
      ensures Now() == Finished(old(Now()), id, Stopped).(op := Freeing)
    {
      FinishedAgrees(Now(), id, Stopped);
      FinishInstance(id, Stopped);
      op := Freeing;
    }

    method ReleaseStopped()
      requires op == Freeing
      modifies this, db
      ensures Next(old(Now()), Lifecycle.Stop(StopRelease)) == Some(Now())
      ensures Now() == old(Now()).(held := {}, op := Sealing)
    {
      ReleasePorts();
      op := Sealing;
    }

    method SaveStopped()
      requires op == Sealing
      modifies this, db
      ensures Next(old(Now()), Lifecycle.Stop(StopSave)) == Some(Now())
      ensures Now() == old(Now()).(op := Idle, row := Some(Row(desired, actual, handle, instance, restarts)))
    {
      Persist();
      op := Idle;
    }

    method KillRunning() returns (id: Option<nat>, ghost run: seq<Label>)
      requires op == Halting && handle.Some?
      modifies this, db, host
      ensures Exec(old(Now()), run) == Some(Now()) && id == old(instance)
      ensures Now() == old(Now()).(generation := old(generation) + 1, actual := Stopped, handle := None, op := Closing(id),
                                   alive := old(host.alive) - {old(handle).value},
                                   killed := old(killed) + {old(handle).value})
    {
      ghost var s0 := Now();
      run := [];
      NoSteps(s0);
      hide Next, Exec;
      var target;
      target, id := TakeInstance();
      run := Advance(s0, run, s0, Lifecycle.Stop(StopTake));
      ghost var m := Now();
      KillInstance(target, id);
      run := Advance(s0, run, m, Lifecycle.Stop(Kill));
      m := Now();
      ForgetInstance(target, id);
      run := Advance(s0, run, m, Lifecycle.Stop(KillTake));
    }

    method SealStop(id: Option<nat>) returns (ghost run: seq<Label>)
      requires op == Closing(id)
      modifies this, db
      ensures Exec(old(Now()), run) == Some(Now())
      ensures Now() == Finished(old(Now()), id, Stopped).(
                held := {}, op := Idle, row := Some(Row(desired, actual, handle, instance, restarts)))
    {
      ghost var s0 := Now();
      run := [];
      NoSteps(s0);
      hide Next, Exec;
      RecordStop(id);
      run := Advance(s0, run, s0, Lifecycle.Stop(StopRecord));
      ghost var m := Now();
      ReleaseStopped();
      run := Advance(s0, run, m, Lifecycle.Stop(StopRelease));
      m := Now();
      SaveStopped();
      run := Advance(s0, run, m, Lifecycle.Stop(StopSave));
    }

    /** stopInstance, with the operation lock held. */
    method StopInstance() returns (ghost run: seq<Label>)
      requires op == Idle
      modifies this, db, host
      ensures Exec(old(Now()), run) == Some(Now()) && op == Idle
      ensures Now() == Halted(old(Now()))
      ensures desired == WantStopped && actual == Stopped && handle.None? && db.held == {}
      ensures host.alive == old(host.alive) - if old(handle).Some? then {old(handle).value} else {}
      ensures host.nextRun == old(host.nextRun)
    {
      ghost var s0 := Now();
      run := [];
      NoSteps(s0);
      hide Next, Exec;
      BeginStop();
      run := Advance(s0, run, s0, Lifecycle.Stop(StopBegin));
      ghost var rest: seq<Label>;
      if handle.None? {
        rest := StopNothing();
      } else {
        var id;
        id, rest := KillRunning();
        ExecAppend(s0, run, rest);
        run := run + rest;
        rest := SealStop(id);
      }
      ExecAppend(s0, run, rest);
      run := run + rest;
    }

    /** RestartService: stop, forget the attempts, launch, all under one lock. */
    method RestartByUser(attempt: Attempt) returns (ok: bool, ghost run: seq<Label>)
      requires op == Idle && Sensible(attempt)
      modifies this, db, host
      ensures Exec(old(Now()), run) == Some(Now()) && op == Idle
      ensures ok <==> attempt.Succeeds?
      ensures Now() == Carried(Halted(old(Now())).(desired := WantRunning, generation := old(generation) + 2, restarts := 0),
                               attempt)
      ensures ok ==> actual == Running && handle == instance == Some(old(host.nextRun))
      ensures !ok ==> actual == attempt.failure
    {
      hide Next, Exec, Carried, WithOutcome, Identified;
      ghost var s0 := Now();
      run := StopInstance();
      ghost var s1 := Now();
      restarts := 0;
      ghost var rest;
      ok, rest := Start(attempt);
      UserStartForgets(s1, rest);
      ExecAppend(s0, run, rest);
      run := run + rest;
    }

    // ------------------------------------------------- watch and maybeRestart

    /** The region of watch that takes the exit.  False if the instance has been
        handled already. */
    method TakeExit(t: nat, stable: bool) returns (mine: bool)
      requires t in tasks && tasks[t].phase.Watching? && tasks[t].run !in host.alive
      modifies this
      ensures Next(old(Now()), Watch(t, Take(stable))) == Some(Now())
      ensures mine == (old(tasks)[t].gen == old(generation))
      ensures mine ==>
                Now() == old(Now()).(handle := None, actual := if desired == WantRunning then Crashed else Stopped,
                                     restarts := if stable then 0 else old(restarts),
                                     tasks := old(tasks)[t := old(tasks)[t].(phase := Recording(instance, desired))])
      ensures !mine ==> Now() == Drop(old(Now()), t)
    {
      if tasks[t].gen != generation {
        tasks := tasks - {t};
        mine := false;
        return;
      }
      mine := true;
      handle := None;
      actual := if desired == WantRunning then Crashed else Stopped;
      if stable {
        restarts := 0;
      }
      tasks := tasks[t := tasks[t].(phase := Recording(instance, desired))];
    }

    method RecordExit(t: nat)
      requires t in tasks && tasks[t].phase.Recording?
      modifies this, db
      ensures Next(old(Now()), Watch(t, Record)) == Some(Now())
      ensures var phase := old(tasks)[t].phase;
              Now() == Finished(old(Now()), phase.instance, if phase.wanted == WantRunning then Crashed else Stopped).(
                         tasks := old(tasks)[t := old(tasks)[t].(phase := Releasing(phase.wanted))])
    {
      FinishedAgrees(Now(), tasks[t].phase.instance, FinalStatus(tasks[t].phase.wanted));
      var phase := tasks[t].phase;
      FinishInstance(phase.instance, FinalStatus(phase.wanted));
      tasks := tasks[t := tasks[t].(phase := Releasing(phase.wanted))];
    }

    method ReleaseAfterExit(t: nat)
      requires t in tasks && tasks[t].phase.Releasing?
      modifies this, db
      ensures Next(old(Now()), Watch(t, Release)) == Some(Now())
      ensures Now() == old(Now()).(held := {},
                                   tasks := old(tasks)[t := old(tasks)[t].(phase := Saving(old(tasks)[t].phase.wanted))])
    {
      ReleasePorts();
      tasks := tasks[t := tasks[t].(phase := Saving(tasks[t].phase.wanted))];
    }

    method SaveAfterExit(t: nat)
      requires t in tasks && tasks[t].phase.Saving?
      modifies this, db
      ensures Next(old(Now()), Watch(t, Save)) == Some(Now())
      ensures Now() == old(Now()).(
                row := Some(Row(desired, actual, handle, instance, restarts)),
                tasks := if old(tasks)[t].phase.wanted == WantRunning
                         then old(tasks)[t := old(tasks)[t].(phase := Deciding)] else old(tasks) - {t})
    {
      Persist();
      tasks := if tasks[t].phase.wanted == WantRunning then tasks[t := tasks[t].(phase := Deciding)] else tasks - {t};
    }

    /** maybeRestart up to the start of the backoff timer. */
    method Decide(t: nat, clean: bool)
      requires t in tasks && tasks[t].phase.Deciding?
      modifies this, db
      ensures Next(old(Now()), Watch(t, WatchStep.Decide(clean))) == Some(Now())
      ensures Now() == Decided(old(Now()), t, clean)
    {
      var plan := tasks[t].plan;
      match plan.rule {
        case Always =>
        case OnFailure =>
          if clean {
            tasks := tasks - {t};
            return;
          }
        case Never =>
          tasks := tasks - {t};
          return;
      }
      var attempt := restarts;
      if plan.maxAttempts > 0 && attempt >= plan.maxAttempts {
        SetStatus(Failed);
        tasks := tasks - {t};
        return;
      }
      tasks := tasks[t := tasks[t].(phase := Backoff(attempt))];
    }

    /** The writes of watch after it has taken an exit. */
    method AccountForExit(t: nat) returns (wanted: Desired, ghost run: seq<Label>)
      requires t in tasks && tasks[t].phase.Recording?
      modifies this, db
      ensures Exec(old(Now()), run) == Some(Now()) && wanted == old(tasks)[t].phase.wanted
      ensures var status := if wanted == WantRunning then Crashed else Stopped;
              Now() == Finished(old(Now()), old(tasks)[t].phase.instance, status).(
                         held := {}, row := Some(Row(desired, actual, handle, instance, restarts)),
                         tasks := if wanted == WantRunning then old(tasks)[t := old(tasks)[t].(phase := Deciding)]
                                  else old(tasks) - {t})
    {
      ghost var s0 := Now();
      run := [];
      NoSteps(s0);
      hide Next, Exec;
      RecordExit(t);
      run := Advance(s0, run, s0, Watch(t, Record));
      ghost var m := Now();
      ReleaseAfterExit(t);
      run := Advance(s0, run, m, Watch(t, Release));
      m := Now();
      wanted := tasks[t].phase.wanted;
      SaveAfterExit(t);
      run := Advance(s0, run, m, Watch(t, Save));
    }

    /** watch, from the end of the process to the start of the backoff timer. */
    method HandleExit(t: nat, stable: bool, clean: bool) returns (ghost run: seq<Label>)
      requires t in tasks && tasks[t].phase.Watching? && tasks[t].run !in host.alive
      modifies this, db
      ensures Exec(old(Now()), run) == Some(Now()) && desired == old(desired) && op == old(op)
      ensures old(tasks)[t].gen != old(generation) ==> Now() == old(Now()).(tasks := old(tasks) - {t})
      ensures old(tasks)[t].gen == old(generation) ==> Now() == Exited(old(Now()), t, stable, clean)
      ensures old(tasks)[t].gen == old(generation) ==>
                && handle.None? && db.held == {}
                && (desired == WantStopped ==> actual == Stopped && t !in tasks)
                && (desired == WantRunning ==> actual in {Crashed, Failed} && (actual == Failed ==> t !in tasks))
      ensures t in tasks ==> tasks[t].phase.Backoff? && Qualifies(tasks[t].plan, clean)
                             && !Exhausted(tasks[t].plan, tasks[t].phase.attempt)
    {
      ghost var s0 := Now();
      run := [];
      NoSteps(s0);
      hide Next, Exec, WithOutcome, Identified;
      var mine := TakeExit(t, stable);
      run := Advance(s0, run, s0, Watch(t, Take(stable)));
      if !mine {
        return;
      }
      ghost var taken := Now();
      var wanted;
      ghost var rest;
      wanted, rest := AccountForExit(t);
      ExitAddsUp(s0, t, stable, clean, taken, Now());
      ExecAppend(s0, run, rest);
      run := run + rest;
      if wanted == WantRunning {
        ghost var m := Now();
        Decide(t, clean);
        run := Advance(s0, run, m, Watch(t, WatchStep.Decide(clean)));
      }
    }

    /** The restart timer reads the desired state again. */
    method TimerExpires(t: nat) returns (go: bool)
      requires t in tasks && tasks[t].phase.Backoff?
      modifies this
      ensures Next(old(Now()), Watch(t, Fire)) == Some(Now())
      ensures go == (old(desired) == WantRunning)
      ensures Now() == old(Now()).(restarts := old(tasks)[t].phase.attempt + 1,
                                   tasks := if go then old(tasks)[t := old(tasks)[t].(phase := Armed)] else old(tasks) - {t})
    {
      go := desired == WantRunning;
      restarts := tasks[t].phase.attempt + 1;
      tasks := if go then tasks[t := tasks[t].(phase := Armed)] else tasks - {t};
    }

    /** The timer has the lock, and there is something to launch. */
    method BeginRelaunch(t: nat)
      requires op == Idle && t in tasks && tasks[t].phase.Armed? && !Lifecycle.IsRunning(Now())
      modifies this
      ensures Next(old(Now()), Launch(TimerBegin(t))) == Some(Now())
      ensures Now() == old(Now()).(tasks := old(tasks) - {t}, generation := old(generation) + 1, op := Launching)
    {
      tasks := tasks - {t};
      BeginLaunch(true);
    }

    /** launch on behalf of the timer, with the operation lock held. */
    method Relaunch(t: nat, attempt: Attempt) returns (ok: bool, ghost run: seq<Label>)
      requires op == Idle && t in tasks && tasks[t].phase.Armed? && !Lifecycle.IsRunning(Now()) && Sensible(attempt)
      modifies this, db, host
      ensures Exec(old(Now()), run) == Some(Now()) && ok == attempt.Succeeds?
      ensures run != [] && run[0] == Launch(TimerBegin(t))
      ensures Now() == Carried(old(Now()).(tasks := old(tasks) - {t}, desired := WantRunning,
                                           generation := old(generation) + 1),
                               attempt)
    {
      ghost var s0 := Now();
      run := [];
      NoSteps(s0);
      hide Next, Exec, Carried;
      BeginRelaunch(t);
      run := Advance(s0, run, s0, Launch(TimerBegin(t)));
      ghost var rest := Announce();
      ExecAppend(s0, run, rest);
      run := run + rest;
      RecordIsReplaced(s0.(tasks := tasks, desired := WantRunning, generation := generation), db.row.value, attempt);
      ok, rest := Carry(attempt);
      ExecAppend(s0, run, rest);
      run := run + rest;
      assert run[0] == Launch(TimerBegin(t));
    }

    /** startTracked: the timer takes the operation lock, reads the configuration
        and launches.  `problem` is what the configuration lookup reports. */
    method Restart(t: nat, problem: Option<Status>, attempt: Attempt) returns (ok: bool, ghost run: seq<Label>)
      requires op == Idle && t in tasks && tasks[t].phase.Armed? && Sensible(attempt)
      requires problem.Some? ==> problem.value == Failed || problem.value == Blocked
      modifies this, db, host
      ensures Exec(old(Now()), run) == Some(Now()) && op == Idle
      ensures ok <==> problem.None? && !old(Lifecycle.IsRunning(Now())) && attempt.Succeeds?
      ensures ok ==> actual == Running && handle == instance == Some(old(host.nextRun))
      ensures problem.Some? ==>
                Now() == old(Now()).(actual := problem.value, tasks := old(tasks) - {t},
                                     row := Some(Row(desired, problem.value, handle, instance, restarts)))
      ensures problem.None? ==> run != [] && run[0] == Launch(TimerBegin(t)) && restarts == old(restarts)
      ensures problem.None? ==>
                var waiting := old(Now()).(tasks := old(tasks) - {t});
                Now() == if old(Lifecycle.IsRunning(Now())) then waiting
                         else Carried(waiting.(desired := WantRunning, generation := old(generation) + 1), attempt)
      ensures t < old(nextTask) ==> t !in tasks
      ensures forall u <- old(tasks) | u < old(nextTask) && u != t :: u in tasks && tasks[u] == old(tasks)[u]
    {
      ghost var s0 := Now();
      run := [];
      NoSteps(s0);
      hide Exec;
      if problem.Some? {
        SetStatus(problem.value);
        tasks := tasks - {t};
        run := Advance(s0, run, s0, Watch(t, TimerBlocked(problem.value)));
        return false, run;
      }
      var live := IsRunning();
      if live {
        tasks := tasks - {t};
        run := Advance(s0, run, s0, Launch(TimerBegin(t)));
        return false, run;
      }
      hide Next;
      ok, run := Relaunch(t, attempt);
    }

    // ---------------------------------------------------------------- Reconcile

    /** The region of adopt that takes over the recorded process. */
    method Attach(record: Row)
      modifies this
      ensures Now() == old(Now()).(generation := old(generation) + 1, handle := record.pid, actual := Running,
                                   desired := record.desired, instance := record.instance,
                                   restarts := record.restarts, op := Idle)
    {
      generation, op := generation + 1, Idle;
      handle, actual, desired, instance, restarts := record.pid, Running, record.desired, record.instance, record.restarts;
    }

    method AdoptProcess(record: Row, plan: Plan)
      requires op == Loaded && db.row == Some(record) && Adoptable(Now())
      modifies this, db
      ensures Next(old(Now()), Reconcile(Adopt(plan))) == Some(Now())
      ensures Now() == Adopted(old(Now()), record, plan)
    {
      Attach(record);
      Persist();
      GoWatch(record.pid.value, plan);
    }

    method TakeVanished(record: Row)
      requires op == Loaded && db.row == Some(record) && !Adoptable(Now())
      modifies this
      ensures Next(old(Now()), Reconcile(VanishTake)) == Some(Now())
      ensures Now() == old(Now()).(handle := None, actual := if record.desired == WantRunning then Crashed else Stopped,
                                   desired := record.desired, op := Vanishing(instance))
    {
      handle, desired, actual := None, record.desired, FinalStatus(record.desired);
      op := Vanishing(instance);
    }

    method RecordVanished()
      requires op == Vanishing(instance)
      modifies this, db
      ensures Next(old(Now()), Reconcile(VanishRecord)) == Some(Now())
      ensures Now() == Finished(old(Now()), instance, actual).(op := VanishFreeing)
    {
      FinishedAgrees(Now(), instance, actual);
      FinishInstance(instance, actual);
      op := VanishFreeing;
    }

    method ReleaseVanished()
      requires op == VanishFreeing
      modifies this, db
      ensures Next(old(Now()), Reconcile(VanishRelease)) == Some(Now())
      ensures Now() == old(Now()).(held := {}, op := VanishSaving)
    {
      ReleasePorts();
      op := VanishSaving;
    }

    method SaveVanished()
      requires op == VanishSaving
      modifies this, db
      ensures Next(old(Now()), Reconcile(VanishSave)) == Some(Now())
      ensures Now() == old(Now()).(op := Idle, row := Some(Row(desired, actual, handle, instance, restarts)))
    {
      Persist();
      op := Idle;
    }

    method MarkVanished(record: Row) returns (ghost run: seq<Label>)
      requires op == Loaded && db.row == Some(record) && !Adoptable(Now())
      modifies this, db
      ensures Exec(old(Now()), run) == Some(Now()) && run == VANISH_STEPS
      ensures Now() == Gone(old(Now()), record)
    {
      ghost var s0 := Now();
      run := [];
      NoSteps(s0);
      VanishOneByOne();
      hide Next, Exec, WithOutcome, Identified;
      TakeVanished(record);
      run := Advance(s0, run, s0, Reconcile(VanishTake));
      ghost var m := Now();
      RecordVanished();
      run := Advance(s0, run, m, Reconcile(VanishRecord));
      GoneAddsUp(s0, record, m, Now());
      m := Now();
      ReleaseVanished();
      run := Advance(s0, run, m, Reconcile(VanishRelease));
      m := Now();
      SaveVanished();
      run := Advance(s0, run, m, Reconcile(VanishSave));
    }

    /** Reconcile for one row: adopt the recorded process or mark it vanished. */
    method ReconcileRow(plan: Plan) returns (adopted: bool, ghost run: seq<Label>)
      requires op == if db.row.Some? && WasSupervised(db.row.value.actual) then Loaded else Idle
      modifies this, db
      ensures Exec(old(Now()), run) == Some(Now()) && op == Idle
      ensures adopted <==> old(op).Loaded? && old(Adoptable(Now()))
      ensures Now() ==
              match old(db.row)
              case None => old(Now())
              case Some(record) =>
                if record.actual !in {Running, Starting, Stopping, Unknown} then old(Now())
                else if record.pid.Some? && record.pid.value in old(host.alive) then Adopted(old(Now()), record, plan)
                else Gone(old(Now()), record)
    {
      ghost var s0 := Now();
      run := [];
      adopted := false;
      NoSteps(s0);
      hide Next, Exec;
      if db.row.None? || !WasSupervised(db.row.value.actual) {
        return;
      }
      var record := db.row.value;
      if record.pid.Some? && record.pid.value in host.alive {
        adopted := true;
        AdoptProcess(record, plan);
        run := Advance(s0, run, s0, Reconcile(Adopt(plan)));
      } else {
        run := MarkVanished(record);
      }
    }
  }

  /** When the daemon dies, database and processes are what is left of a service, and the
      next daemon starts from there. */
  lemma DeathLeavesDatabase(service: Service)
    ensures Next(service.Now(), Crash) ==
            Some(Offline(service.db, service.host).(lost := Die(service.Now()).lost))
  {
  }
}
