/**
 Which deaths of a daemon put a live process beyond reach, over all reachable
 states, and what follows for the number of live processes of a service.
 */
module ProcessTracking {
  import opened Wrappers
  import opened Lifecycle
  import opened Runs
  import opened LifecycleSafety

  /** The row names the process of the handle, and never one that is not yet committed. */
  ghost predicate PidOk(s: State) {
    && (s.up && s.handle.Some? ==> s.row.Some? && s.row.value.pid == s.handle)
    && (s.op.Spawned? && s.row.Some? ==> s.row.value.pid != Some(s.op.run))
  }

  /** The row is kept or written from memory, and the handle kept, dropped or written. */
  lemma PidKept(s: State, n: State)
    requires PidOk(s)
    requires n.row == s.row || n.row == Some(RowOf(n))
    requires n.up && n.handle.Some? ==> n.row == Some(RowOf(n)) || (s.up && n.handle == s.handle)
    requires n.op.Spawned? ==> n.op == s.op && n.handle != Some(n.op.run)
    ensures PidOk(n)
  {
  }

  lemma LaunchKeepsPid(s: State, l: LaunchStep, n: State)
    requires s.up && Inv(s) && PidOk(s) && NextLaunch(s, l) == Some(n)
    ensures PidOk(n)
  {
    if !l.Spawn? {
      PidKept(s, n);
    }
  }

  lemma StopKeepsPid(s: State, l: StopStep, n: State)
    requires s.up && PidOk(s) && NextStop(s, l) == Some(n)
    ensures PidOk(n)
  {
    PidKept(s, n);
  }

  lemma WatchKeepsPid(s: State, t: nat, l: WatchStep, n: State)
    requires s.up && OpOk(s) && PidOk(s) && t in s.tasks && NextWatch(s, t, l) == Some(n)
    ensures PidOk(n)
  {
    PidKept(s, n);
  }

  lemma ReconcileKeepsPid(s: State, l: ReconcileStep, n: State)
    requires s.up && PidOk(s) && NextReconcile(s, l) == Some(n)
    ensures PidOk(n)
  {
    PidKept(s, n);
  }

  lemma DaemonKeepsPid(s: State, l: Label, n: State)
    requires Inv(s) && PidOk(s) && Next(s, l) == Some(n)
    requires l.Exit? || l.Crash? || l.Boot? || l.FailOnly?
    ensures PidOk(n)
  {
    PidKept(s, n);
  }

  lemma StepKeepsPid(s: State, l: Label, n: State)
    requires Inv(s) && PidOk(s) && Next(s, l) == Some(n)
    ensures PidOk(n)
  {
    match l
    case Launch(step) => LaunchKeepsPid(s, step, n);
    case Stop(step) => StopKeepsPid(s, step, n);
    case Watch(t, step) => WatchKeepsPid(s, t, step, n);
    case Reconcile(step) => ReconcileKeepsPid(s, step, n);
    case _ => DaemonKeepsPid(s, l, n);
  }

  lemma {:induction false} RunKeepsPid(s: State, run: seq<Label>)
    requires Inv(s) && PidOk(s) && Exec(s, run).Some?
    ensures Inv(Exec(s, run).value) && PidOk(Exec(s, run).value)
    decreases |run|
  {
    hide Inv, PidOk, Next;
    if run != [] {
      var n := Next(s, run[0]).value;
      StepKeepsInv(s, run[0], n);
      StepKeepsPid(s, run[0], n);
      RunKeepsPid(n, run[1..]);
    }
  }

  // ---------------------------------------------------------------- what is lost

  /** A live process that the next daemon would not look for: spawned and not yet
      committed, or behind a row that says there is none. */
  predicate Exposed(s: State) {
    || (s.op.Spawned? && s.op.run in s.alive)
    || (IsRunning(s) && !RowSupervised(s))
  }

  lemma ExposedIsLost(s: State)
    requires s.up && Inv(s) && PidOk(s) && Exposed(s)
    ensures Die(s).lost != s.lost
  {
    var p := if s.op.Spawned? && s.op.run in s.alive then s.op.run else s.handle.value;
    assert p in Die(s).lost && p !in s.lost;
  }

  lemma HiddenIsKept(s: State)
    requires s.up && Inv(s) && PidOk(s) && !Exposed(s)
    ensures Die(s).lost == s.lost
  {
    forall p | p in s.alive && p !in s.lost
      ensures Findable(s.row) == Some(p)
    {
      assert s.handle == Some(p) || s.op == Spawned(p) || s.op.Loaded?;
    }
  }

  /** The processes beyond reach change exactly when a daemon dies while one is exposed. */
  lemma ProcessLostExactly(past: seq<Label>, s: State, l: Label, n: State)
    requires Exec(INIT, past) == Some(s) && Next(s, l) == Some(n)
    ensures n.lost != s.lost <==> l.Crash? && Exposed(s)
  {
    RunKeepsPid(INIT, past);
    if l.Crash? {
      if Exposed(s) {
        ExposedIsLost(s);
      } else {
        HiddenIsKept(s);
      }
    } else {
      LostOnlyByDeath(s, l, n);
    }
  }

  lemma WatchLosesNothing(s: State, t: nat, l: WatchStep, n: State)
    requires t in s.tasks && NextWatch(s, t, l) == Some(n)
    ensures n.lost == s.lost
  {
  }

  lemma LaunchLosesNothing(s: State, l: LaunchStep, n: State)
    requires NextLaunch(s, l) == Some(n)
    ensures n.lost == s.lost
  {
  }

  lemma StopLosesNothing(s: State, l: StopStep, n: State)
    requires NextStop(s, l) == Some(n)
    ensures n.lost == s.lost
  {
  }

  lemma LostOnlyByDeath(s: State, l: Label, n: State)
    requires Next(s, l) == Some(n) && !l.Crash?
    ensures n.lost == s.lost
  {
    match l
    case Watch(t, step) => WatchLosesNothing(s, t, step, n);
    case Launch(step) => LaunchLosesNothing(s, step, n);
    case Stop(step) => StopLosesNothing(s, step, n);
    case _ =>
  }

  /** No daemon dies on the way while a process is exposed. */
  ghost predicate CleanDeaths(s: State, run: seq<Label>)
    requires Exec(s, run).Some?
    decreases |run|
  {
    run == [] ||
    ((run[0].Crash? ==> !Exposed(s)) && CleanDeaths(Next(s, run[0]).value, run[1..]))
  }

  lemma {:induction false} LostGrows(s: State, run: seq<Label>)
    requires Inv(s) && PidOk(s) && Exec(s, run).Some?
    ensures s.lost <= Exec(s, run).value.lost
    ensures Exec(s, run).value.lost == s.lost <==> CleanDeaths(s, run)
    decreases |run|
  {
    hide Inv, PidOk, Next, Exposed, Die;
    if run != [] {
      var l, n := run[0], Next(s, run[0]).value;
      StepKeepsInv(s, l, n);
      StepKeepsPid(s, l, n);
      StepLoses(s, l, n);
      LostGrows(n, run[1..]);
    }
  }

  lemma StepLoses(s: State, l: Label, n: State)
    requires Inv(s) && PidOk(s) && Next(s, l) == Some(n)
    ensures s.lost <= n.lost && (n.lost == s.lost <==> (l.Crash? ==> !Exposed(s)))
  {
    hide Inv, PidOk, Exposed;
    if l.Crash? {
      if Exposed(s) {
        ExposedIsLost(s);
      } else {
        HiddenIsKept(s);
      }
    } else {
      LostOnlyByDeath(s, l, n);
    }
  }

  /** Every process stays within reach all along a run from a fresh installation
      exactly when no daemon dies on the way while one is exposed. */
  lemma NothingLostExactly(run: seq<Label>, s: State)
    requires Exec(INIT, run) == Some(s)
    ensures s.lost == {} <==> CleanDeaths(INIT, run)
  {
    LostGrows(INIT, run);
  }

  /** And then the service never has two live processes. */
  lemma OneProcessAtMost(run: seq<Label>, s: State)
    requires Exec(INIT, run) == Some(s) && CleanDeaths(INIT, run)
    ensures |s.alive| <= 1
  {
    NothingLostExactly(run, s);
    forall p, q | p in s.alive && q in s.alive ensures p == q {
      OneLiveProcess(run, s, p, q);
    }
    if p :| p in s.alive {
      assert s.alive == {p};
    }
  }

  /** Without that there can be two: a start, a failure recorded for the running
      service, the death of the daemon, another start. */
  lemma TwoLiveProcesses(plan: Plan) returns (run: seq<Label>, s: State)
    ensures run == [Boot] + LaunchSteps(plan) + [FailOnly(Blocked), Crash, Boot] + LaunchSteps(plan)
    ensures Exec(INIT, run) == Some(s) && {0, 1} <= s.alive && IsRunning(s)
  {
    hide Exec;
    run, s := FirstLaunch(plan);
    run, s := Then(INIT, run, s, FailOnly(Blocked));
    DeathAndBoot(s);
    ExecAppend(INIT, run, [Crash, Boot]);
    run, s := run + [Crash, Boot], LoadRow(Die(s));
    var n := SuccessfulLaunch(s, plan);
    ExecAppend(INIT, run, LaunchSteps(plan));
    run, s := run + LaunchSteps(plan), n;
  }
}
