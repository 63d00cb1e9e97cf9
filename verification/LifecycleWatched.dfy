/** No live instance goes unwatched: whenever its process exits, some watcher of
    the current generation is there to account for it. */
module LifecycleWatched {
  import opened Wrappers
  import opened Lifecycle
  import opened LifecycleSafety

  ghost predicate Watches(s: State, t: nat) {
    && t in s.tasks && s.tasks[t].gen == s.generation && s.tasks[t].phase.Watching?
    && s.handle == Some(s.tasks[t].run)
  }

  /** A running instance has its watcher, or the operation that has just
      committed it or is about to stop it is still at work. */
  ghost predicate Watched(s: State) {
    IsRunning(s) ==> s.op.Killing? || s.op.Recorded? || exists t :: Watches(s, t)
  }

  lemma LaunchKeepsWatched(s: State, l: LaunchStep, n: State)
    requires s.up && Inv(s) && Watched(s) && NextLaunch(s, l) == Some(n)
    ensures Watched(n)
  {
    if l.Insert? {
      assert Watches(n, s.nextTask);
    } else if l.TimerBegin? {
      TimerBeginKeepsWatched(s, l.task, n);
    }
  }

  lemma TimerBeginKeepsWatched(s: State, u: nat, n: State)
    requires s.up && Watched(s) && NextLaunch(s, TimerBegin(u)) == Some(n)
    ensures Watched(n)
  {
    if IsRunning(s) {
      var t :| Watches(s, t);
      assert Watches(n, t);
    }
  }

  lemma StopKeepsWatched(s: State, l: StopStep, n: State)
    requires s.up && Inv(s) && Watched(s) && NextStop(s, l) == Some(n)
    ensures Watched(n)
  {
    if IsRunning(s) && exists t :: Watches(s, t) {
      var t :| Watches(s, t);
      assert l.StopBegin? ==> Watches(n, t);
    }
  }

  lemma WatchKeepsWatched(s: State, u: nat, l: WatchStep, n: State)
    requires s.up && Watched(s) && u in s.tasks && NextWatch(s, u, l) == Some(n)
    ensures Watched(n)
  {
    if IsRunning(n) && !s.op.Killing? && !s.op.Recorded? {
      assert IsRunning(s);
      var t :| Watches(s, t);
      assert t != u;
      assert Watches(n, t);
    }
  }

  lemma DaemonKeepsWatched(s: State, l: Label, n: State)
    requires Inv(s) && Watched(s) && (l.Exit? || l.Boot? || l.Crash? || l.FailOnly?) && Next(s, l) == Some(n)
    ensures Watched(n)
  {
    if IsRunning(n) && !s.op.Killing? && !s.op.Recorded? {
      var t :| Watches(s, t);
      assert Watches(n, t);
    }
  }

  lemma ReconcileKeepsWatched(s: State, l: ReconcileStep, n: State)
    requires s.up && Inv(s) && NextReconcile(s, l) == Some(n)
    ensures Watched(n)
  {
    if l.Adopt? {
      assert Watches(n, s.nextTask);
    }
  }

  lemma StepKeepsWatched(s: State, l: Label, n: State)
    requires Inv(s) && Watched(s) && Next(s, l) == Some(n)
    ensures Watched(n)
  {
    match l
    case Launch(step) => LaunchKeepsWatched(s, step, n);
    case Stop(step) => StopKeepsWatched(s, step, n);
    case Watch(t, step) => WatchKeepsWatched(s, t, step, n);
    case Reconcile(step) => ReconcileKeepsWatched(s, step, n);
    case _ => DaemonKeepsWatched(s, l, n);
  }

  lemma {:induction false} RunKeepsWatched(s: State, run: seq<Label>)
    requires Inv(s) && Watched(s) && Exec(s, run).Some?
    ensures Watched(Exec(s, run).value)
    decreases |run|
  {
    if run != [] {
      var n := Next(s, run[0]).value;
      StepKeepsInv(s, run[0], n);
      StepKeepsWatched(s, run[0], n);
      RunKeepsWatched(n, run[1..]);
    }
  }

  /** In every reachable state without an operation in progress, a live instance
      has exactly one watcher of the current generation. */
  lemma LiveInstanceIsWatched(run: seq<Label>, s: State) returns (t: nat)
    requires Exec(INIT, run) == Some(s) && IsRunning(s) && s.op.Idle?
    ensures Watches(s, t) && forall u | Watches(s, u) :: u == t
  {
    RunKeepsWatched(INIT, run);
    ReachableInv(run, s);
    t :| Watches(s, t);
  }
}
