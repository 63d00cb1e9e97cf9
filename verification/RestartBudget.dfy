/**
 The restart loop: exits, watchers, backoff timers and automatic launches of a
 service that nobody else touches and whose runs stay shorter than the period
 after which the attempt counter is forgotten.
 */
module RestartBudget {
  import opened Wrappers
  import opened Lifecycle
  import opened LifecycleSafety

  /** The fixed part of the loop: the configured policy, and how many ports the
      service declares. */
  datatype Setting = Setting(plan: Plan, ports: nat)

  predicate Limited(c: Setting) {
    c.plan.maxAttempts > 0
  }

  /** The steps of the loop. */
  predicate Automatic(c: Setting, s: State, l: Label) {
    match l
    case Exit(_) => true
    case Watch(_, step) => step.Take? ==> !step.stable
    case Launch(step) =>
      && !step.UserBegin?
      && (step.ReserveOne? ==> s.op.Reserving? && |s.op.mine| < c.ports)
      && (step.Insert? ==> step.plan == c.plan)
    case _ => false
  }

  /** Live processes that are neither the supervised one nor the one being launched. */
  function Strays(s: State): set<nat> {
    set p <- s.alive | s.handle != Some(p) && s.op != Spawned(p)
  }

  /** In a reachable state, these are processes that a daemon has lost. */
  lemma StraysAreLost(past: seq<Label>, s: State)
    requires Exec(INIT, past) == Some(s) && s.up && !s.op.Loaded?
    ensures Strays(s) <= s.lost
  {
    ReachableInv(past, s);
  }

  predicate StrayExit(s: State, l: Label) {
    l.Exit? && l.run in Strays(s)
  }

  /** Steps of a loop in which launches succeed and every exit qualifies. */
  predicate Successful(c: Setting, s: State, l: Label) {
    && Automatic(c, s, l)
    && (l.Launch? ==>
          l.launch.TimerBegin? || l.launch.WriteWanted? || l.launch.WriteStarting? || l.launch.ReserveOne?
          || l.launch.Spawn? || l.launch.Commit? || l.launch.Insert?)
    && (l.Watch? ==> !l.watch.TimerBlocked? && (l.watch.Decide? ==> Qualifies(c.plan, l.watch.clean)))
  }

  // ------------------------------------------------------ the shape of the loop

  ghost predicate TaskInLoop(c: Setting, s: State, t: nat)
    requires t in s.tasks
  {
    var task := s.tasks[t];
    && task.plan == c.plan && task.gen == s.generation
    && s.handle == (if task.phase.Watching? then Some(task.run) else None)
    && match task.phase
       case Recording(_, wanted) => wanted == WantRunning
       case Releasing(wanted) => wanted == WantRunning
       case Saving(wanted) => wanted == WantRunning
       case Backoff(attempt) => attempt == s.restarts && s.restarts < c.plan.maxAttempts
       case Armed => 1 <= s.restarts
       case _ => true
  }

  /** One token travels around: the watcher of the instance, or the launch. */
  ghost predicate InLoop(c: Setting, s: State) {
    && s.up && s.desired == WantRunning && s.restarts <= c.plan.maxAttempts
    && (s.op.Idle? || InLaunch(s.op))
    && (forall t <- s.tasks :: TaskInLoop(c, s, t) && s.op.Idle?)
    && (forall t <- s.tasks, u <- s.tasks :: t == u)
    && (InLaunch(s.op) ==> s.handle == if s.op.Recorded? then Some(s.op.run) else None)
    && (s.op.Reserving? ==> |s.op.mine| <= c.ports && forall p <- s.op.mine :: p < s.nextPort)
    && (s.op.Unwinding? ==> |s.op.mine| <= c.ports)
  }

  ghost predicate TimerWaits(s: State) {
    exists t <- s.tasks :: s.tasks[t].phase.Armed?
  }

  /** Automatic launches that have begun since the user start. */
  ghost function Begun(s: State): int {
    if TimerWaits(s) then s.restarts - 1 else s.restarts
  }

  predicate BeforeSpawn(op: Op) {
    op.Launching? || op.Wanted? || op.Reserving?
  }

  /** Automatic launches that can still spawn a process. */
  ghost function Left(c: Setting, s: State): int {
    c.plan.maxAttempts - Begun(s) + if BeforeSpawn(s.op) then 1 else 0
  }

  ghost function PhaseRank(p: Phase): nat {
    match p
    case Watching => 8
    case Recording(_, _) => 7
    case Releasing(_) => 6
    case Saving(_) => 5
    case Deciding => 4
    case Backoff(_) => 3
    case Armed => 2
  }

  ghost function TaskRank(s: State): nat {
    if s.tasks == map[] then 0 else var t :| t in s.tasks; PhaseRank(s.tasks[t].phase)
  }

  /** Distance to the end of the current round. */
  ghost function Rank(c: Setting, s: State): nat
    requires InLoop(c, s)
  {
    (if IsRunning(s) || (s.op.Spawned? && s.op.run in s.alive) then 1 else 0)
    + match s.op
      case Launching => 2 * c.ports + 20
      case Wanted => 2 * c.ports + 19
      case Reserving(mine) => 2 * c.ports + 18 - |mine|
      case Unwinding(mine) => 12 + |mine|
      case Dropping(_) => 11
      case Failing(_) => 10
      case Spawned(_) => 12
      case Recorded(_) => 10
      case _ => TaskRank(s)
  }

  /** The termination measure of the loop. */
  ghost function Size(c: Setting, s: State): int
    requires InLoop(c, s)
  {
    (c.plan.maxAttempts - Begun(s)) * (2 * c.ports + 21) + Rank(c, s)
  }

  lemma RoundTrip(rounds: int, width: int)
    ensures (rounds - 1) * width == rounds * width - width
  {
  }

  lemma BeginStaysInLoop(c: Setting, s: State, t: nat, n: State)
    requires Limited(c) && InLoop(c, s) && NextLaunch(s, TimerBegin(t)) == Some(n)
    ensures InLoop(c, n) && n.op.Launching? && Begun(n) == Begun(s) + 1
  {
  }

  lemma ReserveStaysInLoop(c: Setting, s: State, l: LaunchStep, n: State)
    requires Limited(c) && InLoop(c, s) && Automatic(c, s, Launch(l)) && NextLaunch(s, l) == Some(n)
    requires l.ReserveOne? || l.RollbackOne?
    ensures InLoop(c, n) && Begun(n) == Begun(s) && Rank(c, n) < Rank(c, s)
  {
    assert s.tasks == map[];
  }

  lemma InsertStaysInLoop(c: Setting, s: State, n: State)
    requires Limited(c) && InLoop(c, s) && NextLaunch(s, Insert(c.plan)) == Some(n)
    ensures InLoop(c, n) && Begun(n) == Begun(s) && Rank(c, n) < Rank(c, s)
  {
    assert s.tasks == map[];
    assert n.tasks == map[s.nextTask := Task(s.generation, s.op.run, c.plan, Watching)];
  }

  lemma LaunchStaysInLoop(c: Setting, s: State, l: LaunchStep, n: State)
    requires Limited(c) && InLoop(c, s) && Automatic(c, s, Launch(l)) && NextLaunch(s, l) == Some(n)
    requires !l.TimerBegin?
    ensures InLoop(c, n) && Begun(n) == Begun(s) && Rank(c, n) < Rank(c, s)
  {
    if l.ReserveOne? || l.RollbackOne? {
      ReserveStaysInLoop(c, s, l, n);
    } else if l.Insert? {
      InsertStaysInLoop(c, s, n);
    } else {
      assert s.tasks == map[];
    }
  }

  lemma TakeStaysInLoop(c: Setting, s: State, t: nat, n: State)
    requires Limited(c) && InLoop(c, s) && t in s.tasks && NextWatch(s, t, Take(false)) == Some(n)
    ensures InLoop(c, n) && Rank(c, n) < Rank(c, s) && Begun(n) == Begun(s)
  {
    assert s.tasks == map[t := s.tasks[t]];
    assert n.tasks == map[t := n.tasks[t]];
  }

  lemma TailStaysInLoop(c: Setting, s: State, t: nat, l: WatchStep, n: State)
    requires Limited(c) && InLoop(c, s) && t in s.tasks && NextWatch(s, t, l) == Some(n) && !l.Take?
    ensures InLoop(c, n) && Rank(c, n) < Rank(c, s)
    ensures Begun(n) == Begun(s) || (Begun(n) == Begun(s) + 1 && n.tasks == map[])
  {
    assert s.tasks == map[t := s.tasks[t]];
    if t in n.tasks {
      assert n.tasks == map[t := n.tasks[t]];
    } else {
      assert n.tasks == map[];
    }
  }

  lemma WatchStaysInLoop(c: Setting, s: State, t: nat, l: WatchStep, n: State)
    requires Limited(c) && InLoop(c, s) && Automatic(c, s, Watch(t, l)) && t in s.tasks && NextWatch(s, t, l) == Some(n)
    ensures InLoop(c, n) && Rank(c, n) < Rank(c, s)
    ensures Begun(n) == Begun(s) || (Begun(n) == Begun(s) + 1 && n.tasks == map[])
  {
    hide InLoop, Rank, Begun;
    match l
    case Take(_) => TakeStaysInLoop(c, s, t, n);
    case _ => TailStaysInLoop(c, s, t, l, n);
  }

  /** What a step of a loop of successful launches keeps besides: the loop ends
      only by giving up after the last attempt. */
  ghost predicate EndsByGivingUp(c: Setting, s: State) {
    && !s.op.Unwinding? && !s.op.Dropping? && !s.op.Failing?
    && (s.op.Idle? && s.tasks == map[] ==> s.actual == Failed && s.restarts == c.plan.maxAttempts)
  }

  function SpawnCount(l: Label): nat {
    if l == Launch(Spawn) then 1 else 0
  }

  lemma BegunInRange(c: Setting, s: State)
    requires Limited(c) && InLoop(c, s)
    ensures Begun(s) <= c.plan.maxAttempts
  {
  }

  lemma Product(a: int, b: nat)
    requires 0 <= a
    ensures 0 <= a * b
  {
  }

  lemma SizeDecreases(c: Setting, s: State, n: State)
    requires Limited(c) && InLoop(c, s) && InLoop(c, n)
    requires Begun(s) <= Begun(n) <= Begun(s) + 1
    requires Begun(n) == Begun(s) ==> Rank(c, n) < Rank(c, s)
    requires Begun(n) == Begun(s) + 1 ==> Rank(c, n) < Rank(c, s) + 2 * c.ports + 21
    ensures 0 <= Size(c, n) < Size(c, s)
  {
    BegunInRange(c, s);
    BegunInRange(c, n);
    hide InLoop, Rank, Begun;
    var width := 2 * c.ports + 21;
    var left := c.plan.maxAttempts - Begun(s);
    RoundTrip(left, width);
    Product(c.plan.maxAttempts - Begun(n), width);
  }

  lemma ExitStaysInLoop(c: Setting, s: State, l: Label, n: State)
    requires Limited(c) && InLoop(c, s) && l.Exit? && !StrayExit(s, l) && Next(s, l) == Some(n)
    ensures InLoop(c, n) && Begun(n) == Begun(s) && 0 <= Size(c, n) < Size(c, s)
  {
    SizeDecreases(c, s, n);
  }

  lemma TimerStep(c: Setting, s: State, t: nat, n: State)
    requires Limited(c) && InLoop(c, s) && NextLaunch(s, TimerBegin(t)) == Some(n)
    ensures InLoop(c, n) && 0 <= Size(c, n) < Size(c, s)
    ensures Left(c, n) <= Left(c, s) && 0 <= Left(c, n)
  {
    BeginStaysInLoop(c, s, t, n);
    assert TaskRank(s) == 2;
    SizeDecreases(c, s, n);
  }

  lemma LaunchLoopStep(c: Setting, s: State, l: LaunchStep, n: State)
    requires Limited(c) && InLoop(c, s) && Automatic(c, s, Launch(l)) && NextLaunch(s, l) == Some(n) && !l.TimerBegin?
    ensures InLoop(c, n) && 0 <= Size(c, n) < Size(c, s)
    ensures Left(c, n) + SpawnCount(Launch(l)) <= Left(c, s) && 0 <= Left(c, n)
  {
    LaunchStaysInLoop(c, s, l, n);
    SizeDecreases(c, s, n);
  }

  lemma WatchLoopStep(c: Setting, s: State, t: nat, l: WatchStep, n: State)
    requires Limited(c) && InLoop(c, s) && Automatic(c, s, Watch(t, l)) && t in s.tasks && NextWatch(s, t, l) == Some(n)
    ensures InLoop(c, n) && 0 <= Size(c, n) < Size(c, s)
    ensures Left(c, n) <= Left(c, s) && 0 <= Left(c, n)
  {
    WatchStaysInLoop(c, s, t, l, n);
    SizeDecreases(c, s, n);
  }

  lemma LoopStep(c: Setting, s: State, l: Label, n: State)
    requires Limited(c) && InLoop(c, s) && Automatic(c, s, l) && !StrayExit(s, l) && Next(s, l) == Some(n)
    ensures InLoop(c, n) && 0 <= Size(c, n) < Size(c, s)
    ensures Left(c, n) + SpawnCount(l) <= Left(c, s) && 0 <= Left(c, n)
  {
    match l
    case Launch(TimerBegin(t)) => TimerStep(c, s, t, n);
    case Launch(step) => LaunchLoopStep(c, s, step, n);
    case Watch(t, step) => WatchLoopStep(c, s, t, step, n);
    case _ => ExitStaysInLoop(c, s, l, n);
  }

  lemma SuccessfulLaunchStep(c: Setting, s: State, l: LaunchStep, n: State)
    requires Limited(c) && InLoop(c, s) && EndsByGivingUp(c, s)
    requires Successful(c, s, Launch(l)) && NextLaunch(s, l) == Some(n)
    ensures EndsByGivingUp(c, n) && Left(c, n) + SpawnCount(Launch(l)) == Left(c, s)
  {
    if l.TimerBegin? {
      BeginStaysInLoop(c, s, l.task, n);
    } else {
      LaunchStaysInLoop(c, s, l, n);
      assert l.Insert? ==> s.nextTask in n.tasks;
    }
  }

  lemma SuccessfulWatchStep(c: Setting, s: State, t: nat, l: WatchStep, n: State)
    requires Limited(c) && InLoop(c, s) && EndsByGivingUp(c, s)
    requires Successful(c, s, Watch(t, l)) && t in s.tasks && NextWatch(s, t, l) == Some(n)
    ensures EndsByGivingUp(c, n) && Left(c, n) == Left(c, s)
  {
    WatchStaysInLoop(c, s, t, l, n);
    assert s.tasks == map[t := s.tasks[t]];
    assert t in n.tasks ==> n.tasks != map[];
  }

  // ------------------------------------------------------------- stale watchers

  /** The service without the watchers of earlier generations. */
  ghost function Live(s: State): State {
    s.(tasks := map t <- s.tasks | s.tasks[t].gen == s.generation :: s.tasks[t])
  }

  ghost function StaleTasks(s: State): set<nat> {
    set t <- s.tasks | s.tasks[t].gen != s.generation
  }

  /** Whatever an earlier generation has left behind is still watching: no restart of it
      is pending. */
  ghost predicate Tidy(s: State) {
    forall t <- s.tasks ::
      && t < s.nextTask && s.tasks[t].gen <= s.generation
      && (s.tasks[t].gen != s.generation ==> s.tasks[t].phase.Watching?)
  }

  /** The loop, with any number of stale watchers beside it. */
  ghost predicate Loop(c: Setting, s: State) {
    Tidy(s) && InLoop(c, Live(s))
  }

  ghost predicate StaleTake(s: State, l: Label) {
    l.Watch? && l.watch.Take? && l.task in StaleTasks(s)
  }

  /** A stale watcher can only end. */
  lemma StaleWatcherEnds(s: State, l: Label, n: State)
    requires Tidy(s) && l.Watch? && l.task in StaleTasks(s) && Next(s, l) == Some(n)
    ensures StaleTake(s, l) && n == Drop(s, l.task)
    ensures Live(n) == Live(s) && Tidy(n) && StaleTasks(n) == StaleTasks(s) - {l.task}
  {
  }

  /** Any other step of the loop is a step of the service without them. */
  lemma LaunchCommutes(c: Setting, s: State, l: LaunchStep, n: State)
    requires Loop(c, s) && Automatic(c, s, Launch(l)) && Next(s, Launch(l)) == Some(n)
    ensures Automatic(c, Live(s), Launch(l)) && Next(Live(s), Launch(l)) == Some(Live(n))
    ensures Tidy(n) && StaleTasks(n) == StaleTasks(s)
  {
    if l.TimerBegin? {
      TimerBeginCommutes(c, s, l.task, n);
    } else if l.Insert? {
      InsertCommutes(c, s, n);
    } else {
      assert n.tasks == s.tasks && n.generation == s.generation;
    }
  }

  lemma InsertCommutes(c: Setting, s: State, n: State)
    requires Loop(c, s) && s.up && NextLaunch(s, Insert(c.plan)) == Some(n)
    ensures NextLaunch(Live(s), Insert(c.plan)) == Some(Live(n))
    ensures Tidy(n) && StaleTasks(n) == StaleTasks(s)
  {
    assert Live(n).tasks == Live(s).tasks[s.nextTask := n.tasks[s.nextTask]];
  }

  lemma TimerBeginCommutes(c: Setting, s: State, t: nat, n: State)
    requires Loop(c, s) && NextLaunch(s, TimerBegin(t)) == Some(n)
    ensures NextLaunch(Live(s), TimerBegin(t)) == Some(Live(n))
    ensures Tidy(n) && StaleTasks(n) == StaleTasks(s)
  {
    assert t in Live(s).tasks;
    assert Live(s).tasks == map[t := s.tasks[t]];
    assert forall u <- s.tasks | u != t :: u !in Live(s).tasks;
    assert Live(n).tasks == map[];
    assert Live(s).tasks - {t} == map[];
  }

  /** A watcher that moves on or ends, and touches neither the generation nor another
      watcher. */
  lemma OneTaskMoves(s: State, t: nat, n: State)
    requires Tidy(s) && t in Live(s).tasks && n.generation == s.generation && n.nextTask == s.nextTask
    requires n.tasks == s.tasks - {t} || exists p: Phase :: n.tasks == s.tasks[t := s.tasks[t].(phase := p)]
    ensures Live(n).tasks == if t in n.tasks then Live(s).tasks[t := n.tasks[t]] else Live(s).tasks - {t}
    ensures Tidy(n) && StaleTasks(n) == StaleTasks(s)
  {
  }

  lemma TakeCommutes(s: State, t: nat, stable: bool, n: State)
    requires Tidy(s) && s.up && t in Live(s).tasks && NextWatch(s, t, Take(stable)) == Some(n)
    ensures NextWatch(Live(s), t, Take(stable)) == Some(Live(n))
    ensures Tidy(n) && StaleTasks(n) == StaleTasks(s)
  {
    OneTaskMoves(s, t, n);
  }

  lemma TailCommutes(s: State, t: nat, l: WatchStep, n: State)
    requires Tidy(s) && s.up && t in Live(s).tasks && NextWatch(s, t, l) == Some(n) && !l.Take?
    ensures NextWatch(Live(s), t, l) == Some(Live(n))
    ensures Tidy(n) && StaleTasks(n) == StaleTasks(s)
  {
    hide Tidy;
    OneTaskMoves(s, t, n);
  }

  lemma WatchCommutes(c: Setting, s: State, t: nat, l: WatchStep, n: State)
    requires Loop(c, s) && t in Live(s).tasks && Next(s, Watch(t, l)) == Some(n)
    ensures Next(Live(s), Watch(t, l)) == Some(Live(n))
    ensures Tidy(n) && StaleTasks(n) == StaleTasks(s)
  {
    hide Tidy, InLoop;
    match l
    case Take(stable) => TakeCommutes(s, t, stable, n);
    case _ => TailCommutes(s, t, l, n);
  }

  lemma StraysOfLive(s: State)
    ensures Strays(Live(s)) == Strays(s)
  {
  }

  lemma StrayEnds(s: State, l: Label, n: State)
    requires StrayExit(s, l) && Next(s, l) == Some(n)
    ensures Strays(n) == Strays(s) - {l.run} && StaleTasks(n) == StaleTasks(s) && (Tidy(s) ==> Tidy(n))
    ensures Live(n) == Live(s).(alive := n.alive)
  {
  }

  /** The rest of the loop does not see a stray process. */
  lemma StrayIsUnseen(c: Setting, s: State, l: Label, n: State)
    requires InLoop(c, s) && StrayExit(s, l) && n == s.(alive := s.alive - {l.run})
    ensures InLoop(c, n) && Size(c, n) == Size(c, s) && Left(c, n) == Left(c, s)
    ensures EndsByGivingUp(c, s) ==> EndsByGivingUp(c, n)
  {
  }

  lemma LaunchMakesNoStray(c: Setting, s: State, l: LaunchStep, n: State)
    requires InLoop(c, Live(s)) && NextLaunch(s, l) == Some(n)
    ensures Strays(n) <= Strays(s)
  {
    assert InLaunch(s.op) ==> Live(s).handle == if s.op.Recorded? then Some(s.op.run) else None;
  }

  lemma WatchMakesNoStray(s: State, t: nat, l: WatchStep, n: State)
    requires TasksFollowHandle(s) && t in s.tasks && NextWatch(s, t, l) == Some(n)
    ensures Strays(n) <= Strays(s)
  {
  }

  /** The current watcher watches the handle. */
  ghost predicate TasksFollowHandle(s: State) {
    forall t <- s.tasks | s.tasks[t].gen == s.generation && s.tasks[t].phase.Watching? :: s.handle == Some(s.tasks[t].run)
  }

  lemma NoNewStrays(c: Setting, s: State, l: Label, n: State)
    requires Loop(c, s) && Automatic(c, s, l) && Next(s, l) == Some(n)
    ensures Strays(n) <= Strays(s)
  {
    match l
    case Launch(step) => LaunchMakesNoStray(c, s, step, n);
    case Watch(t, step) =>
      assert forall u <- s.tasks | s.tasks[u].gen == s.generation :: u in Live(s).tasks;
      WatchMakesNoStray(s, t, step, n);
    case Exit(_) =>
  }

  lemma StepCommutes(c: Setting, s: State, l: Label, n: State)
    requires Loop(c, s) && Automatic(c, s, l) && Next(s, l) == Some(n) && !StaleTake(s, l)
    ensures Automatic(c, Live(s), l) && Next(Live(s), l) == Some(Live(n))
    ensures Tidy(n) && StaleTasks(n) == StaleTasks(s)
  {
    match l
    case Launch(step) => LaunchCommutes(c, s, step, n);
    case Watch(t, step) =>
      if t in StaleTasks(s) {
        StaleWatcherEnds(s, l, n);
      }
      WatchCommutes(c, s, t, step, n);
    case Exit(r) =>
  }

  /** The termination measure with the watchers and stray processes that have still to
      end. */
  ghost function TotalSize(c: Setting, s: State): int
    requires Loop(c, s)
  {
    Size(c, Live(s)) + |StaleTasks(s)| + |Strays(s)|
  }

  lemma SmallerSet(a: set<nat>, b: set<nat>)
    requires a <= b
    ensures |a| <= |b|
  {
    if a != b {
      assert |b - a| == |b| - |a|;
    }
  }

  lemma StrayLoopStep(c: Setting, s: State, l: Label, n: State)
    requires Limited(c) && Loop(c, s) && StrayExit(s, l) && Next(s, l) == Some(n)
    ensures Loop(c, n) && Size(c, Live(n)) == Size(c, Live(s)) && Left(c, Live(n)) == Left(c, Live(s))
    ensures EndsByGivingUp(c, Live(s)) ==> EndsByGivingUp(c, Live(n))
  {
    hide InLoop, Size, Left, EndsByGivingUp, Tidy;
    StrayEnds(s, l, n);
    StrayIsUnseen(c, Live(s), l, Live(n));
  }

  lemma TotalLoopStep(c: Setting, s: State, l: Label, n: State)
    requires Limited(c) && Loop(c, s) && Automatic(c, s, l) && Next(s, l) == Some(n)
    ensures Loop(c, n) && 0 <= TotalSize(c, n) < TotalSize(c, s)
    ensures Left(c, Live(n)) + SpawnCount(l) <= Left(c, Live(s)) && 0 <= Left(c, Live(n))
  {
    hide InLoop, Automatic, Live, Next, Tidy, Size, Left, Strays;
    StraysOfLive(s);
    NoNewStrays(c, s, l, n);
    SmallerSet(Strays(n), Strays(s));
    SizeIsNatural(c, Live(s));
    if StaleTake(s, l) {
      StaleWatcherEnds(s, l, n);
    } else if StrayExit(s, l) {
      StrayEnds(s, l, n);
      StrayLoopStep(c, s, l, n);
    } else {
      StepCommutes(c, s, l, n);
      LoopStep(c, Live(s), l, Live(n));
    }
  }

  lemma SizeIsNatural(c: Setting, s: State)
    requires Limited(c) && InLoop(c, s)
    ensures 0 <= Size(c, s) && 0 <= Left(c, s)
  {
    assert 0 <= (c.plan.maxAttempts - Begun(s)) * (2 * c.ports + 21);
  }

  // ------------------------------------------------------------------ whole runs

  ghost predicate AutomaticRun(c: Setting, s: State, run: seq<Label>)
    decreases |run|
  {
    run == [] || (Automatic(c, s, run[0]) && Next(s, run[0]).Some? && AutomaticRun(c, Next(s, run[0]).value, run[1..]))
  }

  ghost predicate SuccessfulRun(c: Setting, s: State, run: seq<Label>)
    decreases |run|
  {
    run == [] || (Successful(c, s, run[0]) && Next(s, run[0]).Some? && SuccessfulRun(c, Next(s, run[0]).value, run[1..]))
  }

  function Spawns(run: seq<Label>): nat
    decreases |run|
  {
    if run == [] then 0 else SpawnCount(run[0]) + Spawns(run[1..])
  }

  /** A user start has just completed; no attempt has been used and no restart is
      pending.  Watchers of earlier instances may still have to wake. */
  ghost predicate Started(c: Setting, s: State) {
    Loop(c, s) && s.op.Idle? && s.restarts == 0 && Live(s).tasks != map[] && !TimerWaits(Live(s))
  }

  lemma {:induction false} LoopRun(c: Setting, s: State, run: seq<Label>)
    requires Limited(c) && Loop(c, s) && AutomaticRun(c, s, run)
    ensures Spawns(run) <= Left(c, Live(s)) && |run| <= TotalSize(c, s)
    decreases |run|
  {
    hide Loop, InLoop, Automatic, Live, Next, TotalSize;
    if run == [] {
      LoopIsNatural(c, s);
    } else {
      var n := Next(s, run[0]).value;
      TotalLoopStep(c, s, run[0], n);
      LoopRun(c, n, run[1..]);
    }
  }

  lemma LoopIsNatural(c: Setting, s: State)
    requires Limited(c) && Loop(c, s)
    ensures 0 <= TotalSize(c, s) && 0 <= Left(c, Live(s))
  {
    SizeIsNatural(c, Live(s));
  }

  lemma StartedSize(c: Setting, s: State)
    requires Limited(c) && Started(c, s)
    ensures Left(c, Live(s)) == c.plan.maxAttempts
    ensures TotalSize(c, s) <= c.plan.maxAttempts * (2 * c.ports + 21) + 9 + |StaleTasks(s)| + |Strays(s)|
  {
    var m := Live(s);
    var t :| t in m.tasks;
    assert m.tasks == map[t := m.tasks[t]];
  }

  /** However launches and exits turn out, a user start is followed by at most
      maxAttempts automatic launches, and the loop comes to an end. */
  lemma AtMostMaxAttempts(c: Setting, s: State, run: seq<Label>)
    requires Limited(c) && Started(c, s) && AutomaticRun(c, s, run)
    ensures Spawns(run) <= c.plan.maxAttempts
    ensures |run| <= c.plan.maxAttempts * (2 * c.ports + 21) + 9 + |StaleTasks(s)| + |Strays(s)|
  {
    LoopRun(c, s, run);
    StartedSize(c, s);
  }

  lemma SuccessfulStep(c: Setting, s: State, l: Label, n: State)
    requires Limited(c) && InLoop(c, s) && EndsByGivingUp(c, s) && Successful(c, s, l) && !StrayExit(s, l) && Next(s, l) == Some(n)
    ensures EndsByGivingUp(c, n) && Left(c, n) + SpawnCount(l) == Left(c, s)
  {
    match l
    case Watch(t, step) => SuccessfulWatchStep(c, s, t, step, n);
    case Launch(step) => SuccessfulLaunchStep(c, s, step, n);
    case _ =>
  }

  lemma SuccessfulCommutes(c: Setting, s: State, l: Label, n: State)
    requires Limited(c) && Loop(c, s) && EndsByGivingUp(c, Live(s)) && Successful(c, s, l) && Next(s, l) == Some(n)
    ensures EndsByGivingUp(c, Live(n)) && Left(c, Live(n)) + SpawnCount(l) == Left(c, Live(s))
  {
    hide InLoop, Automatic, Live, Next, Tidy, Left, EndsByGivingUp, Strays;
    StraysOfLive(s);
    if StaleTake(s, l) {
      StaleWatcherEnds(s, l, n);
    } else if StrayExit(s, l) {
      StrayLoopStep(c, s, l, n);
    } else {
      StepCommutes(c, s, l, n);
      SuccessfulStep(c, Live(s), l, Live(n));
    }
  }

  lemma {:induction false} SuccessfulRunEnds(c: Setting, s: State, run: seq<Label>)
    requires Limited(c) && Loop(c, s) && EndsByGivingUp(c, Live(s)) && SuccessfulRun(c, s, run)
    ensures Exec(s, run).Some?
    ensures var n := Exec(s, run).value;
            Loop(c, n) && EndsByGivingUp(c, Live(n)) && Left(c, Live(n)) + Spawns(run) == Left(c, Live(s))
    decreases |run|
  {
    hide Loop, Live, Next, Left, EndsByGivingUp, Automatic, TotalSize;
    if run != [] {
      var l, n := run[0], Next(s, run[0]).value;
      TotalLoopStep(c, s, l, n);
      SuccessfulCommutes(c, s, l, n);
      SuccessfulRunEnds(c, n, run[1..]);
    }
  }

  /** Until it gives up, the loop can always go on. */
  lemma Progress(c: Setting, s: State) returns (l: Label)
    requires Limited(c) && c.plan.rule != Never && InLoop(c, s) && EndsByGivingUp(c, s) && !(s.op.Idle? && s.tasks == map[])
    ensures Successful(c, s, l) && !StrayExit(s, l) && Next(s, l).Some?
  {
    match s.op
    case Launching => l := Launch(WriteWanted);
    case Wanted => l := Launch(WriteStarting);
    case Reserving(_) => l := Launch(Spawn);
    case Spawned(_) => l := Launch(Commit);
    case Recorded(_) => l := Launch(Insert(c.plan));
    case Idle =>
      var t :| t in s.tasks;
      var run := s.tasks[t].run;
      match s.tasks[t].phase {
        case Watching => l := if run in s.alive then Exit(run) else Watch(t, Take(false));
        case Recording(_, _) => l := Watch(t, Record);
        case Releasing(_) => l := Watch(t, Release);
        case Saving(_) => l := Watch(t, Save);
        case Deciding => l := Watch(t, Decide(false));
        case Backoff(_) => l := Watch(t, Fire);
        case Armed => l := Launch(TimerBegin(t));
      }
  }

  /** A step of the service alone is one beside its stale watchers. */
  lemma ProgressBesideStale(c: Setting, s: State) returns (l: Label)
    requires Limited(c) && c.plan.rule != Never && Loop(c, s) && EndsByGivingUp(c, Live(s))
    requires !(s.op.Idle? && Live(s).tasks == map[])
    ensures Successful(c, s, l) && !StrayExit(s, l) && Next(s, l).Some?
  {
    l := Progress(c, Live(s));
  }

  /** A service whose launches succeed and whose exits keep qualifying ends
      FAILED, still wanted, after exactly maxAttempts automatic launches. */
  lemma GivesUpExactly(c: Setting, s: State, run: seq<Label>, n: State)
    requires Limited(c) && c.plan.rule != Never && Started(c, s)
    requires SuccessfulRun(c, s, run) && Exec(s, run) == Some(n)
    requires forall l | Successful(c, n, l) && !StrayExit(n, l) :: Next(n, l).None?
    ensures n.actual == Failed && n.desired == WantRunning && n.op.Idle? && Live(n).tasks == map[]
    ensures Spawns(run) == c.plan.maxAttempts
  {
    SuccessfulRunEnds(c, s, run);
    StartedSize(c, s);
    if !(n.op.Idle? && Live(n).tasks == map[]) {
      var l := ProgressBesideStale(c, n);
    }
  }

  // ------------------------------------------------------------ where the loop begins

  /** What can happen while a user start is being carried out. */
  predicate DuringLaunch(l: Label) {
    l.Exit? || (l.Watch? && l.watch.Take?) || (l.Launch? && !l.launch.UserBegin? && !l.launch.TimerBegin?)
  }

  /** The operation of a user start, with nothing but stale watchers around. */
  ghost predicate Opening(s: State) {
    && s.up
    && (InLaunch(s.op) ==>
          && s.restarts == 0 && (!s.op.Launching? ==> s.desired == WantRunning)
          && (s.op.Recorded? ==> s.handle == Some(s.op.run))
          && forall t <- s.tasks :: t < s.nextTask && s.tasks[t].gen < s.generation && s.tasks[t].phase.Watching?)
    && (!InLaunch(s.op) ==> s.op.Idle?)
  }

  lemma OpeningLaunch(s: State, l: LaunchStep, n: State)
    requires Opening(s) && !l.UserBegin? && !l.TimerBegin? && NextLaunch(s, l) == Some(n)
    ensures Opening(n)
  {
  }

  lemma OpeningTake(s: State, t: nat, stable: bool, n: State)
    requires Opening(s) && t in s.tasks && NextWatch(s, t, Take(stable)) == Some(n)
    ensures Opening(n)
  {
  }

  lemma OpeningStep(s: State, l: Label, n: State)
    requires Opening(s) && DuringLaunch(l) && Next(s, l) == Some(n)
    ensures Opening(n)
  {
    match l
    case Launch(step) => OpeningLaunch(s, step, n);
    case Watch(t, Take(stable)) => OpeningTake(s, t, stable, n);
    case Exit(_) =>
  }

  lemma {:induction false} OpeningRun(s: State, run: seq<Label>)
    requires Opening(s) && Exec(s, run).Some? && forall l <- run :: DuringLaunch(l)
    ensures Opening(Exec(s, run).value)
    decreases |run|
  {
    hide Opening, Next, DuringLaunch;
    if run != [] {
      var n := Next(s, run[0]).value;
      OpeningStep(s, run[0], n);
      OpeningRun(n, run[1..]);
    }
  }

  lemma InsertStarts(c: Setting, s: State, n: State)
    requires Opening(s) && Next(s, Launch(Insert(c.plan))) == Some(n)
    requires c.plan.maxAttempts >= 0
    ensures Started(c, n)
  {
    assert Live(n).tasks == map[s.nextTask := n.tasks[s.nextTask]];
    assert s.nextTask in Live(n).tasks;
  }

  /** Every user start that completes begins such a loop, whatever its launch looks like
      and whichever watchers wake meanwhile, provided no earlier restart is pending. */
  lemma UserStartBeginsLoop(c: Setting, past: seq<Label>, s: State, steps: seq<Label>, m: State, n: State)
    requires Limited(c) && Exec(INIT, past) == Some(s) && forall t <- s.tasks :: s.tasks[t].phase.Watching?
    requires Exec(s, [Launch(UserBegin)] + steps) == Some(m) && forall l <- steps :: DuringLaunch(l)
    requires Next(m, Launch(Insert(c.plan))) == Some(n)
    ensures Started(c, n)
  {
    ReachableInv(past, s);
    ExecAppend(s, [Launch(UserBegin)], steps);
    var begun := UserBegins(s);
    OpeningRun(begun, steps);
    InsertStarts(c, m, n);
  }

  lemma UserBegins(s: State) returns (n: State)
    requires TasksOk(s) && Exec(s, [Launch(UserBegin)]).Some? && forall t <- s.tasks :: s.tasks[t].phase.Watching?
    ensures Exec(s, [Launch(UserBegin)]) == Some(n) && Opening(n)
  {
    n := Next(s, Launch(UserBegin)).value;
    assert Exec(n, []) == Some(n);
  }
}
