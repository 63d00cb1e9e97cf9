/** Starting and stopping the services of a project in dependency order. */
module Project {
  import opened Wrappers
  import opened Text
  import opened Graph
  import opened StartOrder

  /** No running service misses one of its dependencies. */
  ghost predicate Closed(c: Config, running: set<Name>) {
    forall a, b | a in running && DependsOn(c, a, b) :: b in running
  }

  /** How the environment answers during one call: whether launching a service succeeds,
      which dependencies have to be healthy, which services are monitored, and which
      of these turn healthy in time. */
  datatype Environment = Environment(
    starts: Name -> bool,
    mustBeHealthy: (Name, Name) -> bool,
    monitored: Name -> bool,
    turnsHealthy: Name -> bool)
  {
    /** A running dependency meets its condition. */
    predicate Ready(name: Name, dep: Name) {
      mustBeHealthy(name, dep) ==> monitored(dep) && turnsHealthy(dep)
    }
  }

  /** What awaitDependencies asks of a service's dependencies. */
  predicate MayStart(c: Config, e: Environment, running: set<Name>, name: Name)
    requires name in c.services
  {
    forall b <- c.services[name] :: b in running && e.Ready(name, b)
  }

  datatype StopFailure = NotDeclared(name: Name)

  class ProjectSupervisor {
    const c: Config
    var running: set<Name>

    constructor (c: Config, running: set<Name>)
      ensures this.c == c && this.running == running
    {
      this.c, this.running := c, running;
    }

    method AwaitDependencies(e: Environment, name: Name) returns (ok: bool)
      requires name in c.services
      ensures ok == MayStart(c, e, running, name)
    {
      var deps := c.services[name];
      for i := 0 to |deps|
        invariant forall j | 0 <= j < i :: deps[j] in running && e.Ready(name, deps[j])
      {
        if deps[i] !in running {
          return false;
        }
        if !e.mustBeHealthy(name, deps[i]) {
          continue;
        }
        if !e.monitored(deps[i]) {
          return false;
        }
        if !e.turnsHealthy(deps[i]) {
          return false;
        }
      }
      ok := true;
    }

    /** One round of the loop in StartProject.  A failure is not an abort. */
    method StartOne(e: Environment, name: Name) returns (failed: bool)
      requires name in c.services
      modifies this
      ensures running == old(running) + if MayStart(c, e, old(running), name) && e.starts(name) then {name} else {}
      ensures failed <==> !MayStart(c, e, old(running), name) || (name !in old(running) && !e.starts(name))
    {
      var ok := AwaitDependencies(e, name);
      if !ok {
        return true;
      }
      if name in running {
        return false;
      }
      failed := !e.starts(name);
      if !failed {
        running := running + {name};
      }
    }

    /** StartProject for a resolved selection.  `history` are the running services
        before the first and after each round. */
    method StartProject(e: Environment, selected: seq<Name>)
      returns (r: Result<seq<Name>, Failure>, ghost history: seq<set<Name>>)
      requires Distinct(c.order)
      modifies this
      ensures r.Err? ==> running == old(running)
      ensures r.Ok? <==> Acyclic(c) && forall x | Needed(c, selected, x) :: x in c.services
      ensures |history| > 0 && history[0] == old(running) && history[|history| - 1] == running
      ensures Closed(c, old(running)) ==> forall k | 0 <= k < |history| :: Closed(c, history[k])
      ensures old(running) <= running
      ensures r.Ok? ==> forall x | x in running && x !in old(running) :: Needed(c, selected, x)
      ensures r.Ok? ==>
                forall x | Needed(c, selected, x) && x !in old(running) ::
                  x in running <==> x !in c.services[x] && MayStart(c, e, running, x) && e.starts(x)
      ensures r.Ok? ==> Distinct(r.value)
      ensures r.Ok? ==>
                forall x :: x in r.value <==>
                  && Needed(c, selected, x)
                  && (!MayStart(c, e, running, x) || (x !in old(running) && !e.starts(x)))
      ensures r.Err? && r.error.Cycle? ==> IsCycle(c, r.error.walk)
      ensures r.Err? && r.error.Missing? ==>
                Acyclic(c) && r.error.name !in c.services && Needed(c, selected, r.error.name)
    {
      history := [running];
      var ordered := TopoOrder(c, selected);
      if ordered.Err? {
        return Err(ordered.error), history;
      }
      var order := ordered.value;
      var failures: seq<Name> := [];
      RoundsBegin(c, e, order, running);
      hide InRounds, MayStart, Closed;
      for i := 0 to |order|
        invariant |history| == i + 1 && history[0] == old(running) && history[i] == running
        invariant InRounds(c, e, order, i, old(running), running, failures)
        invariant Closed(c, old(running)) ==> forall k | 0 <= k < |history| :: Closed(c, history[k])
      {
        ghost var before, reported := running, failures;
        InRoundsDeclares(c, e, order, i, old(running), running, failures);
        var failed := StartOne(e, order[i]);
        if failed {
          failures := failures + [order[i]];
        }
        RoundAdvances(c, e, order, i, old(running), before, running, reported, failures);
        if Closed(c, before) {
          RoundKeepsClosed(c, e, order[i], before, running);
        }
        history := history + [running];
      }
      RoundsEnd(c, e, order, old(running), running, failures);
      r := Ok(failures);
    }

    /** Whether what stopInstance does to the services of the list, last first,
        keeps the running set closed all along. */
    method StopInOrder(ordered: seq<Name>) returns (ghost history: seq<set<Name>>)
      modifies this
      ensures running == old(running) - Elements(ordered)
      ensures |history| == |ordered| + 1
      ensures forall k | 0 <= k <= |ordered| :: history[k] == old(running) - Elements(ordered[|ordered| - k..])
    {
      history := [running];
      assert ordered[|ordered|..] == [];
      var i := |ordered|;
      while i > 0
        invariant 0 <= i <= |ordered| && |history| == |ordered| - i + 1
        invariant running == old(running) - Elements(ordered[i..])
        invariant forall k | 0 <= k < |history| :: history[k] == old(running) - Elements(ordered[|ordered| - k..])
      {
        i := i - 1;
        assert ordered[i..] == [ordered[i]] + ordered[i + 1..];
        running := running - {ordered[i]};
        history := history + [running];
      }
      assert ordered[0..] == ordered;
    }

    /** Stops the named services, or all of them, whatever the configuration looks
        like. */
    method StopProject(names: seq<Name>) returns (r: Result<seq<Name>, StopFailure>, ghost history: seq<set<Name>>)
      requires Distinct(c.order)
      modifies this
      ensures r.Err? <==> exists n <- names :: n !in c.services
      ensures r.Err? ==> running == old(running) && history == [running]
      ensures r.Err? ==>
                exists i :: 0 <= i < |names| && names[i] == r.error.name && r.error.name !in c.services
                            && forall j | 0 <= j < i :: names[j] in c.services
      ensures r.Ok? ==> StopRuns(c, names, r.value, old(running), history) && running == old(running) - Elements(r.value)
      ensures r.Ok? ==> running !! if names == [] then c.services.Keys else Elements(names)
    {
      history := [running];
      for i := 0 to |names|
        invariant forall j | 0 <= j < i :: names[j] in c.services
        invariant running == old(running) && history == [running]
      {
        if names[i] !in c.services {
          return Err(NotDeclared(names[i])), history;
        }
      }
      var ordered := StopOrder(names);
      SelectionIsOrdered(c, names, ordered);
      history := StopInOrder(ordered);
      r := Ok(ordered);
    }

    /** The list that StopProject works off from its end. */
    method StopOrder(names: seq<Name>) returns (ordered: seq<Name>)
      requires Distinct(c.order)
      ensures OrdersStop(c, names, ordered)
    {
      var selected := names;
      if names == [] {
        selected := ServiceNames(c);
      }
      var order := TopoOrder(c, selected);
      ordered := if order.Ok? then order.value else selected;
    }
  }

  /** A service that has had its round runs exactly if it could be started. */
  ghost predicate Decided(c: Config, e: Environment, running: set<Name>, x: Name) {
    x in c.services && (x in running <==> x !in c.services[x] && MayStart(c, e, running, x) && e.starts(x))
  }

  /** A later round of the loop does not touch earlier decisions. */
  lemma StaysDecided(c: Config, e: Environment, order: seq<Name>, i: nat, j: nat, before: set<Name>, after: set<Name>)
    requires DependenciesFirst(c, order) && Distinct(order)
    requires j < i < |order| && Decided(c, e, before, order[j])
    requires before <= after <= before + {order[i]}
    ensures Decided(c, e, after, order[j])
  {
    var x := order[j];
    if x !in c.services[x] {
      forall b <- c.services[x] ensures b in before <==> b in after {
        assert DependsOn(c, x, b);
      }
    }
  }

  lemma BecomesDecided(c: Config, e: Environment, order: seq<Name>, i: nat, before: set<Name>, after: set<Name>)
    requires i < |order| && order[i] in c.services && order[i] !in before
    requires after == before + if MayStart(c, e, before, order[i]) && e.starts(order[i]) then {order[i]} else {}
    ensures Decided(c, e, after, order[i])
  {
  }

  /** A service that has had its round is reported exactly if it could not be launched. */
  ghost predicate Reported(c: Config, e: Environment, was: set<Name>, running: set<Name>, failures: seq<Name>, x: Name) {
    && x in c.services
    && (x in failures <==> !MayStart(c, e, running, x) || (x !in was && !e.starts(x)))
  }

  /** The first `i` services of the order have had their rounds. */
  ghost predicate InRounds(c: Config, e: Environment, order: seq<Name>, i: nat, was: set<Name>, running: set<Name>,
                           failures: seq<Name>) {
    && i <= |order| && Distinct(order) && DependenciesFirst(c, order) && (forall x <- order :: x in c.services)
    && was <= running <= was + Elements(order[..i])
    && Distinct(failures) && Elements(failures) <= Elements(order[..i])
    && (forall j | 0 <= j < i && order[j] !in was :: Decided(c, e, running, order[j]))
    && (forall j | 0 <= j < i :: Reported(c, e, was, running, failures, order[j]))
  }

  lemma RoundsBegin(c: Config, e: Environment, order: seq<Name>, was: set<Name>)
    requires Distinct(order) && DependenciesFirst(c, order) && forall x <- order :: x in c.services
    ensures InRounds(c, e, order, 0, was, was, [])
  {
  }

  lemma InRoundsDeclares(c: Config, e: Environment, order: seq<Name>, i: nat, was: set<Name>, running: set<Name>,
                         failures: seq<Name>)
    requires InRounds(c, e, order, i, was, running, failures) && i < |order|
    ensures order[i] in c.services
  {
  }

  lemma RoundAdvances(c: Config, e: Environment, order: seq<Name>, i: nat, was: set<Name>,
                      before: set<Name>, after: set<Name>, reported: seq<Name>, failures: seq<Name>)
    requires InRounds(c, e, order, i, was, before, reported) && i < |order| && order[i] in c.services
    requires after == before + if MayStart(c, e, before, order[i]) && e.starts(order[i]) then {order[i]} else {}
    requires failures == if !MayStart(c, e, before, order[i]) || (order[i] !in before && !e.starts(order[i]))
                         then reported + [order[i]] else reported
    ensures InRounds(c, e, order, i + 1, was, after, failures)
  {
    hide MayStart, Decided, Reported, DependenciesFirst;
    assert order[..i + 1] == order[..i] + [order[i]];
    ElementsSnoc(order[..i], order[i]);
    NewReport(order, i, reported, failures);
    assert order[i] !in Elements(order[..i]);
    forall j | 0 <= j <= i ensures Reported(c, e, was, after, failures, order[j]) {
      if j < i {
        StaysReported(c, e, order, i, j, was, before, after, reported, failures);
      } else {
        BecomesReported(c, e, order[i], was, before, after, failures);
      }
    }
    forall j | 0 <= j <= i && order[j] !in was ensures Decided(c, e, after, order[j]) {
      if j < i {
        StaysDecided(c, e, order, i, j, before, after);
      } else {
        BecomesDecided(c, e, order, i, before, after);
      }
    }
  }

  lemma RoundsEnd(c: Config, e: Environment, order: seq<Name>, was: set<Name>, running: set<Name>, failures: seq<Name>)
    requires InRounds(c, e, order, |order|, was, running, failures)
    ensures was <= running <= was + Elements(order) && Distinct(failures)
    ensures forall x <- order :: x in c.services
    ensures forall x <- order | x !in was :: x in running <==> x !in c.services[x] && MayStart(c, e, running, x) && e.starts(x)
    ensures forall x :: x in failures <==>
              x in order && (!MayStart(c, e, running, x) || (x !in was && !e.starts(x)))
  {
    hide MayStart, DependenciesFirst;
    assert order[..|order|] == order;
    forall x <- order ensures Reported(c, e, was, running, failures, x)
                      ensures x !in was ==> Decided(c, e, running, x)
    {
      var j :| 0 <= j < |order| && order[j] == x;
    }
    assert forall x <- failures :: x in Elements(failures);
  }

  lemma RoundKeepsClosed(c: Config, e: Environment, name: Name, before: set<Name>, after: set<Name>)
    requires name in c.services && Closed(c, before)
    requires after == before + if MayStart(c, e, before, name) && e.starts(name) then {name} else {}
    ensures Closed(c, after)
  {
  }

  lemma NewReport(order: seq<Name>, i: nat, before: seq<Name>, after: seq<Name>)
    requires Distinct(order) && i < |order|
    requires Distinct(before) && Elements(before) <= Elements(order[..i])
    requires after == before || after == before + [order[i]]
    ensures Distinct(after) && Elements(after) <= Elements(order[..i + 1])
    ensures order[i] !in before
  {
    assert order[..i + 1] == order[..i] + [order[i]];
    ElementsSnoc(order[..i], order[i]);
    ElementsSnoc(before, order[i]);
    assert order[i] !in Elements(order[..i]);
    assert forall x <- before :: x in Elements(before);
    DistinctSnoc(before, order[i]);
  }

  lemma StaysReported(c: Config, e: Environment, order: seq<Name>, i: nat, j: nat, was: set<Name>,
                      before: set<Name>, after: set<Name>, reported: seq<Name>, failures: seq<Name>)
    requires DependenciesFirst(c, order) && Distinct(order)
    requires j < i < |order| && Reported(c, e, was, before, reported, order[j])
    requires before <= after <= before + {order[i]}
    requires failures == reported || failures == reported + [order[i]]
    ensures Reported(c, e, was, after, failures, order[j])
  {
    var x := order[j];
    forall b <- c.services[x] ensures b in before <==> b in after {
      assert DependsOn(c, x, b);
    }
  }

  lemma BecomesReported(c: Config, e: Environment, x: Name, was: set<Name>,
                        before: set<Name>, after: set<Name>, failures: seq<Name>)
    requires x in c.services && was <= before && (x in before ==> x in was)
    requires after == before + if MayStart(c, e, before, x) && e.starts(x) then {x} else {}
    requires x in failures <==> !MayStart(c, e, before, x) || (x !in before && !e.starts(x))
    ensures Reported(c, e, was, after, failures, x)
  {
    assert MayStart(c, e, before, x) ==> MayStart(c, e, after, x);
  }

  // -------------------------------------------------------------------- stopping

  /** What a call of StopProject selects. */
  ghost function Selection(c: Config, names: seq<Name>): seq<Name> {
    if names == [] then AllServices(c) else names
  }

  ghost predicate HasOrder(c: Config, selected: seq<Name>) {
    Acyclic(c) && forall x | Needed(c, selected, x) :: x in c.services
  }

  /** The selection with all it needs, dependencies first; the selection as it is where
      there is no such order. */
  ghost predicate OrdersStop(c: Config, names: seq<Name>, ordered: seq<Name>) {
    var selected := Selection(c, names);
    if HasOrder(c, selected) then
      Distinct(ordered) && DependenciesFirst(c, ordered) && forall x :: x in ordered <==> Needed(c, selected, x)
    else
      ordered == selected
  }

  /** The list that StopProject works off, and the running sets along the way. */
  ghost predicate StopRuns(c: Config, names: seq<Name>, ordered: seq<Name>, running: set<Name>, history: seq<set<Name>>) {
    OrdersStop(c, names, ordered) && StopHistory(ordered, running, history)
  }

  /** One service after the other is stopped, the last of the list first. */
  ghost predicate StopHistory(ordered: seq<Name>, running: set<Name>, history: seq<set<Name>>) {
    && |history| == |ordered| + 1
    && forall k | 0 <= k <= |ordered| :: history[k] == running - Elements(ordered[|ordered| - k..])
  }

  lemma AllServicesAreListed(c: Config)
    requires Distinct(c.order)
    ensures Elements(AllServices(c)) == c.services.Keys
  {
    KeepElements(c.order, c.services.Keys);
  }

  /** Everything selected is stopped, with or without a start order. */
  lemma SelectionIsOrdered(c: Config, names: seq<Name>, ordered: seq<Name>)
    requires Distinct(c.order) && OrdersStop(c, names, ordered)
    ensures forall x <- Selection(c, names) :: x in ordered
    ensures (if names == [] then c.services.Keys else Elements(names)) <= Elements(ordered)
  {
    AllServicesAreListed(c);
    forall x <- Selection(c, names) ensures x in ordered {
      ReachesSelf(c, x);
    }
    assert Elements(Selection(c, names)) <= Elements(ordered);
  }

  ghost predicate AllClosed(c: Config, history: seq<set<Name>>) {
    forall k | 0 <= k < |history| :: Closed(c, history[k])
  }

  /** From each place of a list on, the running users of the service at that place occur
      too: stopping the list from its end reaches them no later. */
  ghost predicate UsersFollow(c: Config, ordered: seq<Name>, running: set<Name>) {
    forall a, j | a in running && 0 <= j < |ordered| && DependsOn(c, a, ordered[j]) :: a in ordered[j..]
  }

  /** Stopping any list from its end keeps the running set closed after every step
      exactly when users follow what they use.  The list may come from a configuration
      with cycles or undeclared names, and may repeat itself. */
  lemma StopKeepsClosedExactly(c: Config, ordered: seq<Name>, running: set<Name>, history: seq<set<Name>>)
    requires Closed(c, running) && StopHistory(ordered, running, history)
    ensures AllClosed(c, history) <==> UsersFollow(c, ordered, running)
  {
    if UsersFollow(c, ordered, running) {
      forall k, a, b | 0 <= k < |history| && a in history[k] && DependsOn(c, a, b) ensures b in history[k] {
        UserKeepsDependency(c, ordered, running, |ordered| - k, a, b);
      }
    } else {
      var a, j :| a in running && 0 <= j < |ordered| && DependsOn(c, a, ordered[j]) && a !in ordered[j..];
      var cut := history[|ordered| - j];
      assert ordered[j..][0] == ordered[j];
      assert a in cut && ordered[j] !in cut;
      assert !Closed(c, cut);
    }
  }

  lemma UserKeepsDependency(c: Config, ordered: seq<Name>, running: set<Name>, cut: nat, a: Name, b: Name)
    requires UsersFollow(c, ordered, running) && cut <= |ordered|
    requires a in running && DependsOn(c, a, b)
    ensures b in ordered[cut..] ==> a in ordered[cut..]
  {
    if b in ordered[cut..] {
      var i :| 0 <= i < |ordered[cut..]| && ordered[cut..][i] == b;
      assert ordered[cut + i] == b;
      assert a in ordered[cut + i..];
      assert ordered[cut..][i..] == ordered[cut + i..];
      assert a in ordered[cut..];
    }
  }

  /** No running service outside the list depends on a member of the list. */
  ghost predicate NoOutsideUser(c: Config, ordered: seq<Name>, running: set<Name>) {
    forall a, b | a in running && DependsOn(c, a, b) && b in ordered :: a in ordered
  }

  /** In a start order, users inside the list do follow. */
  lemma OrderLeavesOutsiders(c: Config, ordered: seq<Name>, running: set<Name>)
    requires Distinct(ordered) && DependenciesFirst(c, ordered)
    ensures UsersFollow(c, ordered, running) <==> NoOutsideUser(c, ordered, running)
  {
    if NoOutsideUser(c, ordered, running) {
      forall a, j | a in running && 0 <= j < |ordered| && DependsOn(c, a, ordered[j]) ensures a in ordered[j..] {
        assert ordered[j] in ordered;
        var i :| 0 <= i < |ordered| && ordered[i] == a;
        assert i >= j;
        assert ordered[j..][i - j] == a;
      }
    } else {
      var a, b :| a in running && DependsOn(c, a, b) && b in ordered && a !in ordered;
      var j :| 0 <= j < |ordered| && ordered[j] == b;
      assert a !in ordered[j..];
    }
  }

  /** Stopping a project as a whole keeps the running set closed after every step
      exactly when there is a start order or users happen to be listed later. */
  lemma StopAllKeepsClosedExactly(c: Config, ordered: seq<Name>, running: set<Name>, history: seq<set<Name>>)
    requires Distinct(c.order) && StopRuns(c, [], ordered, running, history) && Closed(c, running)
    ensures AllClosed(c, history) <==> HasOrder(c, AllServices(c)) || UsersFollow(c, AllServices(c), running)
  {
    StopKeepsClosedExactly(c, ordered, running, history);
    if HasOrder(c, AllServices(c)) {
      SelectionIsOrdered(c, [], ordered);
      OrderLeavesOutsiders(c, ordered, running);
      assert forall x <- c.services :: x in Elements(ordered);
    }
  }

  /** Stopping named services keeps the running set closed after every step exactly
      when, in a start order, each running user of what they need is needed by them
      too, and without one, users happen to be named later. */
  lemma StopNamedKeepsClosedExactly(c: Config, names: seq<Name>, ordered: seq<Name>, running: set<Name>, history: seq<set<Name>>)
    requires StopRuns(c, names, ordered, running, history) && names != [] && Closed(c, running)
    ensures AllClosed(c, history) <==>
            if HasOrder(c, names)
            then forall a, b | a in running && DependsOn(c, a, b) && Needed(c, names, b) :: Needed(c, names, a)
            else UsersFollow(c, names, running)
  {
    StopKeepsClosedExactly(c, ordered, running, history);
    if HasOrder(c, names) {
      OrderLeavesOutsiders(c, ordered, running);
    }
  }

  const UNDECLARED_DEPENDENCY: Config := Config(map["web" := ["db"], "db" := [], "job" := ["ghost"]], ["web", "db", "job"])

  lemma FallbackOrder()
    ensures Acyclic(UNDECLARED_DEPENDENCY) && Closed(UNDECLARED_DEPENDENCY, {"web", "db"})
    ensures !HasOrder(UNDECLARED_DEPENDENCY, UNDECLARED_DEPENDENCY.order)
    ensures AllServices(UNDECLARED_DEPENDENCY) == UNDECLARED_DEPENDENCY.order
  {
    var c := UNDECLARED_DEPENDENCY;
    var done := ["db", "web", "job"];
    assert done[0] != done[1] && done[0] != done[2] && done[1][0] != done[2][0];
    RankedIsAcyclic(c, done);
    assert "ghost" !in c.services;
    assert Joins(c, ["job", "ghost"], "job", "ghost");
    assert c.order[0] == "web" && c.order[1] == "db" && c.order[2] == "job";
    assert c.services.Keys == Elements(c.order);
    KeepAll(c.order, c.services.Keys);
  }

  /** One dependency that nobody declares takes the order away from all services: the
      database is stopped before its user. */
  lemma FallbackStopsDatabaseFirst(ordered: seq<Name>, history: seq<set<Name>>)
    requires StopRuns(UNDECLARED_DEPENDENCY, [], ordered, {"web", "db"}, history)
    ensures Acyclic(UNDECLARED_DEPENDENCY) && Closed(UNDECLARED_DEPENDENCY, {"web", "db"})
    ensures |history| == 4 && "web" in history[2] && "db" !in history[2] && !Closed(UNDECLARED_DEPENDENCY, history[2])
  {
    FallbackOrder();
    assert ordered[1..] == ["db", "job"];
    assert ordered[1..][0] == "db";
    assert |"web"| != |"db"| && "web"[0] != "job"[0];
    assert DependsOn(UNDECLARED_DEPENDENCY, "web", "db");
  }

  const SHARED_DATABASE: Config := Config(map["db" := [], "web" := ["db"], "api" := ["db"]], ["db", "web", "api"])

  lemma SharedDatabaseIsAcyclic()
    ensures Acyclic(SHARED_DATABASE)
  {
    var done := ["db", "web", "api"];
    assert done[0] != done[1] && done[0] != done[2];
    assert done[1][0] != done[2][0];
    forall i, b | 0 <= i < |done| && Edge(SHARED_DATABASE, done[i], b) ensures b in done[..i] {
      assert i > 0 && b == "db";
      assert done[..i][0] == "db";
    }
    RankedIsAcyclic(SHARED_DATABASE, done);
  }

  lemma WebNeedsDatabase()
    ensures Closed(SHARED_DATABASE, {"db", "web", "api"}) && DependsOn(SHARED_DATABASE, "api", "db")
    ensures Needed(SHARED_DATABASE, ["web"], "db") && !Needed(SHARED_DATABASE, ["web"], "api")
    ensures forall x | Needed(SHARED_DATABASE, ["web"], x) :: x in SHARED_DATABASE.services
  {
    assert "web"[0] != "api"[0] && |"db"| == 2;
    assert Joins(SHARED_DATABASE, ["web", "db"], "web", "db");
    assert "web" in ["web"] && Reaches(SHARED_DATABASE, "web", "db");
    forall x | Needed(SHARED_DATABASE, ["web"], x) ensures x in {"web", "db"} {
      var p :| Joins(SHARED_DATABASE, p, "web", x);
      ClosedContains(SHARED_DATABASE, {"web", "db"}, p);
    }
  }

  /** Stopping one user of a shared dependency ends with the other user running
      without it. */
  lemma SharedDependencyIsStopped(ordered: seq<Name>, history: seq<set<Name>>)
    requires StopRuns(SHARED_DATABASE, ["web"], ordered, {"db", "web", "api"}, history)
    ensures "api" in history[|ordered|] && "db" !in history[|ordered|]
    ensures !Closed(SHARED_DATABASE, history[|ordered|])
  {
    SharedDatabaseIsAcyclic();
    WebNeedsDatabase();
    assert ordered[0..] == ordered;
  }
}
