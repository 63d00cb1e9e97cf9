/** The port manager: claim, probe, first fit, and all or nothing. */
module PortManager {
  import opened Wrappers
  import opened PortTable

  datatype Window = Window(first: int, last: int)

  datatype PortSpec = PortSpec(name: string, auto: bool, number: int, preferred: int, env: string, range: string)

  const GENERAL_RANGE := "general"

  datatype Allocation = Allocation(ids: seq<nat>, byName: map<string, int>, env: map<string, int>)

  predicate ValidPort(p: int) {
    1 <= p <= 65535
  }

  /** Neither allocated nor in use by a process that DevMan does not manage. */
  predicate Free(held: set<int>, available: int -> bool, p: int) {
    p !in held && available(p)
  }

  // ------------------------------------------------------- which port a spec gets

  /** What the scan of a window may answer. */
  ghost predicate PicksFromWindow(held: set<int>, available: int -> bool, w: Window, r: Result<int, Code>) {
    match r
    case Ok(p) =>
      && w.first <= p <= w.last && ValidPort(p) && Free(held, available, p)
      && forall q | w.first <= q < p :: ValidPort(q) && !Free(held, available, q)
    case Err(PortExhausted) =>
      forall q | w.first <= q <= w.last :: ValidPort(q) && !Free(held, available, q)
    case Err(ConfigInvalid) =>
      exists q :: w.first <= q <= w.last && !ValidPort(q)
        && forall k | w.first <= k < q :: ValidPort(k) && !Free(held, available, k)
    case Err(_) => false
  }

  /** What a declared port may get, given the ports that are held. */
  ghost predicate Picks(held: set<int>, available: int -> bool, ranges: map<string, Window>, spec: PortSpec,
                        r: Result<int, Code>) {
    if !spec.auto then
      r == if !ValidPort(spec.number) then Err(ConfigInvalid)
           else if Free(held, available, spec.number) then Ok(spec.number)
           else Err(PortConflict)
    else if spec.preferred != 0 && ValidPort(spec.preferred) && Free(held, available, spec.preferred) then
      r == Ok(spec.preferred)
    else
      var range := if spec.range == "" then "general" else spec.range;
      if range !in ranges then r == Err(ConfigInvalid) else PicksFromWindow(held, available, ranges[range], r)
  }

  /** The answer is determined. */
  lemma PicksUnique(held: set<int>, available: int -> bool, ranges: map<string, Window>, spec: PortSpec,
                    a: Result<int, Code>, b: Result<int, Code>)
    requires Picks(held, available, ranges, spec, a) && Picks(held, available, ranges, spec, b)
    ensures a == b
  {
  }

  /** Ports picked one after the other, each counting the earlier ones as held. */
  ghost predicate PicksAll(held: set<int>, available: int -> bool, ranges: map<string, Window>, specs: seq<PortSpec>,
                           ports: seq<int>) {
    && |ports| <= |specs|
    && forall k | 0 <= k < |ports| :: Picks(held + PortsOf(ports[..k]), available, ranges, specs[k], Ok(ports[k]))
  }

  function PortsOf(ports: seq<int>): set<int> {
    set p | p in ports
  }

  // ------------------------------------------------------------- tables over time

  /** Rows were added, none of them active. */
  ghost predicate OnlyAddsReleased(before: seq<Row>, after: seq<Row>) {
    && before <= after
    && forall i | |before| <= i < |after| :: !Active(after[i]) && after[i].released
  }

  /** Rows were added, and of these exactly row `id` is active. */
  ghost predicate AddsOne(before: seq<Row>, after: seq<Row>, id: nat, row: Row) {
    && before <= after
    && |before| <= id < |after| && after[id] == row && Active(row) && !row.released
    && forall i | |before| <= i < |after| && i != id :: !Active(after[i]) && after[i].released
  }

  lemma OnlyAddsReleasedKeeps(before: seq<Row>, after: seq<Row>)
    requires OnlyAddsReleased(before, after)
    ensures ActivePorts(after) == ActivePorts(before) && ActiveIds(after) == ActiveIds(before)
    ensures Consistent(before) ==> Consistent(after)
  {
  }

  lemma AddsOneKeeps(before: seq<Row>, after: seq<Row>, id: nat, row: Row)
    requires AddsOne(before, after, id, row)
    ensures ActivePorts(after) == ActivePorts(before) + {row.port} && ActiveIds(after) == ActiveIds(before) + {id}
    ensures Consistent(before) && row.port !in ActivePorts(before) ==> Consistent(after)
  {
  }

  class Manager {
    const store: PortStore
    var ranges: map<string, Window>

    constructor (store: PortStore, ranges: map<string, Window>)
      ensures this.store == store && this.ranges == ranges
    {
      this.store, this.ranges := store, ranges;
    }

    /** Claim first, probe after; a lost probe gives the port back. */
    method TryReserve(project: string, service: string, spec: PortSpec, port: int, available: int -> bool)
      returns (r: Result<nat, Code>)
      modifies store
      ensures r.Err? ==> r.error == (if 1 <= port <= 65535 then PortConflict else ConfigInvalid)
      ensures r.Ok? <==> 1 <= port <= 65535 && Free(ActivePorts(old(store.rows)), available, port)
      ensures r.Err? ==> OnlyAddsReleased(old(store.rows), store.rows)
      ensures r.Ok? ==> AddsOne(old(store.rows), store.rows, r.value, NewRow(project, service, spec, port))
    {
      if port < 1 || port > 65535 {
        return Err(ConfigInvalid);
      }
      var claimed := store.ReservePort(port, project, service, spec.name, spec.env);
      if claimed.Err? {
        return claimed;
      }
      if !available(port) {
        store.ReleasePort(claimed.value);
        return Err(PortConflict);
      }
      r := claimed;
    }

    method ReserveFromRange(project: string, service: string, spec: PortSpec, available: int -> bool)
      returns (r: Result<nat, Code>)
      modifies store
      ensures r.Err? ==> OnlyAddsReleased(old(store.rows), store.rows)
      ensures r.Ok? ==> r.value < |store.rows|
      ensures r.Ok? ==> AddsOne(old(store.rows), store.rows, r.value, NewRow(project, service, spec, store.rows[r.value].port))
      ensures var range := if spec.range == "" then "general" else spec.range;
              var picked := if r.Ok? then Ok(store.rows[r.value].port) else Err(r.error);
              if range !in ranges then picked == Err(ConfigInvalid)
              else PicksFromWindow(ActivePorts(old(store.rows)), available, ranges[range], picked)
    {
      var range := if spec.range == "" then GENERAL_RANGE else spec.range;
      if range !in ranges {
        return Err(ConfigInvalid);
      }
      var window := ranges[range];
      var port := window.first;
      while port <= window.last
        invariant window.first <= port
        invariant OnlyAddsReleased(old(store.rows), store.rows)
        invariant forall q | window.first <= q < port && q <= window.last ::
                    ValidPort(q) && !Free(ActivePorts(old(store.rows)), available, q)
        decreases window.last - port
      {
        OnlyAddsReleasedKeeps(old(store.rows), store.rows);
        r := TryReserve(project, service, spec, port, available);
        assert ValidPort(port) <==> 1 <= port <= 65535;
        if r.Ok? || r.error != PortConflict {
          return;
        }
        port := port + 1;
      }
      r := Err(PortExhausted);
    }

    method ReserveOne(project: string, service: string, spec: PortSpec, available: int -> bool)
      returns (r: Result<nat, Code>)
      modifies store
      ensures r.Err? ==> OnlyAddsReleased(old(store.rows), store.rows)
      ensures r.Ok? ==> r.value < |store.rows|
      ensures r.Ok? ==> AddsOne(old(store.rows), store.rows, r.value, NewRow(project, service, spec, store.rows[r.value].port))
      ensures Picks(ActivePorts(old(store.rows)), available, ranges, spec,
                    if r.Ok? then Ok(store.rows[r.value].port) else Err(r.error))
    {
      if !spec.auto {
        r := TryReserve(project, service, spec, spec.number, available);
        return;
      }
      if spec.preferred != 0 {
        r := TryReserve(project, service, spec, spec.preferred, available);
        if r.Ok? {
          return;
        }
        OnlyAddsReleasedKeeps(old(store.rows), store.rows);
      }
      r := ReserveFromRange(project, service, spec, available);
    }

    /** Releases what this call has reserved. */
    method Rollback(ghost before: seq<Row>, ids: seq<nat>)
      requires AddsThese(before, store.rows, ids)
      modifies store
      ensures OnlyAddsReleased(before, store.rows)
    {
      ghost var start := store.rows;
      for i := 0 to |ids|
        invariant |store.rows| == |start| && before <= store.rows
        invariant forall j | |before| <= j < |start| :: store.rows[j] == start[j] || (store.rows[j].released && !Active(store.rows[j]))
        invariant forall k | 0 <= k < i :: store.rows[ids[k]].released && !Active(store.rows[ids[k]])
      {
        store.ReleasePort(ids[i]);
      }
    }

    /** Allocates every declared port of a service, or none. */
    method ReserveService(project: string, service: string, specs: seq<PortSpec>, available: int -> bool)
      returns (r: Result<Allocation, Code>, ghost ports: seq<int>)
      requires Consistent(store.rows)
      modifies store
      ensures Consistent(store.rows) && old(store.rows) <= store.rows
      ensures PicksAll(ActivePorts(old(store.rows)), available, ranges, specs, ports)
      ensures r.Ok? ==>
                && |ports| == |specs| == |r.value.ids|
                && AddsThese(old(store.rows), store.rows, r.value.ids)
                && (forall k | 0 <= k < |specs| :: store.rows[r.value.ids[k]] == NewRow(project, service, specs[k], ports[k]))
                && NamesPorts(specs, ports, r.value)
                && ActiveIds(store.rows) == ActiveIds(old(store.rows)) + IdsOf(r.value.ids)
      ensures r.Err? ==>
                && |ports| < |specs|
                && Picks(ActivePorts(old(store.rows)) + PortsOf(ports), available, ranges, specs[|ports|], Err(r.error))
                && ActiveIds(store.rows) == ActiveIds(old(store.rows))
    {
      var allocation := Allocation([], map[], map[]);
      ports := [];
      for i := 0 to |specs|
        invariant |ports| == i
        invariant Claimed(old(store.rows), store.rows, project, service, specs, available, ranges, ports, allocation)
      {
        ghost var before := store.rows;
        var one := ReserveOne(project, service, specs[i], available);
        if one.Err? {
          AddsMoreReleased(old(store.rows), before, store.rows, allocation.ids);
          Rollback(old(store.rows), allocation.ids);
          OnlyAddsReleasedKeeps(old(store.rows), store.rows);
          return Err(one.error), ports;
        }
        var port := store.rows[one.value].port;
        ClaimedStep(old(store.rows), before, store.rows, project, service, specs, available, ranges, ports, allocation,
                     one.value, port);
        ports := ports + [port];
        allocation := Extend(allocation, specs[i], one.value, port);
      }
      assert specs[..|specs|] == specs;
      r := Ok(allocation);
    }

    /** Checks what is listening on the ports of a service and records it. */
    method Verify(project: string, service: string, listening: int -> bool) returns (r: Result<seq<nat>, Code>)
      requires Consistent(store.rows)
      modifies store
      ensures Consistent(store.rows) && r.Ok?
      ensures forall id: nat :: id in r.value <==> id in ActiveIds(old(store.rows)) && old(store.rows)[id].project == project && old(store.rows)[id].service == service
      ensures VerifiedRows(old(store.rows), store.rows, project, service, listening)
      ensures ActiveIds(store.rows) == ActiveIds(old(store.rows))
    {
      hide *;
      ghost var start := store.rows;
      var ids := store.ServicePorts(project, service);
      NothingObserved(start, ids, project, service, listening);
      for i := 0 to |ids|
        invariant Consistent(store.rows) && Observed(start, store.rows, ids, i, listening)
      {
        LookOnce(start, store.rows, ids, i, listening);
        var row := store.rows[ids[i]];
        var state := if listening(row.port) then Bound else Unverified;
        if state != row.state {
          var update := store.SetPortState(ids[i], state);
        }
      }
      AllObserved(start, store.rows, ids, project, service, listening);
      r := Ok(ids);
    }

    /** Claims a port that a surviving or external process already listens on. */
    method Adopt(project: string, service: string, name: string, env: string, port: int, listening: int -> bool)
      returns (r: Result<nat, Code>)
      requires Consistent(store.rows)
      modifies store
      ensures Consistent(store.rows)
      ensures r.Err? <==> Allocated(old(store.rows), port)
      ensures r.Err? ==> r.error == PortConflict && store.rows == old(store.rows)
      ensures r.Ok? ==>
                AddsOne(old(store.rows), store.rows, r.value,
                        Row(port, project, service, name, env, if listening(port) then Bound else Unverified, false))
    {
      r := store.ReservePort(port, project, service, name, env);
      if r.Err? {
        return;
      }
      var state := if listening(port) then Bound else Unverified;
      HeldRowIsNeverRejected(store.rows, r.value, state);
      SetPortStateExactly(store.rows, r.value, state);
      var update := store.SetPortState(r.value, state);
    }
  }

  /** The row of a port after a look at its listener. */
  function Looked(r: Row, listening: int -> bool): Row {
    r.(state := if listening(r.port) then Bound else Unverified)
  }

  /** Exactly the active rows of the service have been looked at. */
  ghost predicate VerifiedRows(before: seq<Row>, after: seq<Row>, project: string, service: string, listening: int -> bool) {
    && |after| == |before|
    && forall i | 0 <= i < |before| ::
         after[i] == if Active(before[i]) && OfService(project, service)(before[i]) then Looked(before[i], listening) else before[i]
  }

  /** The first `n` of the listed rows have been looked at, the others not. */
  ghost predicate Observed(before: seq<Row>, after: seq<Row>, ids: seq<nat>, n: nat, listening: int -> bool) {
    && |after| == |before| && n <= |ids|
    && (forall k | 0 <= k < |ids| :: ids[k] < |before| && Active(before[ids[k]]))
    && (forall a, b | 0 <= a < b < |ids| :: ids[a] < ids[b])
    && (forall k | 0 <= k < n :: after[ids[k]] == Looked(before[ids[k]], listening))
    && (forall j | 0 <= j < |before| && (forall k | 0 <= k < n :: ids[k] != j) :: after[j] == before[j])
  }

  ghost predicate ServiceIds(rows: seq<Row>, ids: seq<nat>, project: string, service: string) {
    && (forall id: nat :: id in ids <==> id in ActiveIds(rows) && OfService(project, service)(rows[id]))
    && (forall a, b | 0 <= a < b < |ids| :: ids[a] < ids[b])
  }

  lemma NothingObserved(start: seq<Row>, ids: seq<nat>, project: string, service: string, listening: int -> bool)
    requires forall i: nat :: i in ids <==> i in ActiveIds(start) && start[i].project == project && start[i].service == service
    requires forall a, b | 0 <= a < b < |ids| :: ids[a] < ids[b]
    ensures Observed(start, start, ids, 0, listening) && ServiceIds(start, ids, project, service)
  {
    forall k | 0 <= k < |ids| ensures ids[k] < |start| && Active(start[ids[k]]) {
      assert ids[k] in ids;
    }
  }

  /** Looking at one more row changes its state at most, and the index allows it. */
  lemma LookOnce(start: seq<Row>, rows: seq<Row>, ids: seq<nat>, i: nat, listening: int -> bool)
    requires Observed(start, rows, ids, i, listening) && Consistent(rows) && i < |ids|
    ensures ids[i] < |rows|
    ensures var row := rows[ids[i]];
            var state := if listening(row.port) then Bound else Unverified;
            var next := Apply(rows, Update(ids[i], state));
            && !StateRejected(rows, ids[i], state)
            && Consistent(next) && Observed(start, next, ids, i + 1, listening)
            && (state == row.state ==> next == rows)
  {
    var row := rows[ids[i]];
    var state := if listening(row.port) then Bound else Unverified;
    assert forall k | 0 <= k < i :: ids[k] != ids[i];
    assert row == start[ids[i]];
    HeldRowIsNeverRejected(rows, ids[i], state);
    SetPortStateExactly(rows, ids[i], state);
  }

  lemma AllObserved(start: seq<Row>, rows: seq<Row>, ids: seq<nat>, project: string, service: string, listening: int -> bool)
    requires Observed(start, rows, ids, |ids|, listening) && ServiceIds(start, ids, project, service)
    ensures VerifiedRows(start, rows, project, service, listening) && ActiveIds(rows) == ActiveIds(start)
    ensures forall id: nat :: id in ids <==> id in ActiveIds(start) && OfService(project, service)(start[id])
  {
    forall j | 0 <= j < |start|
      ensures rows[j] == if j in ids then Looked(start[j], listening) else start[j]
    {
      if j in ids {
        var k :| 0 <= k < |ids| && ids[k] == j;
      }
    }
  }

  /** The allocation with one more port. */
  function Extend(a: Allocation, spec: PortSpec, id: nat, port: int): Allocation {
    Allocation(a.ids + [id], a.byName[spec.name := port], if spec.env != "" then a.env[spec.env := port] else a.env)
  }

  function NewRow(project: string, service: string, spec: PortSpec, port: int): Row {
    Row(port, project, service, spec.name, spec.env, Reserved, false)
  }

  lemma NewRowPort(project: string, service: string, spec: PortSpec, port: int)
    ensures NewRow(project, service, spec, port).port == port
  {
  }

  /** What ReserveService has done after the first |ports| specs. */
  ghost predicate Claimed(start: seq<Row>, rows: seq<Row>, project: string, service: string, specs: seq<PortSpec>,
                          available: int -> bool, ranges: map<string, Window>, ports: seq<int>, a: Allocation) {
    && Progress(start, rows, project, service, specs, available, ranges, ports, a)
    && NamesPorts(specs[..|ports|], ports, a)
  }

  ghost predicate RowsFit(rows: seq<Row>, project: string, service: string, specs: seq<PortSpec>, ports: seq<int>,
                          ids: seq<nat>) {
    && |ports| == |ids| <= |specs|
    && forall k | 0 <= k < |ports| :: ids[k] < |rows| && rows[ids[k]] == NewRow(project, service, specs[k], ports[k])
  }

  lemma RowsFitOneMore(before: seq<Row>, after: seq<Row>, project: string, service: string, specs: seq<PortSpec>,
                       ports: seq<int>, ids: seq<nat>, id: nat, port: int)
    requires RowsFit(before, project, service, specs, ports, ids) && |ports| < |specs|
    requires AddsOne(before, after, id, NewRow(project, service, specs[|ports|], port))
    ensures RowsFit(after, project, service, specs, ports + [port], ids + [id])
  {
  }

  ghost predicate Progress(start: seq<Row>, rows: seq<Row>, project: string, service: string, specs: seq<PortSpec>,
                           available: int -> bool, ranges: map<string, Window>, ports: seq<int>, a: Allocation) {
    && |ports| == |a.ids| <= |specs|
    && Consistent(rows) && AddsThese(start, rows, a.ids)
    && RowsFit(rows, project, service, specs, ports, a.ids)
    && ActivePorts(rows) == ActivePorts(start) + PortsOf(ports)
    && ActiveIds(rows) == ActiveIds(start) + IdsOf(a.ids)
    && PicksAll(ActivePorts(start), available, ranges, specs, ports)
  }

  lemma ProgressStep(start: seq<Row>, before: seq<Row>, after: seq<Row>, project: string, service: string,
                     specs: seq<PortSpec>, available: int -> bool, ranges: map<string, Window>, ports: seq<int>,
                     a: Allocation, id: nat, port: int)
    requires Progress(start, before, project, service, specs, available, ranges, ports, a) && |ports| < |specs|
    requires AddsOne(before, after, id, NewRow(project, service, specs[|ports|], port))
    requires Picks(ActivePorts(before), available, ranges, specs[|ports|], Ok(port))
    ensures Progress(start, after, project, service, specs, available, ranges, ports + [port],
                     Extend(a, specs[|ports|], id, port))
  {
    var spec := specs[|ports|];
    var row := NewRow(project, service, spec, port);
    hide AddsThese, AddsOne, PicksAll, Consistent, Picks, ActivePorts, ActiveIds, PortsOf, IdsOf, NewRow, RowsFit, Free, ValidPort;
    NewRowPort(project, service, spec, port);
    PickedIsFree(ActivePorts(before), available, ranges, spec, port);
    AddsOneMore(start, before, after, a.ids, id, row);
    AddsOneKeeps(before, after, id, row);
    RowsFitOneMore(before, after, project, service, specs, ports, a.ids, id, port);
    PicksOneMore(ActivePorts(start), available, ranges, specs, ports, port);
    Regroup(ActivePorts(start), PortsOf(ports), port);
    Regroup(ActiveIds(start), IdsOf(a.ids), id);
  }

  lemma Regroup<T>(a: set<T>, b: set<T>, x: T)
    ensures a + b + {x} == a + (b + {x})
  {
  }

  lemma ClaimedStep(start: seq<Row>, before: seq<Row>, after: seq<Row>, project: string, service: string,
                    specs: seq<PortSpec>, available: int -> bool, ranges: map<string, Window>, ports: seq<int>,
                    a: Allocation, id: nat, port: int)
    requires Claimed(start, before, project, service, specs, available, ranges, ports, a) && |ports| < |specs|
    requires AddsOne(before, after, id, NewRow(project, service, specs[|ports|], port))
    requires Picks(ActivePorts(before), available, ranges, specs[|ports|], Ok(port))
    ensures Claimed(start, after, project, service, specs, available, ranges, ports + [port],
                    Extend(a, specs[|ports|], id, port))
  {
    hide Progress, NamesPorts, AddsOne, Picks;
    var i := |ports|;
    ProgressStep(start, before, after, project, service, specs, available, ranges, ports, a, id, port);
    NamesOneMore(specs[..i], specs[i], ports, port, a, id);
    assert specs[..i + 1] == specs[..i] + [specs[i]];
  }

  lemma PickedIsFree(held: set<int>, available: int -> bool, ranges: map<string, Window>, spec: PortSpec, port: int)
    requires Picks(held, available, ranges, spec, Ok(port))
    ensures port !in held
  {
  }

  function IdsOf(ids: seq<nat>): set<nat> {
    set i | i in ids
  }

  /** Rows were added, and of these exactly the listed ones are active. */
  ghost predicate AddsThese(before: seq<Row>, after: seq<Row>, ids: seq<nat>) {
    && before <= after
    && (forall k | 0 <= k < |ids| :: |before| <= ids[k] < |after|)
    && (forall k, m | 0 <= k < m < |ids| :: ids[k] < ids[m])
    && (forall i | |before| <= i < |after| :: (i in ids <==> Active(after[i])) && (Active(after[i]) <==> !after[i].released))
  }

  lemma AddsMoreReleased(start: seq<Row>, before: seq<Row>, after: seq<Row>, ids: seq<nat>)
    requires AddsThese(start, before, ids) && OnlyAddsReleased(before, after)
    ensures AddsThese(start, after, ids)
  {
  }

  lemma AddsOneMore(start: seq<Row>, before: seq<Row>, after: seq<Row>, ids: seq<nat>, id: nat, row: Row)
    requires AddsThese(start, before, ids) && AddsOne(before, after, id, row)
    ensures AddsThese(start, after, ids + [id])
    ensures IdsOf(ids + [id]) == IdsOf(ids) + {id}
  {
  }

  /** The maps give, per name, the port of the last spec with that name. */
  ghost predicate NamesPorts(specs: seq<PortSpec>, ports: seq<int>, a: Allocation)
    requires |specs| == |ports|
  {
    NamesByName(specs, ports, a.byName) && NamesByEnv(specs, ports, a.env)
  }

  ghost predicate NamesByName(specs: seq<PortSpec>, ports: seq<int>, byName: map<string, int>)
    requires |specs| == |ports|
  {
    && (forall k | 0 <= k < |specs| :: specs[k].name in byName)
    && (forall n <- byName :: exists k :: Names(specs, ports, k, n, byName[n]))
  }

  ghost predicate NamesByEnv(specs: seq<PortSpec>, ports: seq<int>, env: map<string, int>)
    requires |specs| == |ports|
  {
    && (forall k | 0 <= k < |specs| && specs[k].env != "" :: specs[k].env in env)
    && (forall e <- env :: exists k :: Injects(specs, ports, k, e, env[e]))
  }

  ghost predicate Names(specs: seq<PortSpec>, ports: seq<int>, k: int, name: string, port: int)
    requires |specs| == |ports|
  {
    0 <= k < |specs| && specs[k].name == name && ports[k] == port
    && forall m | k < m < |specs| :: specs[m].name != name
  }

  ghost predicate Injects(specs: seq<PortSpec>, ports: seq<int>, k: int, env: string, port: int)
    requires |specs| == |ports|
  {
    0 <= k < |specs| && env != "" && specs[k].env == env && ports[k] == port
    && forall m | k < m < |specs| :: specs[m].env != env
  }

  lemma NamesOneMore(specs: seq<PortSpec>, spec: PortSpec, ports: seq<int>, port: int, a: Allocation, id: nat)
    requires |specs| == |ports| && NamesPorts(specs, ports, a)
    ensures NamesPorts(specs + [spec], ports + [port], Extend(a, spec, id, port))
  {
    ByNameOneMore(specs, spec, ports, port, a.byName);
    ByEnvOneMore(specs, spec, ports, port, a.env);
  }

  lemma ByNameOneMore(specs: seq<PortSpec>, spec: PortSpec, ports: seq<int>, port: int, byName: map<string, int>)
    requires |specs| == |ports| && NamesByName(specs, ports, byName)
    ensures NamesByName(specs + [spec], ports + [port], byName[spec.name := port])
  {
    var ss, ps, after := specs + [spec], ports + [port], byName[spec.name := port];
    forall n <- after ensures exists k :: Names(ss, ps, k, n, after[n]) {
      if n == spec.name {
        assert Names(ss, ps, |specs|, n, port);
      } else {
        var k :| Names(specs, ports, k, n, byName[n]);
        assert Names(ss, ps, k, n, byName[n]);
      }
    }
  }

  lemma ByEnvOneMore(specs: seq<PortSpec>, spec: PortSpec, ports: seq<int>, port: int, env: map<string, int>)
    requires |specs| == |ports| && NamesByEnv(specs, ports, env)
    ensures NamesByEnv(specs + [spec], ports + [port], if spec.env != "" then env[spec.env := port] else env)
  {
    var ss, ps, after := specs + [spec], ports + [port], if spec.env != "" then env[spec.env := port] else env;
    forall e <- after ensures exists k :: Injects(ss, ps, k, e, after[e]) {
      if spec.env != "" && e == spec.env {
        assert Injects(ss, ps, |specs|, e, port);
      } else {
        var k :| Injects(specs, ports, k, e, env[e]);
        assert Injects(ss, ps, k, e, env[e]);
      }
    }
  }

  lemma PicksOneMore(held: set<int>, available: int -> bool, ranges: map<string, Window>, specs: seq<PortSpec>,
                     ports: seq<int>, port: int)
    requires PicksAll(held, available, ranges, specs, ports) && |ports| < |specs|
    requires Picks(held + PortsOf(ports), available, ranges, specs[|ports|], Ok(port))
    ensures PicksAll(held, available, ranges, specs, ports + [port])
    ensures PortsOf(ports + [port]) == PortsOf(ports) + {port}
  {
    var longer := ports + [port];
    assert longer[|ports|] == port;
    forall k | 0 <= k < |longer| ensures Picks(held + PortsOf(longer[..k]), available, ranges, specs[k], Ok(longer[k])) {
      if k < |ports| {
        assert longer[..k] == ports[..k];
      } else {
        assert longer[..k] == ports;
      }
    }
  }
}
