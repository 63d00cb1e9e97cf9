/** The port_allocations table with its partial unique index on active rows. */
module PortTable {
  import opened Wrappers

  datatype PortState = Reserved | Bound | Unverified | Released | Conflicting

  datatype Row = Row(port: int, project: string, service: string, name: string, env: string,
                     state: PortState, released: bool)

  datatype Code = PortConflict | PortExhausted | ConfigInvalid | Internal

  /** The states the unique index keys on. */
  predicate Active(r: Row) {
    r.state in {Reserved, Bound, Unverified}
  }

  predicate Allocated(rows: seq<Row>, port: int) {
    exists i :: 0 <= i < |rows| && Active(rows[i]) && rows[i].port == port
  }

  function ActiveIds(rows: seq<Row>): set<nat> {
    set i: nat | i < |rows| && Active(rows[i])
  }

  function ActivePorts(rows: seq<Row>): set<int> {
    set i: nat | i < |rows| && Active(rows[i]) :: rows[i].port
  }

  /** No two active rows share a port. */
  ghost predicate Exclusive(rows: seq<Row>) {
    forall i, j | 0 <= i < j < |rows| && Active(rows[i]) && Active(rows[j]) :: rows[i].port != rows[j].port
  }

  /** A row is active exactly as long as it has not been released. */
  ghost predicate ActiveMeansHeld(rows: seq<Row>) {
    forall i | 0 <= i < |rows| :: Active(rows[i]) <==> !rows[i].released
  }

  ghost predicate Consistent(rows: seq<Row>) {
    Exclusive(rows) && ActiveMeansHeld(rows)
  }

  function Release(r: Row): Row {
    if r.released then r else r.(state := Released, released := true)
  }

  /** The rows after releasing those that satisfy `which`. */
  function ReleaseWhere(rows: seq<Row>, which: Row -> bool): (after: seq<Row>)
    ensures |after| == |rows|
    ensures forall i | 0 <= i < |rows| :: after[i] == if which(rows[i]) then Release(rows[i]) else rows[i]
  {
    seq(|rows|, i requires 0 <= i < |rows| => if which(rows[i]) then Release(rows[i]) else rows[i])
  }

  function OfService(project: string, service: string): Row -> bool {
    (r: Row) => r.project == project && r.service == service
  }

  function OfProject(project: string): Row -> bool {
    (r: Row) => r.project == project
  }

  function AnyRow(): Row -> bool {
    (r: Row) => true
  }

  lemma ReleaseKeepsConsistent(rows: seq<Row>, which: Row -> bool)
    requires Consistent(rows)
    ensures Consistent(ReleaseWhere(rows, which))
    ensures ActiveIds(ReleaseWhere(rows, which)) == set i <- ActiveIds(rows) | !which(rows[i])
  {
  }

  function WithState(rows: seq<Row>, id: nat, state: PortState): seq<Row> {
    if id < |rows| then rows[id := rows[id].(state := state)] else rows
  }

  /** The index rejects making row `id` active beside another row of its port. */
  predicate StateRejected(rows: seq<Row>, id: nat, state: PortState) {
    id < |rows| && state in {Reserved, Bound, Unverified}
    && exists j :: 0 <= j < |rows| && j != id && Active(rows[j]) && rows[j].port == rows[id].port
  }

  // --------------------------------------------------------------------- histories

  /** The writes that DevMan makes to the table. */
  datatype Write =
    | Insert(row: Row)
    | Update(id: nat, state: PortState)
    | ReleaseOne(id: nat)
    | ReleaseMany(which: Row -> bool)

  function Apply(rows: seq<Row>, w: Write): seq<Row> {
    match w
    case Insert(row) => if Allocated(rows, row.port) then rows else rows + [row.(state := Reserved, released := false)]
    case Update(id, state) => if StateRejected(rows, id, state) then rows else WithState(rows, id, state)
    case ReleaseOne(id) => if id < |rows| then rows[id := Release(rows[id])] else rows
    case ReleaseMany(which) => ReleaseWhere(rows, which)
  }

  /** The table after a history of writes to an empty table. */
  function After(writes: seq<Write>): seq<Row> {
    if writes == [] then [] else Apply(After(writes[..|writes| - 1]), writes[|writes| - 1])
  }

  /** An update that gives a released row an active state, or takes it from one that is
      not released. */
  predicate Misplaced(rows: seq<Row>, w: Write) {
    && w.Update? && w.id < |rows| && !StateRejected(rows, w.id, w.state)
    && (w.state in {Reserved, Bound, Unverified} <==> rows[w.id].released)
  }

  lemma WriteKeepsExclusive(rows: seq<Row>, w: Write)
    requires Exclusive(rows)
    ensures Exclusive(Apply(rows, w))
  {
  }

  lemma WriteKeepsHeldExactly(rows: seq<Row>, w: Write)
    requires ActiveMeansHeld(rows)
    ensures ActiveMeansHeld(Apply(rows, w)) <==> !Misplaced(rows, w)
  {
    if Misplaced(rows, w) {
      var row := Apply(rows, w)[w.id];
      assert Active(row) <==> row.released;
    }
  }

  /** Whatever is written, two active rows never share a port. */
  lemma {:induction false} AlwaysExclusive(writes: seq<Write>)
    ensures Exclusive(After(writes))
  {
    if writes != [] {
      AlwaysExclusive(writes[..|writes| - 1]);
      WriteKeepsExclusive(After(writes[..|writes| - 1]), writes[|writes| - 1]);
    }
  }

  /** Active means not released all along a history exactly when no update in it is
      misplaced. */
  lemma {:induction false} AlwaysHeldExactly(writes: seq<Write>)
    ensures (forall k | 0 <= k <= |writes| :: ActiveMeansHeld(After(writes[..k])))
       <==> forall k | 0 <= k < |writes| :: !Misplaced(After(writes[..k]), writes[k])
  {
    AfterNothing();
    hide ActiveMeansHeld, Misplaced, Apply, After;
    if writes != [] {
      var n := |writes| - 1;
      var front := writes[..n];
      AlwaysHeldExactly(front);
      AfterOneMore(writes);
      assert writes[..|writes|] == writes;
      assert forall k | 0 <= k <= n :: front[..k] == writes[..k];
      if ActiveMeansHeld(After(front)) {
        WriteKeepsHeldExactly(After(front), writes[n]);
      }
    }
  }

  lemma AfterNothing()
    ensures After([]) == [] && ActiveMeansHeld(After([]))
  {
  }

  lemma AfterOneMore(writes: seq<Write>)
    requires writes != []
    ensures After(writes) == Apply(After(writes[..|writes| - 1]), writes[|writes| - 1])
  {
  }

  /** The table.  A row's identifier is its position. */
  class PortStore {
    var rows: seq<Row>

    constructor ()
      ensures rows == [] && Consistent(rows)
    {
      rows := [];
    }

    /** An insert that the index rejects when the port is allocated. */
    method ReservePort(port: int, project: string, service: string, name: string, env: string)
      returns (r: Result<nat, Code>)
      modifies this
      ensures r == if Allocated(old(rows), port) then Err(PortConflict) else Ok(|old(rows)|)
      ensures rows == if r.Err? then old(rows)
                      else old(rows) + [Row(port, project, service, name, env, Reserved, false)]
      ensures rows == Apply(old(rows), Insert(Row(port, project, service, name, env, Reserved, false)))
    {
      if Allocated(rows, port) {
        return Err(PortConflict);
      }
      rows := rows + [Row(port, project, service, name, env, Reserved, false)];
      r := Ok(|rows| - 1);
    }

    /** The update does not look at released_at.  The index may reject it. */
    method SetPortState(id: nat, state: PortState) returns (r: Result<(), Code>)
      modifies this
      ensures r.Err? <==> StateRejected(old(rows), id, state)
      ensures r.Err? <==>
                && id < |old(rows)| && state != Released && state != Conflicting
                && exists j ::
                     && 0 <= j < |old(rows)| && j != id && old(rows)[j].port == old(rows)[id].port
                     && old(rows)[j].state != Released && old(rows)[j].state != Conflicting
      ensures rows == if r.Ok? && id < |old(rows)| then old(rows)[id := old(rows)[id].(state := state)] else old(rows)
      ensures rows == Apply(old(rows), Update(id, state))
    {
      if StateRejected(rows, id, state) {
        return Err(Internal);
      }
      rows := WithState(rows, id, state);
      r := Ok(());
    }

    method ReleasePort(id: nat)
      modifies this
      ensures rows == Apply(old(rows), ReleaseOne(id))
      ensures |rows| == |old(rows)|
      ensures forall i | 0 <= i < |rows| ::
                rows[i] == if i == id && !old(rows)[i].released then old(rows)[i].(state := Released, released := true)
                           else old(rows)[i]
    {
      if id < |rows| && !rows[id].released {
        rows := rows[id := rows[id].(state := Released, released := true)];
      }
    }

    method ReleaseServicePorts(project: string, service: string)
      modifies this
      ensures rows == Apply(old(rows), ReleaseMany(OfService(project, service)))
      ensures |rows| == |old(rows)|
      ensures forall i | 0 <= i < |rows| ::
                rows[i] == if old(rows)[i].project == project && old(rows)[i].service == service && !old(rows)[i].released
                           then old(rows)[i].(state := Released, released := true) else old(rows)[i]
    {
      rows := ReleaseWhere(rows, OfService(project, service));
    }

    method ReleaseProjectPorts(project: string)
      modifies this
      ensures rows == Apply(old(rows), ReleaseMany(OfProject(project)))
      ensures |rows| == |old(rows)|
      ensures forall i | 0 <= i < |rows| ::
                rows[i] == if old(rows)[i].project == project && !old(rows)[i].released
                           then old(rows)[i].(state := Released, released := true) else old(rows)[i]
    {
      rows := ReleaseWhere(rows, OfProject(project));
    }

    method ReleaseAllPorts()
      modifies this
      ensures rows == Apply(old(rows), ReleaseMany(AnyRow()))
      ensures |rows| == |old(rows)|
      ensures forall i | 0 <= i < |rows| ::
                rows[i] == if !old(rows)[i].released
                           then old(rows)[i].(state := Released, released := true) else old(rows)[i]
    {
      rows := ReleaseWhere(rows, AnyRow());
    }

    /** The identifiers of the active rows of one service. */
    method ServicePorts(project: string, service: string) returns (ids: seq<nat>)
      ensures forall i: nat :: i in ids <==> i in ActiveIds(rows) && rows[i].project == project && rows[i].service == service
      ensures forall a, b | 0 <= a < b < |ids| :: ids[a] < ids[b]
    {
      ids := [];
      for i := 0 to |rows|
        invariant forall k: nat :: k in ids <==> k < i && k in ActiveIds(rows) && rows[k].project == project && rows[k].service == service
        invariant forall a, b | 0 <= a < b < |ids| :: ids[a] < ids[b]
      {
        if Active(rows[i]) && rows[i].project == project && rows[i].service == service {
          assert forall a | 0 <= a < |ids| :: ids[a] in ids;
          ids := ids + [i];
        }
      }
    }
  }

  /** Moving a row to a state that holds its port keeps the table consistent exactly
      when the row has not been released in the meantime. */
  lemma SetPortStateExactly(rows: seq<Row>, id: nat, state: PortState)
    requires Consistent(rows) && id < |rows| && state in {Reserved, Bound, Unverified}
    requires !StateRejected(rows, id, state)
    ensures Consistent(WithState(rows, id, state)) <==> !rows[id].released
  {
  }

  /** The index never rejects a state change of a row that holds its port. */
  lemma HeldRowIsNeverRejected(rows: seq<Row>, id: nat, state: PortState)
    requires Consistent(rows) && id < |rows| && !rows[id].released
    ensures !StateRejected(rows, id, state)
  {
  }
}
