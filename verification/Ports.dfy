/** ADB ports: a new Cuttlefish instance gets one more than the largest port in the table. Desktop
    and physical devices sit in the same table with port 0. */
module Ports {
  import opened Text

  type Id = nat

  datatype Row = Cuttlefish(port: int) | Registered(port: int)

  type Rows = map<Id, Row>

  const BASE := 6520

  /** The largest port in a table that has rows. */
  ghost predicate IsMax(rows: Rows, m: int) {
    (exists id :: id in rows && rows[id].port == m) && forall id :: id in rows ==> rows[id].port <= m
  }

  /** What the allocation query yields. */
  ghost predicate Allocates(rows: Rows, port: int) {
    if rows == map[] then port == BASE else IsMax(rows, port - 1)
  }

  datatype Action = Create(id: Id, port: int) | Register(id: Id) | Delete(id: Id)

  ghost predicate Enabled(rows: Rows, a: Action) {
    match a
    case Create(id, port) => id !in rows && Allocates(rows, port)
    case Register(id) => id !in rows
    case Delete(id) => true
  }

  function Apply(rows: Rows, a: Action): Rows {
    match a
    case Create(id, port) => rows[id := Cuttlefish(port)]
    case Register(id) => rows[id := Registered(0)]
    case Delete(id) => rows - {id}
  }

  ghost predicate IsRun(rows: Rows, run: seq<Action>)
    decreases |run|
  {
    run == [] || (Enabled(rows, run[0]) && IsRun(Apply(rows, run[0]), run[1..]))
  }

  function After(rows: Rows, run: seq<Action>): Rows
    decreases |run|
  {
    if run == [] then rows else After(Apply(rows, run[0]), run[1..])
  }

  // ---- The allocation ----

  class InstanceTable {
    var rows: Rows

    /** `SELECT MAX(adb_port)` and one more, in the transaction that inserts the row. `order` is the
        order in which the rows are read. */
    method CreateInstance(id: Id, order: seq<Id>) returns (port: int)
      requires id !in rows && forall i :: i in order <==> i in rows
      modifies this
      ensures Enabled(old(rows), Create(id, port)) && rows == Apply(old(rows), Create(id, port))
      ensures rows == old(rows)[id := Cuttlefish(port)] && (old(rows) == map[] ==> port == 6520)
      ensures old(rows) != map[] ==>
                (exists i :: i in old(rows) && old(rows)[i].port == port - 1) && forall i :: i in old(rows) ==> old(rows)[i].port < port
    {
      port := BASE;
      if |order| > 0 {
        var m := rows[order[0]].port;
        for k := 1 to |order|
          invariant exists j :: 0 <= j < k && rows[order[j]].port == m
          invariant forall j :: 0 <= j < k ==> rows[order[j]].port <= m
          invariant rows == old(rows)
        {
          if rows[order[k]].port > m {
            m := rows[order[k]].port;
          }
        }
        assert IsMax(rows, m) by {
          var j :| 0 <= j < |order| && rows[order[j]].port == m;
          assert order[j] in rows;
        }
        port := m + 1;
      } else {
        assert forall i :: i !in rows;
      }
      rows := rows[id := Cuttlefish(port)];
    }
  }

  /** Other rows come without a port, and a deleted row takes nothing with it: an id is free again. */
  lemma RegisterAndDelete(rows: Rows, id: Id)
    ensures Enabled(rows, Register(id)) <==> id !in rows
    ensures id !in rows ==> Apply(rows, Register(id)) == rows[id := Registered(0)]
    ensures Enabled(rows, Delete(id)) && id !in Apply(rows, Delete(id))
    ensures forall i :: i in rows && i != id ==> i in Apply(rows, Delete(id)) && Apply(rows, Delete(id))[i] == rows[i]
    ensures forall port :: Enabled(rows, Create(id, port)) ==> id !in rows
  {
  }

  // ---- Ports are distinct ----

  predicate RowOk(row: Row) {
    if row.Cuttlefish? then row.port > 0 else row.port == 0
  }

  ghost predicate Distinct(rows: Rows) {
    && (forall id :: id in rows ==> RowOk(rows[id]))
    && forall a, b :: a in rows && b in rows && a != b && rows[a].port == rows[b].port ==> rows[a].port == 0
  }

  lemma StepKeepsDistinct(rows: Rows, a: Action)
    requires Distinct(rows) && Enabled(rows, a)
    ensures Distinct(Apply(rows, a))
  {
  }

  lemma {:induction false} DistinctAlways(rows: Rows, run: seq<Action>)
    requires Distinct(rows) && IsRun(rows, run)
    ensures Distinct(After(rows, run))
    decreases |run|
  {
    if run != [] {
      StepKeepsDistinct(rows, run[0]);
      DistinctAlways(Apply(rows, run[0]), run[1..]);
    }
  }

  function InstanceNumber(row: Row): int {
    row.port - BASE + 1
  }

  function GroupName(n: int): string {
    "cvd_" + Decimal(n)
  }

  /** Instance numbers count from one at port 6520. */
  lemma FirstGroup(row: Row)
    ensures row.port == 6520 ==> GroupName(InstanceNumber(row)) == "cvd_1"
    ensures InstanceNumber(row) == row.port - 6519
  {
    assert Decimal(1) == "1";
  }

  lemma GroupNameInjective(m: int, n: int)
    requires GroupName(m) == GroupName(n)
    ensures m == n
  {
    assert GroupName(m)[4..] == Decimal(m) && GroupName(n)[4..] == Decimal(n);
    DecimalInjective(m, n);
  }

  /** After any sequence of creates, registrations and deletes, two different Cuttlefish instances
      have different ports, numbers and group names, so clearing the group of one never names the
      other's; every port that is not zero is a Cuttlefish instance's. */
  lemma {:induction false} GroupsAreOwn(run: seq<Action>, a: Id, b: Id)
    requires IsRun(map[], run)
    requires var rows := After(map[], run); a in rows && b in rows && rows[a].Cuttlefish?
    ensures var rows := After(map[], run);
            && (a != b ==> rows[a].port != rows[b].port)
            && (GroupName(InstanceNumber(rows[a])) == GroupName(InstanceNumber(rows[b])) <==> a == b)
            && (rows[b].port != 0 <==> rows[b].Cuttlefish?)
  {
    DistinctAlways(map[], run);
    var rows := After(map[], run);
    assert RowOk(rows[a]) && RowOk(rows[b]);
    if GroupName(InstanceNumber(rows[a])) == GroupName(InstanceNumber(rows[b])) {
      GroupNameInjective(InstanceNumber(rows[a]), InstanceNumber(rows[b]));
    }
  }

  // ---- Ports from 6520 up ----

  ghost predicate HasCuttlefish(rows: Rows) {
    exists id :: id in rows && rows[id].Cuttlefish?
  }

  /** The allocation sees an empty table or a Cuttlefish row. */
  ghost predicate GoodSight(rows: Rows, a: Action) {
    a.Create? ==> rows == map[] || HasCuttlefish(rows)
  }

  ghost predicate AllGoodSight(rows: Rows, run: seq<Action>)
    decreases |run|
  {
    run == [] || (GoodSight(rows, run[0]) && AllGoodSight(Apply(rows, run[0]), run[1..]))
  }

  predicate AllHigh(run: seq<Action>) {
    forall i :: 0 <= i < |run| && run[i].Create? ==> run[i].port >= 6520
  }

  ghost predicate High(rows: Rows) {
    forall id :: id in rows && rows[id].Cuttlefish? ==> rows[id].port >= 6520
  }

  lemma HighIffGoodSight(rows: Rows, a: Action)
    requires Distinct(rows) && High(rows) && Enabled(rows, a) && a.Create?
    ensures a.port >= 6520 <==> GoodSight(rows, a)
  {
  }

  lemma AllHighNext(run: seq<Action>)
    requires run != []
    ensures AllHigh(run) <==> (run[0].Create? ==> run[0].port >= 6520) && AllHigh(run[1..])
  {
  }

  lemma {:induction false} HighIffGoodSightFrom(rows: Rows, run: seq<Action>)
    requires Distinct(rows) && High(rows) && IsRun(rows, run)
    ensures AllHigh(run) <==> AllGoodSight(rows, run)
    decreases |run|
  {
    if run != [] {
      AllHighNext(run);
      StepKeepsDistinct(rows, run[0]);
      if run[0].Create? {
        HighIffGoodSight(rows, run[0]);
      }
      if GoodSight(rows, run[0]) {
        assert High(Apply(rows, run[0]));
        HighIffGoodSightFrom(Apply(rows, run[0]), run[1..]);
      }
    }
  }

  /** All ports a run hands out are 6520 or above exactly when every allocation of the run sees an
      empty table or a Cuttlefish row. */
  lemma {:induction false} PortsHighIff(run: seq<Action>)
    requires IsRun(map[], run)
    ensures AllHigh(run) <==> AllGoodSight(map[], run)
  {
    HighIffGoodSightFrom(map[], run);
  }

  /** The first Cuttlefish instance after a desktop gets port 1. */
  lemma {:induction false} DesktopFirst(run: seq<Action>)
    requires run == [Register(0), Create(1, 1)]
    ensures IsRun(map[], run) && !AllHigh(run)
  {
    var none: Rows := map[];
    var rows := Apply(none, Register(0));
    assert rows[0].port == 0;
    assert IsMax(rows, 0);
    assert run[1..] == [Create(1, 1)] && run[1..][1..] == [];
    assert IsRun(rows, run[1..]);
    assert run[1].port < 6520;
  }
}
