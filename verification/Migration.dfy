/** The schema migration that runs at every start. A database is a map of tables; statements and
    transactions are atomic. A crash can fall between any two of them, and the next start runs the
    whole migration again. */
module Migration {

  /** The tables the migration names. */
  datatype TableName =
    | SchemaMigrations | Images | Instances | Operations | Users | Sessions | AuditEvents | Settings
    | IdentityProviders | ExternalIdentities | GroupRoleMappings | Tests | TestRuns | TestRunsNew
    | TestCases | TestCycles | CycleRuns | Builds | CaseFolders | OtherTable(name: string)

  type Column = string
  type Value = string
  type Row = map<Column, Value>

  /** `foreignKey`: the table's definition mentions a foreign key. Rows are keyed by primary key. */
  datatype Table = Table(columns: seq<Column>, foreignKey: bool, rows: map<string, Row>)

  /** `versions` is the content of `schema_migrations`: version to time applied. */
  datatype Db = Db(tables: map<TableName, Table>, indexes: map<string, TableName>, versions: map<nat, Value>)

  /** `ok` is false when the statement failed and the migration returned its error. */
  datatype Outcome = Outcome(db: Db, ok: bool)

  datatype Statement =
    | CreateTable(table: TableName, columns: seq<Column>, foreignKey: bool)
    | CreateIndex(index: string, on: TableName, keys: seq<Column>)
    | EnsureColumn(table: TableName, column: Column, default: Value)
    | RebuildTestRuns
    | BackfillSource
    | RecordVersion(version: nat, at: Value)

  const PLATFORM: Column := "platform"
  const SOURCE: Column := "source"
  const ANDROID: Value := "android"
  const RUNNER: Value := "runner"
  const CUTTLEFISH: Value := "cuttlefish"
  const STARTED_AT: Column := "started_at"
  const IDX_TEST_RUNS := "idx_test_runs_started_at"

  /** The columns the rebuilt `test_runs` has and copies. */
  const COPIED: seq<Column> :=
    ["id", "test_id", "instance_id", "status", "passed", "steps", "video", "error", STARTED_AT, "finished_at",
     "cycle_run_id", "case_id"]

  function Cell(row: Row, c: Column): Value {
    if c in row then row[c] else ""
  }

  // ---- What each statement does ----

  function WithColumn(t: Table, c: Column, default: Value): Table {
    t.(columns := t.columns + [c], rows := map id | id in t.rows :: t.rows[id][c := default])
  }

  function Project(row: Row): Row {
    map c | c in COPIED :: Cell(row, c)
  }

  function Copied(t: Table): Table {
    Table(COPIED, false, map id | id in t.rows :: Project(t.rows[id]))
  }

  predicate HasColumns(t: Table, columns: seq<Column>) {
    forall c :: c in columns ==> c in t.columns
  }

  predicate CanCopy(t: Table) {
    HasColumns(t, COPIED)
  }

  function WithIndex(indexes: map<string, TableName>, index: string, on: TableName): map<string, TableName> {
    if index in indexes then indexes else indexes[index := on]
  }

  function WithoutIndexesOn(indexes: map<string, TableName>, on: TableName): map<string, TableName> {
    map i | i in indexes && indexes[i] != on :: indexes[i]
  }

  function Rebuilt(db: Db): Outcome {
    if TestRuns !in db.tables || !db.tables[TestRuns].foreignKey then Outcome(db, true)
    else if TestRunsNew in db.tables || !CanCopy(db.tables[TestRuns]) then Outcome(db, false)
    else
      Outcome(db.(tables := db.tables[TestRuns := Copied(db.tables[TestRuns])],
                  indexes := WithIndex(WithoutIndexesOn(db.indexes, TestRuns), IDX_TEST_RUNS, TestRuns)), true)
  }

  predicate IsDesktop(platform: Value) {
    platform != "" && platform != ANDROID
  }

  /** How a device without a source is classified. */
  function Classified(row: Row): Row {
    if Cell(row, SOURCE) != "" then row
    else row[SOURCE := if IsDesktop(Cell(row, PLATFORM)) then RUNNER else CUTTLEFISH]
  }

  function AllClassified(t: Table): Table {
    t.(rows := map id | id in t.rows :: Classified(t.rows[id]))
  }

  predicate CanClassify(db: Db) {
    Instances in db.tables && SOURCE in db.tables[Instances].columns && PLATFORM in db.tables[Instances].columns
  }

  function Backfilled(db: Db): Outcome {
    if SchemaMigrations !in db.tables then Outcome(db, false)
    else if 5 in db.versions then Outcome(db, true)
    else if !CanClassify(db) then Outcome(db, false)
    else Outcome(db.(tables := db.tables[Instances := AllClassified(db.tables[Instances])]), true)
  }

  function Exec(db: Db, st: Statement): Outcome {
    match st
    case CreateTable(t, columns, fk) =>
      Outcome(if t in db.tables then db else db.(tables := db.tables[t := Table(columns, fk, map[])]), true)
    case CreateIndex(i, on, keys) =>
      if on !in db.tables || (i !in db.indexes && !HasColumns(db.tables[on], keys)) then Outcome(db, false)
      else Outcome(db.(indexes := WithIndex(db.indexes, i, on)), true)
    case EnsureColumn(t, c, default) =>
      if t !in db.tables then Outcome(db, false)
      else if c in db.tables[t].columns then Outcome(db, true)
      else Outcome(db.(tables := db.tables[t := WithColumn(db.tables[t], c, default)]), true)
    case RebuildTestRuns => Rebuilt(db)
    case BackfillSource => Backfilled(db)
    case RecordVersion(v, at) =>
      if SchemaMigrations !in db.tables then Outcome(db, false)
      else Outcome(if v in db.versions then db else db.(versions := db.versions[v := at]), true)
  }

  /** The migration stops at the first statement that fails. */
  function Run(db: Db, prog: seq<Statement>): Outcome
    decreases |prog|
  {
    if prog == [] then Outcome(db, true)
    else
      var first := Exec(db, prog[0]);
      if first.ok then Run(first.db, prog[1..]) else first
  }

  // ---- The code that executes them ----

  /** One statement of the rebuild's transaction. */
  datatype Ddl =
    | CreateNew
    | CopyRows
    | DropOld
    | Rename
    | Reindex

  function ExecDdl(db: Db, d: Ddl): Outcome {
    match d
    case CreateNew =>
      if TestRunsNew in db.tables then Outcome(db, false)
      else Outcome(db.(tables := db.tables[TestRunsNew := Table(COPIED, false, map[])]), true)
    case CopyRows =>
      if TestRunsNew !in db.tables || TestRuns !in db.tables || !CanCopy(db.tables[TestRuns]) then Outcome(db, false)
      else
        var old_, new_ := db.tables[TestRuns], db.tables[TestRunsNew];
        Outcome(db.(tables := db.tables[TestRunsNew := new_.(rows := Copied(old_).rows)]), true)
    case DropOld =>
      if TestRuns !in db.tables then Outcome(db, false)
      else Outcome(db.(tables := db.tables - {TestRuns}, indexes := WithoutIndexesOn(db.indexes, TestRuns)), true)
    case Rename =>
      if TestRunsNew !in db.tables || TestRuns in db.tables then Outcome(db, false)
      else
        Outcome(db.(tables := (db.tables - {TestRunsNew})[TestRuns := db.tables[TestRunsNew]],
                    indexes := map i | i in db.indexes :: if db.indexes[i] == TestRunsNew then TestRuns else db.indexes[i]), true)
    case Reindex =>
      if TestRuns !in db.tables then Outcome(db, false)
      else if IDX_TEST_RUNS !in db.indexes && STARTED_AT !in db.tables[TestRuns].columns then Outcome(db, false)
      else Outcome(db.(indexes := WithIndex(db.indexes, IDX_TEST_RUNS, TestRuns)), true)
  }

  /** When each of the statements succeeds; one that fails changes nothing, and a rename takes the indexes of
      the table along. */
  lemma {:induction false} DdlSucceedsIff(db: Db)
    ensures ExecDdl(db, CreateNew).ok <==> TestRunsNew !in db.tables
    ensures ExecDdl(db, CopyRows).ok <==> TestRunsNew in db.tables && TestRuns in db.tables && HasColumns(db.tables[TestRuns], COPIED)
    ensures ExecDdl(db, DropOld).ok <==> TestRuns in db.tables
    ensures ExecDdl(db, Rename).ok <==> TestRunsNew in db.tables && TestRuns !in db.tables
    ensures ExecDdl(db, Reindex).ok <==>
            TestRuns in db.tables && ("idx_test_runs_started_at" in db.indexes || "started_at" in db.tables[TestRuns].columns)
    ensures forall d :: !ExecDdl(db, d).ok ==> ExecDdl(db, d).db == db
    ensures ExecDdl(db, Rename).ok ==>
              && ExecDdl(db, Rename).db.indexes.Keys == db.indexes.Keys
              && forall i :: i in db.indexes ==>
                   ExecDdl(db, Rename).db.indexes[i] == if db.indexes[i] == TestRunsNew then TestRuns else db.indexes[i]
  {
  }

  const REBUILD := [CreateNew, CopyRows, DropOld, Rename, Reindex]

  function UpdateWhere(t: Table, filter: Row -> bool, source: Value): Table {
    t.(rows := map id | id in t.rows :: UpdatedRow(t.rows[id], filter(t.rows[id]), source))
  }

  predicate Unclassified(row: Row) {
    Cell(row, SOURCE) == ""
  }

  predicate UnclassifiedDesktop(row: Row) {
    Cell(row, SOURCE) == "" && IsDesktop(Cell(row, PLATFORM))
  }

  function UpdatedRow(row: Row, hit: bool, source: Value): Row {
    if hit then row[SOURCE := source] else row
  }

  /** The two updates in sequence classify every row once. */
  lemma TwoUpdates(t: Table)
    ensures UpdateWhere(UpdateWhere(t, UnclassifiedDesktop, RUNNER), Unclassified, CUTTLEFISH) == AllClassified(t)
  {
  }

  /** Indexes belong to tables that exist. */
  predicate IndexesHaveTables(db: Db) {
    forall i :: i in db.indexes ==> db.indexes[i] in db.tables
  }

  function RunDdl(db: Db, ds: seq<Ddl>): Outcome
    decreases |ds|
  {
    if ds == [] then Outcome(db, true)
    else
      var first := ExecDdl(db, ds[0]);
      if first.ok then RunDdl(first.db, ds[1..]) else first
  }

  /** The five statements together rebuild the table. */
  lemma {:induction false} RebuildTransaction(db: Db)
    requires TestRuns in db.tables && db.tables[TestRuns].foreignKey && IndexesHaveTables(db)
    ensures var end := RunDdl(db, REBUILD);
            end.ok == Rebuilt(db).ok && (end.ok ==> end.db == Rebuilt(db).db)
  {
    if TestRunsNew !in db.tables && CanCopy(db.tables[TestRuns]) {
      RebuildSucceeds(db);
    } else if TestRunsNew !in db.tables {
      var a := ExecDdl(db, CreateNew).db;
      assert REBUILD[1..][0] == CopyRows;
      assert !ExecDdl(a, CopyRows).ok;
    }
  }

  lemma {:induction false} RebuildSucceeds(db: Db)
    requires TestRuns in db.tables && TestRunsNew !in db.tables && CanCopy(db.tables[TestRuns]) && IndexesHaveTables(db)
    ensures RunDdl(db, REBUILD) ==
            Outcome(db.(tables := db.tables[TestRuns := Copied(db.tables[TestRuns])],
                        indexes := WithIndex(WithoutIndexesOn(db.indexes, TestRuns), IDX_TEST_RUNS, TestRuns)), true)
  {
    var copied := Copied(db.tables[TestRuns]);
    var a := ExecDdl(db, CreateNew).db;
    var b := ExecDdl(a, CopyRows).db;
    assert b.tables == db.tables[TestRunsNew := copied];
    var c := ExecDdl(b, DropOld).db;
    var d := ExecDdl(c, Rename).db;
    assert d.tables == db.tables[TestRuns := copied];
    assert d.indexes == WithoutIndexesOn(db.indexes, TestRuns);
    assert STARTED_AT == COPIED[8];
    RunInOrder(db, a, b, c, d, ExecDdl(d, Reindex).db);
  }

  lemma {:induction false} RunInOrder(db: Db, a: Db, b: Db, c: Db, d: Db, e: Db)
    requires ExecDdl(db, CreateNew) == Outcome(a, true) && ExecDdl(a, CopyRows) == Outcome(b, true)
    requires ExecDdl(b, DropOld) == Outcome(c, true) && ExecDdl(c, Rename) == Outcome(d, true)
    requires ExecDdl(d, Reindex) == Outcome(e, true)
    ensures RunDdl(db, REBUILD) == Outcome(e, true)
  {
  }

  lemma ExecKeepsIndexes(db: Db, st: Statement)
    requires IndexesHaveTables(db)
    ensures IndexesHaveTables(Exec(db, st).db)
  {
  }

  /** The store while it migrates. */
  class Store {
    var db: Db

    /** Look for the column in the table's column list; add it when it is missing. */
    method AddMissingColumn(table: TableName, column: Column, default: Value) returns (ok: bool)
      modifies this
      ensures Outcome(db, ok) == Exec(old(db), EnsureColumn(table, column, default))
    {
      var columns := if table in db.tables then db.tables[table].columns else [];
      var found := false;
      for i := 0 to |columns|
        invariant found <==> column in columns[..i]
        invariant db == old(db)
      {
        if columns[i] == column {
          found := true;
        }
      }
      assert columns[..|columns|] == columns;
      if found {
        return true;
      }
      if table !in db.tables {
        return false;
      }
      db := db.(tables := db.tables[table := WithColumn(db.tables[table], column, default)]);
      return true;
    }

    /** Rebuild in one transaction; a failed statement rolls everything back. */
    method RebuildIfForeignKey() returns (ok: bool)
      requires IndexesHaveTables(db)
      modifies this
      ensures Outcome(db, ok) == Rebuilt(old(db))
    {
      if TestRuns !in db.tables || !db.tables[TestRuns].foreignKey {
        return true;
      }
      RebuildTransaction(db);
      var tx := db;
      for k := 0 to |REBUILD|
        invariant RunDdl(tx, REBUILD[k..]) == RunDdl(db, REBUILD)
        invariant db == old(db)
      {
        var next := ExecDdl(tx, REBUILD[k]);
        assert REBUILD[k..][1..] == REBUILD[k + 1..];
        if !next.ok {
          return false;
        }
        tx := next.db;
      }
      assert REBUILD[|REBUILD|..] == [];
      db := tx;
      return true;
    }

    /** Classify the devices once, guarded by the version row. */
    method BackfillInstanceSource() returns (ok: bool)
      modifies this
      ensures Outcome(db, ok) == Backfilled(old(db))
    {
      if SchemaMigrations !in db.tables {
        return false;
      }
      if 5 in db.versions {
        return true;
      }
      if !CanClassify(db) {
        return false;
      }
      TwoUpdates(db.tables[Instances]);
      var tx := UpdateWhere(db.tables[Instances], UnclassifiedDesktop, RUNNER);
      tx := UpdateWhere(tx, Unclassified, CUTTLEFISH);
      db := db.(tables := db.tables[Instances := tx]);
      return true;
    }

    method Execute(st: Statement) returns (ok: bool)
      requires IndexesHaveTables(db)
      modifies this
      ensures Outcome(db, ok) == Exec(old(db), st) && IndexesHaveTables(db)
    {
      ExecKeepsIndexes(db, st);
      match st {
        case EnsureColumn(t, c, default) => ok := AddMissingColumn(t, c, default);
        case RebuildTestRuns => ok := RebuildIfForeignKey();
        case BackfillSource => ok := BackfillInstanceSource();
        case CreateTable(_, _, _) => var done := Exec(db, st); db, ok := done.db, done.ok;
        case CreateIndex(_, _, _) => var done := Exec(db, st); db, ok := done.db, done.ok;
        case RecordVersion(_, _) => var done := Exec(db, st); db, ok := done.db, done.ok;
      }
    }

    /** The whole migration. */
    method Migrate(prog: seq<Statement>) returns (ok: bool)
      requires IndexesHaveTables(db)
      modifies this
      ensures Outcome(db, ok) == Run(old(db), prog) && IndexesHaveTables(db)
    {
      for k := 0 to |prog|
        invariant Run(db, prog[k..]) == Run(old(db), prog) && IndexesHaveTables(db)
      {
        assert prog[k..][1..] == prog[k + 1..];
        ok := Execute(prog[k]);
        if !ok {
          return;
        }
      }
      assert prog[|prog|..] == [];
      return true;
    }
  }

  // ---- When a statement has nothing left to do ----

  predicate AllHaveSource(t: Table) {
    forall id :: id in t.rows ==> Cell(t.rows[id], SOURCE) != ""
  }

  predicate Idle(st: Statement, db: Db) {
    match st
    case CreateTable(t, _, _) => t in db.tables
    case CreateIndex(i, on, _) => on in db.tables && i in db.indexes
    case EnsureColumn(t, c, _) => t in db.tables && c in db.tables[t].columns
    case RebuildTestRuns => TestRuns in db.tables ==> !db.tables[TestRuns].foreignKey
    case BackfillSource =>
      SchemaMigrations in db.tables && (5 in db.versions || (CanClassify(db) && AllHaveSource(db.tables[Instances])))
    case RecordVersion(v, _) => SchemaMigrations in db.tables && v in db.versions
  }

  lemma ClassifiedAgain(t: Table)
    requires AllHaveSource(t)
    ensures AllClassified(t) == t
  {
  }

  lemma IdleDoesNothing(st: Statement, db: Db)
    requires Idle(st, db)
    ensures Exec(db, st) == Outcome(db, true)
  {
    if st.BackfillSource? && 5 !in db.versions {
      ClassifiedAgain(db.tables[Instances]);
      assert db.tables[Instances := db.tables[Instances]] == db.tables;
    }
  }

  lemma IdleAfterwards(st: Statement, db: Db)
    requires Exec(db, st).ok
    ensures Idle(st, Exec(db, st).db)
  {
  }

  /** The order of the migration: definitions, added columns, rebuild, backfill, versions. */
  function Phase(st: Statement): nat {
    match st
    case CreateTable(_, _, _) => 0
    case CreateIndex(_, _, _) => 0
    case EnsureColumn(_, _, _) => 1
    case RebuildTestRuns => 2
    case BackfillSource => 3
    case RecordVersion(_, _) => 4
  }

  /** What a statement must respect so that the rebuild does not undo it: `test_runs` has one index
      and no columns but the copied ones. */
  predicate Fits(st: Statement) {
    && (st.CreateTable? && st.table == TestRuns ==> !st.foreignKey)
    && (st.CreateIndex? ==> (st.on == TestRuns <==> st.index == IDX_TEST_RUNS))
    && (st.EnsureColumn? && st.table == TestRuns ==> st.column in COPIED)
  }

  predicate Planned(prog: seq<Statement>) {
    && (forall i :: 0 <= i < |prog| ==> Fits(prog[i]))
    && (forall i, j :: 0 <= i < j < |prog| ==> Phase(prog[i]) <= Phase(prog[j]))
  }

  /** An index the statement wants elsewhere is not one of `test_runs`. */
  predicate Placed(st: Statement, db: Db) {
    st.CreateIndex? && st.on != TestRuns && st.index in db.indexes ==> db.indexes[st.index] != TestRuns
  }

  predicate AllPlaced(prog: seq<Statement>, db: Db) {
    forall i :: 0 <= i < |prog| ==> Placed(prog[i], db)
  }

  /** There is no table with the old foreign key, so nothing to rebuild. */
  predicate NoForeignKey(db: Db) {
    TestRuns in db.tables ==> !db.tables[TestRuns].foreignKey
  }

  /** What the migration asks of the database it finds. */
  predicate Steady(prog: seq<Statement>, db: Db) {
    AllPlaced(prog, db) || NoForeignKey(db)
  }

  lemma PlacedStays(st: Statement, next: Statement, db: Db)
    requires Placed(st, db) && Fits(st) && Fits(next)
    ensures Placed(st, Exec(db, next).db)
  {
  }

  lemma NoForeignKeyStays(next: Statement, db: Db)
    requires NoForeignKey(db) && Fits(next)
    ensures NoForeignKey(Exec(db, next).db)
  {
  }

  lemma SteadyStays(prog: seq<Statement>, next: Statement, db: Db)
    requires Planned(prog) && Fits(next) && Steady(prog, db)
    ensures Steady(prog, Exec(db, next).db)
  {
    if NoForeignKey(db) {
      NoForeignKeyStays(next, db);
    } else {
      forall i | 0 <= i < |prog| ensures Placed(prog[i], Exec(db, next).db) {
        PlacedStays(prog[i], next, db);
      }
    }
  }

  /** A later statement gives an earlier one nothing to do; only the rebuild can, if an index is
      misplaced. */
  lemma IdleStays(st: Statement, next: Statement, db: Db)
    requires Idle(st, db) && Exec(db, next).ok && Fits(st) && Fits(next) && Phase(st) <= Phase(next)
    requires next.RebuildTestRuns? && st.CreateIndex? ==> Placed(st, db) || NoForeignKey(db)
    ensures Idle(st, Exec(db, next).db)
  {
  }

  /** The first `n` statements have nothing to do. */
  predicate Settled(prog: seq<Statement>, n: nat, db: Db)
    requires n <= |prog|
  {
    forall i :: 0 <= i < n ==> Idle(prog[i], db)
  }

  /** The run over `prog[n..k]` makes no rebuild while an index is misplaced. */
  ghost predicate Harmless(prog: seq<Statement>, n: nat, k: nat, db: Db)
    requires n <= k <= |prog|
    decreases k - n
  {
    n < k && Exec(db, prog[n]).ok ==>
      (prog[n].RebuildTestRuns? ==> Steady(prog, db)) && Harmless(prog, n + 1, k, Exec(db, prog[n]).db)
  }

  lemma {:induction false} SteadyIsHarmless(prog: seq<Statement>, n: nat, k: nat, db: Db)
    requires Planned(prog) && Steady(prog, db) && n <= k <= |prog|
    ensures Harmless(prog, n, k, db) && Steady(prog, Run(db, prog[n..k]).db)
    decreases k - n
  {
    if n < k {
      assert prog[n..k][1..] == prog[n + 1..k];
      SteadyStays(prog, prog[n], db);
      SteadyIsHarmless(prog, n + 1, k, Exec(db, prog[n]).db);
    }
  }

  lemma {:induction false} HarmlessBefore(prog: seq<Statement>, n: nat, k: nat, l: nat, db: Db)
    requires n <= k <= l <= |prog| && Harmless(prog, n, l, db)
    ensures Harmless(prog, n, k, db)
    decreases k - n
  {
    if n < k && Exec(db, prog[n]).ok {
      HarmlessBefore(prog, n + 1, k, l, Exec(db, prog[n]).db);
    }
  }

  lemma SettledNext(prog: seq<Statement>, n: nat, db: Db)
    requires Planned(prog) && n < |prog| && Settled(prog, n, db) && Exec(db, prog[n]).ok
    requires prog[n].RebuildTestRuns? ==> Steady(prog, db)
    ensures Settled(prog, n + 1, Exec(db, prog[n]).db)
  {
    var next := Exec(db, prog[n]).db;
    forall i | 0 <= i < n + 1 ensures Idle(prog[i], next) {
      if i < n {
        IdleStays(prog[i], prog[n], db);
      } else {
        IdleAfterwards(prog[n], db);
      }
    }
  }

  /** Where a run over `prog[n..k]` stops: everything before `m` is settled, and `m` is `k` or the
      statement that failed. */
  lemma {:induction false} RunSettles(prog: seq<Statement>, n: nat, k: nat, db: Db) returns (m: nat)
    requires Planned(prog) && n <= k <= |prog| && Harmless(prog, n, k, db) && Settled(prog, n, db)
    ensures var end := Run(db, prog[n..k]);
            && n <= m <= k && Settled(prog, m, end.db)
            && (end.ok ==> m == k)
            && (!end.ok ==> m < k && Exec(end.db, prog[m]) == end)
    decreases k - n
  {
    if n == k {
      return n;
    }
    var first := Exec(db, prog[n]);
    assert prog[n..k][1..] == prog[n + 1..k];
    if first.ok {
      SettledNext(prog, n, db);
      m := RunSettles(prog, n + 1, k, first.db);
    } else {
      FailureKeeps(prog[n], db);
      return n;
    }
  }

  lemma FailureKeeps(st: Statement, db: Db)
    requires !Exec(db, st).ok
    ensures Exec(db, st).db == db
  {
  }

  lemma {:induction false} SettledIsSkipped(prog: seq<Statement>, n: nat, m: nat, db: Db)
    requires n <= m <= |prog| && Settled(prog, m, db)
    ensures Run(db, prog[n..]) == Run(db, prog[m..])
    decreases m - n
  {
    if n < m {
      IdleDoesNothing(prog[n], db);
      assert prog[n..][1..] == prog[n + 1..];
      SettledIsSkipped(prog, n + 1, m, db);
    }
  }

  lemma {:induction false} RunConcat(db: Db, a: seq<Statement>, b: seq<Statement>)
    ensures Run(db, a + b) == if Run(db, a).ok then Run(Run(db, a).db, b) else Run(db, a)
    decreases |a|
  {
    if a == [] {
      assert a + b == b;
    } else {
      assert (a + b)[1..] == a[1..] + b;
      var first := Exec(db, a[0]);
      if first.ok {
        RunConcat(first.db, a[1..], b);
      }
    }
  }

  /** Stop anywhere and start again: the whole migration then ends where it would have ended
      without the stop, in the same database and with the same success or failure. */
  lemma {:induction false} RestartConverges(prog: seq<Statement>, db: Db, k: nat)
    requires Planned(prog) && Steady(prog, db) && k <= |prog|
    ensures Run(Run(db, prog[..k]).db, prog) == Run(db, prog)
    ensures Steady(prog, Run(db, prog[..k]).db)
  {
    assert prog[0..k] == prog[..k];
    SteadyIsHarmless(prog, 0, k, db);
    HarmlessConverges(prog, db, k);
  }

  lemma {:induction false} HarmlessConverges(prog: seq<Statement>, db: Db, k: nat)
    requires Planned(prog) && k <= |prog| && Harmless(prog, 0, k, db)
    ensures Run(Run(db, prog[..k]).db, prog) == Run(db, prog)
  {
    assert prog[0..k] == prog[..k];
    var m := RunSettles(prog, 0, k, db);
    var stop := Run(db, prog[..k]);
    assert prog == prog[..k] + prog[k..] && prog[0..] == prog;
    RunConcat(db, prog[..k], prog[k..]);
    SettledIsSkipped(prog, 0, m, stop.db);
  }

  /** The database after a series of starts that were each cut short. */
  function CutShort(prog: seq<Statement>, db: Db, stops: seq<nat>): Db
    requires forall i :: 0 <= i < |stops| ==> stops[i] <= |prog|
    decreases |stops|
  {
    if stops == [] then db else CutShort(prog, Run(db, prog[..stops[0]]).db, stops[1..])
  }

  /** Any number of crashes, each at any point. */
  lemma {:induction false} CrashesConverge(prog: seq<Statement>, db: Db, stops: seq<nat>)
    requires Planned(prog) && Steady(prog, db) && forall i :: 0 <= i < |stops| ==> stops[i] <= |prog|
    ensures Run(CutShort(prog, db, stops), prog) == Run(db, prog)
    decreases |stops|
  {
    if stops != [] {
      RestartConverges(prog, db, stops[0]);
      CrashesConverge(prog, Run(db, prog[..stops[0]]).db, stops[1..]);
    }
  }

  // ---- A finished migration ----

  /** The same definitions and versions, whatever the rows. */
  predicate SameSchema(a: Db, b: Db) {
    && a.tables.Keys == b.tables.Keys && a.indexes == b.indexes && a.versions.Keys == b.versions.Keys
    && forall t :: t in a.tables ==> a.tables[t].columns == b.tables[t].columns && a.tables[t].foreignKey == b.tables[t].foreignKey
  }

  predicate Records(prog: seq<Statement>, v: nat) {
    exists i :: 0 <= i < |prog| && prog[i].RecordVersion? && prog[i].version == v
  }

  lemma IdleWhateverTheRows(st: Statement, a: Db, b: Db)
    requires Idle(st, a) && SameSchema(a, b) && 5 in a.versions
    ensures Idle(st, b)
  {
  }

  /** After a completed migration the application may change any row; the next start changes nothing
      at all, so a source an operator picked is never stamped over. */
  lemma {:induction false} LaterStartsChangeNothing(prog: seq<Statement>, db: Db, later: Db)
    requires Planned(prog) && Steady(prog, db) && Records(prog, 5)
    requires Run(db, prog).ok && SameSchema(Run(db, prog).db, later)
    ensures Run(later, prog) == Outcome(later, true)
  {
    assert prog[0..|prog|] == prog;
    SteadyIsHarmless(prog, 0, |prog|, db);
    var m := RunSettles(prog, 0, |prog|, db);
    var end := Run(db, prog).db;
    var v :| 0 <= v < |prog| && prog[v].RecordVersion? && prog[v].version == 5;
    assert Idle(prog[v], end);
    forall i | 0 <= i < |prog| ensures Idle(prog[i], later) {
      IdleWhateverTheRows(prog[i], end, later);
    }
    assert prog[0..] == prog && prog[|prog|..] == [];
    SettledIsSkipped(prog, 0, |prog|, later);
  }

  // ---- Rows survive ----

  ghost predicate RowFits(columns: seq<Column>, row: Row) {
    forall c :: c in row <==> c in columns
  }

  ghost predicate TableFits(t: Table) {
    forall id :: id in t.rows ==> RowFits(t.columns, t.rows[id])
  }

  /** Every row has a value for every column of its table and no other. */
  ghost predicate RowsFit(db: Db) {
    forall t :: t in db.tables ==> TableFits(db.tables[t])
  }

  /** The cells of `row` are still in `row'`, except those of columns a rebuild drops; a blank
      source may have been filled in. */
  predicate RowKept(t: TableName, rebuilt: bool, row: Row, row': Row) {
    forall c :: c in row && (t == TestRuns && rebuilt ==> c in COPIED) ==>
      c in row' && (row'[c] == row[c] || (t == Instances && c == SOURCE && row[c] == ""))
  }

  predicate TableKept(t: TableName, a: Table, b: Table) {
    && a.rows.Keys == b.rows.Keys && (b.foreignKey ==> a.foreignKey)
    && forall id :: id in a.rows ==> RowKept(t, a.foreignKey, a.rows[id], b.rows[id])
  }

  predicate Kept(a: Db, b: Db) {
    forall t :: t in a.tables ==> t in b.tables && TableKept(t, a.tables[t], b.tables[t])
  }

  lemma ColumnKept(t: TableName, a: Table, c: Column, default: Value)
    requires TableFits(a) && c !in a.columns
    ensures TableKept(t, a, WithColumn(a, c, default)) && TableFits(WithColumn(a, c, default))
  {
    var b := WithColumn(a, c, default);
    forall id | id in a.rows ensures RowKept(t, a.foreignKey, a.rows[id], b.rows[id]) && RowFits(b.columns, b.rows[id]) {
      assert RowFits(a.columns, a.rows[id]);
    }
  }

  lemma CopyKept(a: Table)
    requires a.foreignKey
    ensures TableKept(TestRuns, a, Copied(a)) && TableFits(Copied(a))
  {
  }

  lemma ClassifiedKept(a: Table)
    requires TableFits(a) && SOURCE in a.columns
    ensures TableKept(Instances, a, AllClassified(a)) && TableFits(AllClassified(a))
  {
  }

  /** Replacing one table by one that keeps its rows. */
  lemma ReplaceKeeps(db: Db, t: TableName, b: Table, indexes: map<string, TableName>)
    requires RowsFit(db) && t in db.tables && TableKept(t, db.tables[t], b) && TableFits(b)
    ensures var db' := db.(tables := db.tables[t := b], indexes := indexes); Kept(db, db') && RowsFit(db')
  {
  }

  lemma KeptSame(db: Db, db': Db)
    requires db'.tables == db.tables
    ensures Kept(db, db')
  {
  }

  lemma NewTableKeeps(db: Db, t: TableName, b: Table)
    requires RowsFit(db) && t !in db.tables && b.rows == map[]
    ensures var db' := db.(tables := db.tables[t := b]); Kept(db, db') && RowsFit(db')
  {
  }

  lemma ExecKeeps(db: Db, st: Statement)
    requires RowsFit(db)
    ensures Kept(db, Exec(db, st).db) && RowsFit(Exec(db, st).db)
  {
    var after := Exec(db, st).db;
    if after.tables == db.tables {
      KeptSame(db, after);
    } else {
      match st {
        case CreateTable(t, columns, fk) => NewTableKeeps(db, t, Table(columns, fk, map[]));
        case EnsureColumn(t, c, default) =>
          ColumnKept(t, db.tables[t], c, default);
          ReplaceKeeps(db, t, WithColumn(db.tables[t], c, default), db.indexes);
        case RebuildTestRuns =>
          CopyKept(db.tables[TestRuns]);
          ReplaceKeeps(db, TestRuns, Copied(db.tables[TestRuns]), after.indexes);
        case BackfillSource =>
          ClassifiedKept(db.tables[Instances]);
          ReplaceKeeps(db, Instances, AllClassified(db.tables[Instances]), db.indexes);
      }
    }
  }

  lemma KeptTrans(a: Db, b: Db, c: Db)
    requires Kept(a, b) && Kept(b, c)
    ensures Kept(a, c)
  {
  }

  /** No run of the migration, complete or cut short, loses or adds a row of any table that was
      there, and no cell changes but a blank source; the rebuild of `test_runs` keeps the twelve
      columns it copies. */
  lemma {:induction false} RowsSurvive(db: Db, prog: seq<Statement>)
    requires RowsFit(db)
    ensures Kept(db, Run(db, prog).db) && RowsFit(Run(db, prog).db)
    decreases |prog|
  {
    if prog == [] {
      KeptSame(db, db);
    } else {
      var first := Exec(db, prog[0]);
      ExecKeeps(db, prog[0]);
      if first.ok {
        RowsSurvive(first.db, prog[1..]);
        KeptTrans(db, first.db, Run(db, prog).db);
      }
    }
  }

  /** The columns that `test_runs` keeps, by name. */
  ghost predicate Keeps(c: Column) {
    c in {"id", "test_id", "instance_id", "status", "passed", "steps", "video", "error", "started_at", "finished_at", "cycle_run_id", "case_id"}
  }

  lemma KeepsCopied(c: Column)
    ensures Keeps(c) <==> c in COPIED
  {
    assert COPIED[0] == "id" && COPIED[1] == "test_id" && COPIED[2] == "instance_id" && COPIED[3] == "status";
    assert COPIED[4] == "passed" && COPIED[5] == "steps" && COPIED[6] == "video" && COPIED[7] == "error";
    assert COPIED[8] == "started_at" && COPIED[9] == "finished_at" && COPIED[10] == "cycle_run_id" && COPIED[11] == "case_id";
  }

  /** When the rebuild does something, when it fails, and what it leaves: the twelve columns, every row with
      its cells in them, no foreign key, and one index. */
  lemma {:induction false} RebuildInWords(db: Db, c: Column, id: string)
    requires TestRuns in db.tables && db.tables[TestRuns].foreignKey
    ensures !Rebuilt(db).ok ==> Rebuilt(db).db == db && (TestRunsNew in db.tables || exists d :: Keeps(d) && d !in db.tables[TestRuns].columns)
    ensures Rebuilt(db).ok ==>
              && TestRunsNew !in db.tables && (Keeps(c) ==> c in db.tables[TestRuns].columns)
              && var now := Rebuilt(db).db;
                 && TestRuns in now.tables && !now.tables[TestRuns].foreignKey
                 && (c in now.tables[TestRuns].columns <==> Keeps(c))
                 && (id in now.tables[TestRuns].rows <==> id in db.tables[TestRuns].rows)
                 && (id in db.tables[TestRuns].rows && Keeps(c) ==> Cell(now.tables[TestRuns].rows[id], c) == Cell(db.tables[TestRuns].rows[id], c))
                 && ("idx_test_runs_started_at" !in db.indexes ==> "idx_test_runs_started_at" in now.indexes)
  {
    KeepsCopied(c);
    if !Rebuilt(db).ok && TestRunsNew !in db.tables {
      var d :| d in COPIED && d !in db.tables[TestRuns].columns;
      KeepsCopied(d);
    }
  }

  /** The backfill fails exactly on a database without the version table or, before version 5, without the
      two columns it looks at; it then changes nothing. */
  lemma BackfillFailsIff(db: Db)
    ensures !Backfilled(db).ok <==>
            || SchemaMigrations !in db.tables
            || (5 !in db.versions && (Instances !in db.tables || "source" !in db.tables[Instances].columns || "platform" !in db.tables[Instances].columns))
    ensures !Backfilled(db).ok || 5 in db.versions ==> Backfilled(db).db == db
  {
  }

  // ---- Devices are classified ----

  /** The defaults under which existing devices get the two columns. */
  predicate DefaultsFit(st: Statement) {
    && (st.EnsureColumn? && st.table == Instances && st.column == PLATFORM ==> st.default == ANDROID)
    && (st.EnsureColumn? && st.table == Instances && st.column == SOURCE ==> st.default == "")
  }

  function PlatformOf(row: Row): Value {
    if PLATFORM in row then row[PLATFORM] else ANDROID
  }

  ghost predicate HasDevice(db: Db, id: string) {
    Instances in db.tables && id in db.tables[Instances].rows && TableFits(db.tables[Instances])
  }

  ghost function Device(db: Db, id: string): Row
    requires HasDevice(db, id)
  {
    db.tables[Instances].rows[id]
  }

  function SourceFor(row: Row): Value {
    if Cell(row, SOURCE) != "" then Cell(row, SOURCE) else if IsDesktop(PlatformOf(row)) then RUNNER else CUTTLEFISH
  }

  lemma SourceIsNeverBlank(row: Row)
    ensures SourceFor(row) != ""
  {
  }

  lemma ColumnBeforeBackfill(t: Table, c: Column, default: Value, id: string)
    requires TableFits(t) && id in t.rows && c !in t.columns
    requires (c == PLATFORM ==> default == ANDROID) && (c == SOURCE ==> default == "")
    ensures SourceFor(WithColumn(t, c, default).rows[id]) == SourceFor(t.rows[id])
  {
  }

  lemma BeforeBackfill(db: Db, st: Statement, id: string)
    requires HasDevice(db, id) && Phase(st) <= 2 && DefaultsFit(st)
    ensures var after := Exec(db, st).db;
            HasDevice(after, id) && SourceFor(Device(after, id)) == SourceFor(Device(db, id)) && after.versions == db.versions
  {
    var devices := db.tables[Instances];
    if st.EnsureColumn? && st.table == Instances && st.column !in devices.columns {
      ColumnKept(Instances, devices, st.column, st.default);
      ColumnBeforeBackfill(devices, st.column, st.default, id);
    } else {
      assert Exec(db, st).db.tables[Instances] == devices;
    }
  }

  ghost predicate DeviceHas(db: Db, id: string, source: Value) {
    HasDevice(db, id) && SOURCE in Device(db, id) && Device(db, id)[SOURCE] == source
  }

  lemma AtBackfill(db: Db, id: string)
    requires HasDevice(db, id) && 5 !in db.versions && Backfilled(db).ok
    ensures DeviceHas(Backfilled(db).db, id, SourceFor(Device(db, id)))
  {
  }

  lemma AfterBackfill(db: Db, st: Statement, id: string, source: Value)
    requires DeviceHas(db, id, source) && source != "" && Phase(st) >= 3
    ensures DeviceHas(Exec(db, st).db, id, source)
  {
  }

  lemma {:induction false} ClassifiedStays(db: Db, prog: seq<Statement>, id: string, source: Value)
    requires DeviceHas(db, id, source) && source != ""
    requires forall i :: 0 <= i < |prog| ==> Phase(prog[i]) >= 3
    ensures DeviceHas(Run(db, prog).db, id, source)
    decreases |prog|
  {
    if prog != [] {
      AfterBackfill(db, prog[0], id, source);
      if Exec(db, prog[0]).ok {
        ClassifiedStays(Exec(db, prog[0]).db, prog[1..], id, source);
      }
    }
  }

  predicate AllDefaultsFit(prog: seq<Statement>) {
    forall i :: 0 <= i < |prog| ==> DefaultsFit(prog[i])
  }

  lemma PlannedTail(prog: seq<Statement>)
    requires Planned(prog) && prog != []
    ensures Planned(prog[1..]) && forall i :: 0 <= i < |prog[1..]| ==> Phase(prog[0]) <= Phase(prog[1..][i])
  {
  }

  /** A completed first migration to version 5 gives every device that was already there its source:
      the one it had, or else runner exactly when its platform is a desktop. A device from before
      the platform column counts as Android. */
  lemma {:induction false} DevicesClassified(db: Db, prog: seq<Statement>, id: string)
    requires Planned(prog) && AllDefaultsFit(prog) && BackfillSource in prog
    requires HasDevice(db, id) && 5 !in db.versions && Run(db, prog).ok
    ensures DeviceHas(Run(db, prog).db, id, SourceFor(Device(db, id)))
    decreases |prog|
  {
    var next := Exec(db, prog[0]).db;
    PlannedTail(prog);
    if prog[0].BackfillSource? {
      AtBackfill(db, id);
      SourceIsNeverBlank(Device(db, id));
      ClassifiedStays(next, prog[1..], id, SourceFor(Device(db, id)));
    } else {
      assert BackfillSource in prog[1..];
      BeforeBackfill(db, prog[0], id);
      DevicesClassified(next, prog[1..], id);
    }
  }

  lemma SourceInWords(row: Row)
    ensures "source" in row && row["source"] != "" ==> SourceFor(row) == row["source"]
    ensures ("source" in row ==> row["source"] == "") ==>
              (SourceFor(row) == "runner" <==> "platform" in row && row["platform"] != "" && row["platform"] != "android")
              && (SourceFor(row) == "runner" || SourceFor(row) == "cuttlefish")
  {
  }

  /** The same, word for word: the first upgrade to version 5 leaves a device that names a source alone;
      any other becomes "runner" if its platform is stored and neither empty nor "android", and
      "cuttlefish" if not. */
  lemma {:induction false} FirstUpgradeSetsSource(db: Db, prog: seq<Statement>, id: string)
    requires Planned(prog) && AllDefaultsFit(prog) && BackfillSource in prog
    requires HasDevice(db, id) && 5 !in db.versions && Run(db, prog).ok
    ensures HasDevice(Run(db, prog).db, id) && "source" in Device(Run(db, prog).db, id)
    ensures var was, source := Device(db, id), Device(Run(db, prog).db, id)["source"];
            if "source" in was && was["source"] != "" then source == was["source"]
            else if "platform" in was && was["platform"] != "" && was["platform"] != "android" then source == "runner"
            else source == "cuttlefish"
  {
    DevicesClassified(db, prog, id);
    SourceInWords(Device(db, id));
  }

  // ---- The clock ----

  /** Versions record when they were applied; two starts read different clocks. */
  function TimelessVersions(versions: map<nat, Value>): map<nat, Value> {
    map v | v in versions :: ""
  }

  function Timeless(db: Db): Db {
    db.(versions := TimelessVersions(db.versions))
  }

  function TimelessStatement(st: Statement): Statement {
    if st.RecordVersion? then st.(at := "") else st
  }

  function TimelessPlan(prog: seq<Statement>): (p: seq<Statement>)
    ensures |p| == |prog|
  {
    seq(|prog|, i requires 0 <= i < |prog| => TimelessStatement(prog[i]))
  }

  lemma TimelessExec(db: Db, st: Statement)
    ensures var o := Exec(db, st); Exec(Timeless(db), TimelessStatement(st)) == Outcome(Timeless(o.db), o.ok)
  {
  }

  lemma {:induction false} TimelessRun(db: Db, prog: seq<Statement>)
    ensures var o := Run(db, prog); Run(Timeless(db), TimelessPlan(prog)) == Outcome(Timeless(o.db), o.ok)
    decreases |prog|
  {
    if prog != [] {
      TimelessExec(db, prog[0]);
      assert TimelessPlan(prog)[1..] == TimelessPlan(prog[1..]);
      var first := Exec(db, prog[0]);
      if first.ok {
        TimelessRun(first.db, prog[1..]);
      }
    }
  }

  lemma TimelessPlanned(prog: seq<Statement>, db: Db)
    requires Planned(prog) && Steady(prog, db)
    ensures Planned(TimelessPlan(prog)) && Steady(TimelessPlan(prog), Timeless(db))
  {
  }

  /** The restart converges whatever the clocks say: same schema, same rows, same set of versions,
      same success. */
  lemma {:induction false} RestartConvergesAnyClock(first: seq<Statement>, again: seq<Statement>, db: Db, k: nat)
    requires Planned(first) && Steady(first, db) && k <= |first| && TimelessPlan(again) == TimelessPlan(first)
    ensures var restarted, undisturbed := Run(Run(db, first[..k]).db, again), Run(db, first);
            && restarted.db.tables == undisturbed.db.tables && restarted.db.indexes == undisturbed.db.indexes
            && restarted.db.versions.Keys == undisturbed.db.versions.Keys && restarted.ok == undisturbed.ok
  {
    var p := TimelessPlan(first);
    TimelessPlanned(first, db);
    RestartConverges(p, Timeless(db), k);
    assert p[..k] == TimelessPlan(first[..k]);
    TimelessRun(db, first[..k]);
    TimelessRun(Run(db, first[..k]).db, again);
    TimelessRun(db, first);
    var restarted, undisturbed := Run(Run(db, first[..k]).db, again).db, Run(db, first).db;
    assert Timeless(restarted) == Timeless(undisturbed);
    assert TimelessVersions(restarted.versions).Keys == restarted.versions.Keys;
    assert TimelessVersions(undisturbed.versions).Keys == undisturbed.versions.Keys;
  }

  // ---- The migration itself ----

  /** The columns each table is created with. */
  function Base(t: TableName): seq<Column> {
    match t
    case SchemaMigrations => ["version", "applied_at"]
    case Images => ["id", "name", "path", "android_api", "description", "created_at"]
    case Instances => ["id", "name", "host_id", "image_id", "state", "cpu_cores", "memory_mb", "adb_port", "webrtc_port",
           "console_provider", "console_url", "last_error", "created_at", "updated_at"]
    case Operations => ["id", "instance_id", "action", "status", "message", "created_at", "finished_at"]
    case Users => ["id", "username", "display_name", "role", "password_hash", "disabled", "created_at", "updated_at"]
    case Sessions => ["id", "user_id", "token_hash", "expires_at", "created_at"]
    case AuditEvents => ["id", "actor_id", "actor_name", "action", "resource", "resource_id", "outcome", "message", "source_ip",
           "user_agent", "request_id", "created_at"]
    case Settings => ["key", "value", "updated_at"]
    case IdentityProviders => ["id", "name", "issuer_url", "client_id", "enabled", "created_at", "updated_at"]
    case ExternalIdentities => ["id", "user_id", "provider_id", "subject", "created_at"]
    case GroupRoleMappings => ["id", "provider_id", "group_name", "role", "created_at"]
    case Tests => ["id", "name", "steps", "created_at"]
    case TestRuns => ["id", "test_id", "instance_id", "status", "passed", "steps", "video", "error", STARTED_AT,
           "finished_at"]
    case TestCases => ["id", "summary", "description", "precondition", "priority", "status", "labels", "components",
           "folder_path", "steps", "external_key", "created_at", "updated_at"]
    case TestCycles => ["id", "name", PLATFORM, "build_id", "environment", "case_ids", "cron", "timezone", "on_new_build",
           "enabled", "last_run_at", "next_run_at", "created_at"]
    case CycleRuns => ["id", "cycle_id", "trigger", "build_id", "instance_id", "status", "totals", STARTED_AT, "finished_at"]
    case Builds => ["id", PLATFORM, "filename", "path", "size_bytes", "version", "status", "note", "created_at"]
    case CaseFolders => ["path", "created_at"]
    case TestRunsNew => COPIED
    case OtherTable(_) => []
  }

  const DEVICE_TABLES: seq<Statement> :=
    [CreateTable(SchemaMigrations, Base(SchemaMigrations), false),
     CreateTable(Images, Base(Images), false),
     CreateTable(Instances, Base(Instances), true),
     CreateTable(Operations, Base(Operations), false),
     CreateIndex("idx_operations_created_at", Operations, ["created_at"])]

  const ACCOUNT_TABLES: seq<Statement> :=
    [CreateTable(Users, Base(Users), false),
     CreateTable(Sessions, Base(Sessions), true),
     CreateIndex("idx_sessions_token_hash", Sessions, ["token_hash"]),
     CreateIndex("idx_sessions_expires_at", Sessions, ["expires_at"]),
     CreateTable(AuditEvents, Base(AuditEvents), false),
     CreateIndex("idx_audit_events_created_at", AuditEvents, ["created_at"]),
     CreateTable(Settings, Base(Settings), false),
     CreateTable(IdentityProviders, Base(IdentityProviders), false),
     CreateTable(ExternalIdentities, Base(ExternalIdentities), true),
     CreateTable(GroupRoleMappings, Base(GroupRoleMappings), true)]

  const TEST_TABLES: seq<Statement> :=
    [CreateTable(Tests, Base(Tests), false),
     CreateTable(TestRuns, Base(TestRuns), false),
     CreateIndex(IDX_TEST_RUNS, TestRuns, [STARTED_AT]),
     CreateTable(TestCases, Base(TestCases), false),
     CreateIndex("idx_test_cases_folder", TestCases, ["folder_path"])]

  const CYCLE_TABLES: seq<Statement> :=
    [CreateTable(TestCycles, Base(TestCycles), false),
     CreateTable(CycleRuns, Base(CycleRuns), true),
     CreateIndex("idx_cycle_runs_started_at", CycleRuns, [STARTED_AT]),
     CreateTable(Builds, Base(Builds), false),
     CreateIndex("idx_builds_platform", Builds, [PLATFORM, "created_at"]),
     CreateTable(CaseFolders, Base(CaseFolders), false)]

  const OPTION_COLUMNS: seq<Statement> :=
    [EnsureColumn(Images, "build_target", ""),
     EnsureColumn(Images, "version_id", ""),
     EnsureColumn(Images, "status", "ready"),
     EnsureColumn(Images, "size_bytes", "0"),
     EnsureColumn(Images, "last_error", ""),
     EnsureColumn(Instances, "android_version", ""),
     EnsureColumn(Instances, "display_width", "0"),
     EnsureColumn(Instances, "display_height", "0"),
     EnsureColumn(Instances, "dpi", "0"),
     EnsureColumn(Instances, "device_id", "")]

  const TARGET_COLUMNS: seq<Statement> :=
    [EnsureColumn(Instances, PLATFORM, ANDROID),
     EnsureColumn(Instances, "control_endpoint", ""),
     EnsureColumn(Instances, SOURCE, ""),
     EnsureColumn(Instances, "adb_target", ""),
     EnsureColumn(Builds, "sha256", ""),
     EnsureColumn(Instances, "control_token_ciphertext", ""),
     EnsureColumn(TestRuns, "cycle_run_id", ""),
     EnsureColumn(TestRuns, "case_id", ""),
     EnsureColumn(TestCycles, "timezone", "")]

  /** The tables and their indexes. */
  function Tables(): seq<Statement> {
    DEVICE_TABLES + ACCOUNT_TABLES + TEST_TABLES + CYCLE_TABLES
  }

  /** The columns added since. */
  function Columns(): seq<Statement> {
    OPTION_COLUMNS + TARGET_COLUMNS
  }

  function VersionRows(at: nat -> Value): seq<Statement> {
    [RecordVersion(1, at(1)), RecordVersion(2, at(2)), RecordVersion(3, at(3)), RecordVersion(4, at(4)), RecordVersion(5, at(5))]
  }

  /** Everything `migrate` does, in order; `at` gives the clock's readings. */
  function Plan(at: nat -> Value): seq<Statement> {
    Tables() + Columns() + [RebuildTestRuns, BackfillSource] + VersionRows(at)
  }

  predicate Part(prog: seq<Statement>, lo: nat, hi: nat) {
    forall i :: 0 <= i < |prog| ==> Fits(prog[i]) && DefaultsFit(prog[i]) && lo <= Phase(prog[i]) <= hi
  }

  lemma DeviceTablesPart()
    ensures Part(DEVICE_TABLES, 0, 0)
  {
  }

  lemma AccountTablesPart()
    ensures Part(ACCOUNT_TABLES, 0, 0)
  {
  }

  lemma TestTablesPart()
    ensures Part(TEST_TABLES, 0, 0)
  {
  }

  lemma CycleTablesPart()
    ensures Part(CYCLE_TABLES, 0, 0)
  {
  }

  lemma OptionColumnsPart()
    ensures Part(OPTION_COLUMNS, 1, 1)
  {
  }

  lemma TargetColumnsPart()
    ensures Part(TARGET_COLUMNS, 1, 1)
  {
  }

  lemma Join(a: seq<Statement>, b: seq<Statement>, lo: nat, mid: nat, hi: nat)
    requires lo <= mid <= hi && Planned(a) && Part(a, lo, mid) && Planned(b) && Part(b, mid, hi)
    ensures Planned(a + b) && Part(a + b, lo, hi)
  {
  }

  lemma PartPlanned(a: seq<Statement>, lo: nat)
    requires Part(a, lo, lo)
    ensures Planned(a)
  {
  }

  lemma PartsJoin(a: seq<Statement>, b: seq<Statement>, p: nat)
    requires Part(a, p, p) && Part(b, p, p)
    ensures Part(a + b, p, p)
  {
  }

  lemma TablesPart()
    ensures Part(Tables(), 0, 0)
  {
    DeviceTablesPart();
    AccountTablesPart();
    TestTablesPart();
    CycleTablesPart();
    PartsJoin(DEVICE_TABLES, ACCOUNT_TABLES, 0);
    PartsJoin(DEVICE_TABLES + ACCOUNT_TABLES, TEST_TABLES, 0);
    PartsJoin(DEVICE_TABLES + ACCOUNT_TABLES + TEST_TABLES, CYCLE_TABLES, 0);
  }

  lemma ColumnsPart()
    ensures Part(Columns(), 1, 1)
  {
    OptionColumnsPart();
    TargetColumnsPart();
    PartsJoin(OPTION_COLUMNS, TARGET_COLUMNS, 1);
  }

  lemma TablesPlanned()
    ensures Planned(Tables() + Columns()) && Part(Tables() + Columns(), 0, 2)
  {
    TablesPart();
    ColumnsPart();
    PartPlanned(Tables(), 0);
    PartPlanned(Columns(), 1);
    Join(Tables(), Columns(), 0, 1, 2);
  }

  lemma EndPlanned(at: nat -> Value)
    ensures var end := [RebuildTestRuns, BackfillSource] + VersionRows(at); Planned(end) && Part(end, 2, 4)
  {
  }

  /** The repository's migration meets the conditions of the theorems above. */
  lemma PlanIsPlanned(at: nat -> Value)
    ensures Planned(Plan(at)) && AllDefaultsFit(Plan(at)) && BackfillSource in Plan(at) && Records(Plan(at), 5)
  {
    var tables, end := Tables() + Columns(), [RebuildTestRuns, BackfillSource] + VersionRows(at);
    TablesPlanned();
    EndPlanned(at);
    Join(tables, end, 0, 2, 4);
    assert Plan(at) == tables + end;
    PlanTail(tables, end);
    assert end[1] == BackfillSource && end[6] == RecordVersion(5, at(5));
  }

  lemma PlanTail(a: seq<Statement>, b: seq<Statement>)
    ensures forall i :: 0 <= i < |b| ==> (a + b)[|a| + i] == b[i] && b[i] in a + b
  {
  }

  lemma PlanIgnoresClock(at: nat -> Value, at': nat -> Value)
    ensures TimelessPlan(Plan(at)) == TimelessPlan(Plan(at'))
  {
  }

  // ---- The migration succeeds ----

  /** The columns that indexes and the rebuild use. */
  function Needed(t: TableName): seq<Column> {
    match t
    case Operations => ["created_at"]
    case Sessions => ["token_hash", "expires_at"]
    case AuditEvents => ["created_at"]
    case TestRuns => Base(TestRuns)
    case TestCases => ["folder_path"]
    case CycleRuns => [STARTED_AT]
    case Builds => [PLATFORM, "created_at"]
    case _ => []
  }

  /** Tables that are already there have the columns that will be used, and no rebuild is half done. */
  ghost predicate Usable(db: Db) {
    TestRunsNew !in db.tables && forall t :: t in db.tables ==> HasColumns(db.tables[t], Needed(t))
  }

  /** The table is created, or the column added, by one of the first `n` statements. */
  predicate Made(prog: seq<Statement>, n: nat, t: TableName) {
    exists i :: 0 <= i < n && i < |prog| && prog[i].CreateTable? && prog[i].table == t
  }

  predicate Added(prog: seq<Statement>, n: nat, t: TableName, c: Column) {
    exists i :: 0 <= i < n && i < |prog| && prog[i].EnsureColumn? && prog[i].table == t && prog[i].column == c
  }

  predicate AllIn(keys: seq<Column>, columns: seq<Column>) {
    forall c :: c in keys ==> c in columns
  }

  /** Statement `n` finds what it needs. */
  predicate Ready(prog: seq<Statement>, n: nat)
    requires n < |prog|
  {
    match prog[n]
    case CreateTable(t, columns, _) => t != TestRunsNew && AllIn(Needed(t), columns)
    case CreateIndex(_, on, keys) => Made(prog, n, on) && AllIn(keys, Needed(on))
    case EnsureColumn(t, _, _) => Made(prog, n, t)
    case RebuildTestRuns => Added(prog, n, TestRuns, COPIED[10]) && Added(prog, n, TestRuns, COPIED[11])
    case BackfillSource => Made(prog, n, SchemaMigrations) && Added(prog, n, Instances, SOURCE) && Added(prog, n, Instances, PLATFORM)
    case RecordVersion(_, _) => Made(prog, n, SchemaMigrations)
  }

  predicate AllReady(prog: seq<Statement>) {
    forall n :: 0 <= n < |prog| ==> Ready(prog, n)
  }

  /** As `Settled`, but for the indexes: no rebuild can take that away. */
  predicate SettledTables(prog: seq<Statement>, n: nat, db: Db)
    requires n <= |prog|
  {
    forall i :: 0 <= i < n && !prog[i].CreateIndex? ==> Idle(prog[i], db)
  }

  lemma SettledTablesNext(prog: seq<Statement>, n: nat, db: Db)
    requires Planned(prog) && n < |prog| && SettledTables(prog, n, db) && Exec(db, prog[n]).ok
    ensures SettledTables(prog, n + 1, Exec(db, prog[n]).db)
  {
    forall i | 0 <= i < n + 1 && !prog[i].CreateIndex? ensures Idle(prog[i], Exec(db, prog[n]).db) {
      if i < n {
        IdleStays(prog[i], prog[n], db);
      } else {
        IdleAfterwards(prog[n], db);
      }
    }
  }

  lemma MadeIsThere(prog: seq<Statement>, n: nat, db: Db, t: TableName)
    requires n <= |prog| && SettledTables(prog, n, db) && Made(prog, n, t)
    ensures t in db.tables
  {
    var i :| 0 <= i < n && prog[i].CreateTable? && prog[i].table == t;
    assert Idle(prog[i], db);
  }

  lemma AddedIsThere(prog: seq<Statement>, n: nat, db: Db, t: TableName, c: Column)
    requires n <= |prog| && SettledTables(prog, n, db) && Added(prog, n, t, c)
    ensures t in db.tables && c in db.tables[t].columns
  {
    var i :| 0 <= i < n && prog[i].EnsureColumn? && prog[i].table == t && prog[i].column == c;
    assert Idle(prog[i], db);
  }

  lemma RebuildReady(t: Table)
    requires HasColumns(t, Base(TestRuns)) && COPIED[10] in t.columns && COPIED[11] in t.columns
    ensures CanCopy(t)
  {
    forall c | c in COPIED ensures c in t.columns {
      var i :| 0 <= i < |COPIED| && COPIED[i] == c;
      assert i < 10 ==> Base(TestRuns)[i] == c;
    }
  }

  lemma ReadySucceeds(prog: seq<Statement>, n: nat, db: Db)
    requires n < |prog| && SettledTables(prog, n, db) && Ready(prog, n) && (Phase(prog[n]) < 3 ==> Usable(db))
    ensures Exec(db, prog[n]).ok
  {
    match prog[n] {
      case CreateTable(_, _, _) =>
      case CreateIndex(_, on, keys) =>
        MadeIsThere(prog, n, db, on);
        assert HasColumns(db.tables[on], Needed(on));
      case EnsureColumn(t, _, _) => MadeIsThere(prog, n, db, t);
      case RebuildTestRuns =>
        AddedIsThere(prog, n, db, TestRuns, COPIED[10]);
        AddedIsThere(prog, n, db, TestRuns, COPIED[11]);
        RebuildReady(db.tables[TestRuns]);
      case BackfillSource =>
        MadeIsThere(prog, n, db, SchemaMigrations);
        AddedIsThere(prog, n, db, Instances, SOURCE);
        AddedIsThere(prog, n, db, Instances, PLATFORM);
      case RecordVersion(_, _) => MadeIsThere(prog, n, db, SchemaMigrations);
    }
  }

  lemma RebuiltUsable(t: Table)
    ensures HasColumns(Copied(t), Needed(TestRuns))
  {
    forall c | c in Needed(TestRuns) ensures c in COPIED {
      var i :| 0 <= i < |Base(TestRuns)| && Base(TestRuns)[i] == c;
      assert COPIED[i] == c;
    }
  }

  lemma UsableStays(db: Db, st: Statement)
    requires Usable(db) && (st.CreateTable? ==> st.table != TestRunsNew && AllIn(Needed(st.table), st.columns))
    ensures Usable(Exec(db, st).db)
  {
    var after := Exec(db, st).db;
    forall t | t in after.tables ensures HasColumns(after.tables[t], Needed(t)) {
      if t in db.tables {
        assert HasColumns(db.tables[t], Needed(t));
        if st.RebuildTestRuns? && t == TestRuns {
          RebuiltUsable(db.tables[t]);
        }
      }
    }
  }

  lemma {:induction false} ReadyRunSucceeds(prog: seq<Statement>, n: nat, db: Db)
    requires Planned(prog) && AllReady(prog) && n <= |prog| && SettledTables(prog, n, db) && Usable(db)
    ensures Run(db, prog[n..]).ok
    decreases |prog| - n
  {
    if n < |prog| {
      ReadyStep(prog, n, db);
      assert prog[n..][1..] == prog[n + 1..];
      ReadyRunSucceeds(prog, n + 1, Exec(db, prog[n]).db);
    }
  }

  lemma ReadyStep(prog: seq<Statement>, n: nat, db: Db)
    requires Planned(prog) && AllReady(prog) && n < |prog| && SettledTables(prog, n, db) && Usable(db)
    ensures Exec(db, prog[n]).ok && SettledTables(prog, n + 1, Exec(db, prog[n]).db) && Usable(Exec(db, prog[n]).db)
  {
    assert Ready(prog, n);
    ReadySucceeds(prog, n, db);
    UsableStays(db, prog[n]);
    SettledTablesNext(prog, n, db);
  }

  lemma DeviceTablesReady()
    ensures AllReady(DEVICE_TABLES)
  {
    assert DEVICE_TABLES[3].table == Operations;
  }

  lemma AccountTablesReady()
    ensures AllReady(ACCOUNT_TABLES)
  {
    assert ACCOUNT_TABLES[1].table == Sessions && ACCOUNT_TABLES[4].table == AuditEvents;
  }

  lemma TestTablesReady()
    ensures AllReady(TEST_TABLES)
  {
    assert TEST_TABLES[1].table == TestRuns && TEST_TABLES[3].table == TestCases;
  }

  lemma CycleTablesReady()
    ensures AllReady(CYCLE_TABLES)
  {
    assert CYCLE_TABLES[1].table == CycleRuns && CYCLE_TABLES[3].table == Builds;
  }

  lemma MadeShifts(a: seq<Statement>, b: seq<Statement>, n: nat, t: TableName)
    requires n <= |b|
    ensures Made(b, n, t) ==> Made(a + b, |a| + n, t)
    ensures Made(a, |a|, t) ==> Made(a + b, |a| + n, t)
  {
    if Made(b, n, t) {
      var i :| 0 <= i < n && b[i].CreateTable? && b[i].table == t;
      assert (a + b)[|a| + i] == b[i];
    }
    if Made(a, |a|, t) {
      var i :| 0 <= i < |a| && a[i].CreateTable? && a[i].table == t;
      assert (a + b)[i] == a[i];
    }
  }

  lemma AddedShifts(a: seq<Statement>, b: seq<Statement>, n: nat, t: TableName, c: Column)
    requires n <= |b|
    ensures Added(b, n, t, c) ==> Added(a + b, |a| + n, t, c)
    ensures Added(a, |a|, t, c) ==> Added(a + b, |a| + n, t, c)
  {
    if Added(b, n, t, c) {
      var i :| 0 <= i < n && b[i].EnsureColumn? && b[i].table == t && b[i].column == c;
      assert (a + b)[|a| + i] == b[i];
    }
    if Added(a, |a|, t, c) {
      var i :| 0 <= i < |a| && a[i].EnsureColumn? && a[i].table == t && a[i].column == c;
      assert (a + b)[i] == a[i];
    }
  }

  lemma ReadyBefore(a: seq<Statement>, b: seq<Statement>, n: nat)
    requires n < |a| && Ready(a, n)
    ensures Ready(a + b, n)
  {
    assert forall i :: 0 <= i < n ==> (a + b)[i] == a[i];
    assert forall t :: Made(a, n, t) ==> Made(a + b, n, t);
    assert forall t, c :: Added(a, n, t, c) ==> Added(a + b, n, t, c);
  }

  lemma ReadyBehind(a: seq<Statement>, b: seq<Statement>, n: nat)
    requires n < |b| && Ready(b, n)
    ensures Ready(a + b, |a| + n)
  {
    forall t ensures Made(b, n, t) ==> Made(a + b, |a| + n, t) {
      MadeShifts(a, b, n, t);
    }
    forall t, c ensures Added(b, n, t, c) ==> Added(a + b, |a| + n, t, c) {
      AddedShifts(a, b, n, t, c);
    }
  }

  lemma ReadyTogether(a: seq<Statement>, b: seq<Statement>)
    requires AllReady(a) && AllReady(b)
    ensures AllReady(a + b)
  {
    forall n | 0 <= n < |a + b| ensures Ready(a + b, n) {
      if n < |a| {
        ReadyBefore(a, b, n);
      } else {
        ReadyBehind(a, b, n - |a|);
      }
    }
  }

  lemma TablesReady()
    ensures AllReady(Tables())
  {
    DeviceTablesReady();
    AccountTablesReady();
    TestTablesReady();
    CycleTablesReady();
    ReadyTogether(DEVICE_TABLES, ACCOUNT_TABLES);
    ReadyTogether(DEVICE_TABLES + ACCOUNT_TABLES, TEST_TABLES);
    ReadyTogether(DEVICE_TABLES + ACCOUNT_TABLES + TEST_TABLES, CYCLE_TABLES);
  }

  lemma MadeInPart(a: seq<Statement>, part: seq<Statement>, b: seq<Statement>, i: nat)
    requires i < |part| && part[i].CreateTable?
    ensures Made(a + part + b, |a + part + b|, part[i].table)
  {
    assert (a + part + b)[|a| + i] == part[i];
  }

  /** The tables that get columns or are asked about later. */
  lemma TablesMade()
    ensures forall t :: t in {SchemaMigrations, Images, Instances, TestRuns, TestCycles, Builds} ==> Made(Tables(), |Tables()|, t)
  {
    var d, a, t, c := DEVICE_TABLES, ACCOUNT_TABLES, TEST_TABLES, CYCLE_TABLES;
    assert Tables() == [] + d + (a + t + c) && Tables() == (d + a) + t + c && Tables() == (d + a + t) + c + [];
    MadeInPart([], d, a + t + c, 0);
    MadeInPart([], d, a + t + c, 1);
    MadeInPart([], d, a + t + c, 2);
    MadeInPart(d + a, t, c, 1);
    MadeInPart(d + a + t, c, [], 0);
    MadeInPart(d + a + t, c, [], 3);
  }

  predicate Widens(st: Statement) {
    st.EnsureColumn? && st.table in {Images, Instances, TestRuns, TestCycles, Builds}
  }

  lemma ColumnsWiden()
    ensures forall i :: 0 <= i < |Columns()| ==> Widens(Columns()[i])
  {
    assert forall i :: 0 <= i < |OPTION_COLUMNS| ==> Widens(OPTION_COLUMNS[i]);
    assert forall i :: 0 <= i < |TARGET_COLUMNS| ==> Widens(TARGET_COLUMNS[i]);
  }

  lemma SchemaReady()
    ensures AllReady(Tables() + Columns())
  {
    var a, b := Tables(), Columns();
    TablesReady();
    TablesMade();
    ColumnsWiden();
    forall n | 0 <= n < |a + b| ensures Ready(a + b, n) {
      if n < |a| {
        ReadyBefore(a, b, n);
      } else {
        assert Widens(b[n - |a|]);
        MadeShifts(a, b, n - |a|, b[n - |a|].table);
      }
    }
  }

  lemma ColumnsAdded()
    ensures var b := Columns();
            && Added(b, |b|, TestRuns, COPIED[10]) && Added(b, |b|, TestRuns, COPIED[11])
            && Added(b, |b|, Instances, SOURCE) && Added(b, |b|, Instances, PLATFORM)
  {
    var b := Columns();
    assert b[10] == TARGET_COLUMNS[0] && b[12] == TARGET_COLUMNS[2] && b[16] == TARGET_COLUMNS[6] && b[17] == TARGET_COLUMNS[7];
  }

  lemma EndReady(a: seq<Statement>, b: seq<Statement>)
    requires AllReady(a) && forall i :: 0 <= i < |b| ==> b[i].RebuildTestRuns? || b[i].BackfillSource? || b[i].RecordVersion?
    requires Complete(a)
    ensures AllReady(a + b)
  {
    forall n | 0 <= n < |a + b| ensures Ready(a + b, n) {
      if n < |a| {
        ReadyBefore(a, b, n);
      } else {
        MadeShifts(a, b, n - |a|, SchemaMigrations);
        AddedShifts(a, b, n - |a|, TestRuns, COPIED[10]);
        AddedShifts(a, b, n - |a|, TestRuns, COPIED[11]);
        AddedShifts(a, b, n - |a|, Instances, SOURCE);
        AddedShifts(a, b, n - |a|, Instances, PLATFORM);
        assert (a + b)[n] == b[n - |a|];
      }
    }
  }

  /** What the statements after the schema look for. */
  predicate Complete(a: seq<Statement>) {
    && Made(a, |a|, SchemaMigrations) && Added(a, |a|, TestRuns, COPIED[10]) && Added(a, |a|, TestRuns, COPIED[11])
    && Added(a, |a|, Instances, SOURCE) && Added(a, |a|, Instances, PLATFORM)
  }

  lemma CompleteTogether(a: seq<Statement>, b: seq<Statement>)
    requires Made(a, |a|, SchemaMigrations) && Added(b, |b|, TestRuns, COPIED[10]) && Added(b, |b|, TestRuns, COPIED[11])
    requires Added(b, |b|, Instances, SOURCE) && Added(b, |b|, Instances, PLATFORM)
    ensures Complete(a + b)
  {
    MadeShifts(a, b, |b|, SchemaMigrations);
    AddedShifts(a, b, |b|, TestRuns, COPIED[10]);
    AddedShifts(a, b, |b|, TestRuns, COPIED[11]);
    AddedShifts(a, b, |b|, Instances, SOURCE);
    AddedShifts(a, b, |b|, Instances, PLATFORM);
  }

  lemma SchemaComplete()
    ensures Complete(Tables() + Columns())
  {
    TablesMade();
    ColumnsAdded();
    CompleteTogether(Tables(), Columns());
  }

  lemma EndOfPlan(schema: seq<Statement>, at: nat -> Value)
    requires AllReady(schema) && Complete(schema)
    ensures AllReady(schema + ([RebuildTestRuns, BackfillSource] + VersionRows(at)))
  {
    EndReady(schema, [RebuildTestRuns, BackfillSource] + VersionRows(at));
  }

  lemma PlanParts(at: nat -> Value)
    ensures Plan(at) == (Tables() + Columns()) + ([RebuildTestRuns, BackfillSource] + VersionRows(at))
  {
  }

  lemma PlanReady(at: nat -> Value)
    ensures AllReady(Plan(at))
  {
    SchemaReady();
    SchemaComplete();
    EndOfPlan(Tables() + Columns(), at);
    PlanParts(at);
  }

  /** `migrate` succeeds on an empty database and on every older one whose tables have the columns
      that indexes and the rebuild use. */
  lemma {:induction false} MigrateSucceeds(db: Db, at: nat -> Value)
    requires Usable(db)
    ensures Run(db, Plan(at)).ok
  {
    PlanIsPlanned(at);
    PlanReady(at);
    assert Plan(at)[0..] == Plan(at);
    ReadyRunSucceeds(Plan(at), 0, db);
  }

  lemma {:induction false} IdleToTheEnd(st: Statement, prog: seq<Statement>, db: Db)
    requires Idle(st, db) && !st.CreateIndex? && Fits(st) && Run(db, prog).ok
    requires forall i :: 0 <= i < |prog| ==> Fits(prog[i]) && Phase(st) <= Phase(prog[i])
    ensures Idle(st, Run(db, prog).db)
    decreases |prog|
  {
    if prog != [] {
      IdleStays(st, prog[0], db);
      IdleToTheEnd(st, prog[1..], Exec(db, prog[0]).db);
    }
  }

  /** After a migration that succeeds, each of its statements but those for indexes has nothing left to do. */
  lemma {:induction false} AllTakenHold(prog: seq<Statement>, i: nat, db: Db)
    requires Planned(prog) && Run(db, prog).ok && i < |prog| && !prog[i].CreateIndex?
    ensures Idle(prog[i], Run(db, prog).db)
    decreases |prog|
  {
    var next := Exec(db, prog[0]).db;
    if i == 0 {
      IdleAfterwards(prog[0], db);
      IdleToTheEnd(prog[0], prog[1..], next);
    } else {
      PlannedTail(prog);
      AllTakenHold(prog[1..], i - 1, next);
    }
  }

  lemma {:induction false} TakesHold(at: nat -> Value, db: Db, st: Statement)
    requires Run(db, Plan(at)).ok && st in Plan(at) && !st.CreateIndex?
    ensures Idle(st, Run(db, Plan(at)).db)
  {
    PlanIsPlanned(at);
    var i :| 0 <= i < |Plan(at)| && Plan(at)[i] == st;
    AllTakenHold(Plan(at), i, db);
  }

  lemma InColumns(at: nat -> Value, st: Statement)
    requires st in OPTION_COLUMNS || st in TARGET_COLUMNS
    ensures st in Plan(at)
  {
    assert st in Columns();
    assert st in Tables() + Columns();
  }

  /** Columns that later versions of the program added. */
  ghost predicate AddedLater(t: TableName, c: Column) {
    || (t == Images && c in {"build_target", "version_id", "status", "size_bytes", "last_error"})
    || (t == Instances && c in {"android_version", "display_width", "display_height", "dpi", "device_id"})
    || (t == Instances && c in {"platform", "control_endpoint", "source", "adb_target", "control_token_ciphertext"})
    || (t == Builds && c == "sha256") || (t == TestRuns && c in {"cycle_run_id", "case_id"}) || (t == TestCycles && c == "timezone")
  }

  lemma OptionColumn(t: TableName, c: Column) returns (st: Statement)
    requires AddedLater(t, c) && (t == Images || (t == Instances && c in {"android_version", "display_width", "display_height", "dpi", "device_id"}))
    ensures st in OPTION_COLUMNS && st.EnsureColumn? && st.table == t && st.column == c
  {
    var i: nat :=
      if t == Images then
        if c == "build_target" then 0 else if c == "version_id" then 1 else if c == "status" then 2 else if c == "size_bytes" then 3 else 4
      else if c == "android_version" then 5 else if c == "display_width" then 6 else if c == "display_height" then 7
      else if c == "dpi" then 8 else 9;
    st := OPTION_COLUMNS[i];
  }

  lemma TargetColumn(t: TableName, c: Column) returns (st: Statement)
    requires AddedLater(t, c) && t != Images
    requires t == Instances ==> c in {"platform", "control_endpoint", "source", "adb_target", "control_token_ciphertext"}
    ensures st in TARGET_COLUMNS && st.EnsureColumn? && st.table == t && st.column == c
  {
    var i: nat :=
      if t == Instances then
        if c == "platform" then 0 else if c == "control_endpoint" then 1 else if c == "source" then 2 else if c == "adb_target" then 3 else 5
      else if t == Builds then 4 else if t == TestCycles then 8 else if c == "cycle_run_id" then 6 else 7;
    st := TARGET_COLUMNS[i];
  }

  /** A migrated database has every column added since its tables were made, whatever it was before, and is
      at version 5. */
  lemma {:induction false} MigratedSchema(db: Db, at: nat -> Value, t: TableName, c: Column)
    requires Run(db, Plan(at)).ok
    ensures var now := Run(db, Plan(at)).db;
            && (AddedLater(t, c) ==> t in now.tables && c in now.tables[t].columns)
            && (forall v :: v in {1, 2, 3, 4, 5} ==> v in now.versions) && NoForeignKey(now)
  {
    if AddedLater(t, c) {
      var st;
      if t == Images || (t == Instances && c in {"android_version", "display_width", "display_height", "dpi", "device_id"}) {
        st := OptionColumn(t, c);
      } else {
        st := TargetColumn(t, c);
      }
      InColumns(at, st);
      TakesHold(at, db, st);
    }
    TakesHold(at, db, RebuildTestRuns);
    forall v: nat | v in {1, 2, 3, 4, 5} ensures v in Run(db, Plan(at)).db.versions {
      assert RecordVersion(v, at(v)) in VersionRows(at) by {
        assert VersionRows(at)[v - 1] == RecordVersion(v, at(v));
      }
      TakesHold(at, db, RecordVersion(v, at(v)));
    }
  }

  /** The upgrade of an older database to version 5 succeeds and classifies every device it holds. */
  lemma {:induction false} UpgradeClassifies(db: Db, at: nat -> Value, id: string)
    requires Usable(db) && HasDevice(db, id) && 5 !in db.versions
    ensures Run(db, Plan(at)).ok && HasDevice(Run(db, Plan(at)).db, id) && "source" in Device(Run(db, Plan(at)).db, id)
    ensures var was, source := Device(db, id), Device(Run(db, Plan(at)).db, id)["source"];
            if "source" in was && was["source"] != "" then source == was["source"]
            else if "platform" in was && was["platform"] != "" && was["platform"] != "android" then source == "runner"
            else source == "cuttlefish"
  {
    MigrateSucceeds(db, at);
    PlanIsPlanned(at);
    FirstUpgradeSetsSource(db, Plan(at), id);
  }

  /** `migrate`, interrupted after `k` statements and started again with another clock, ends with
      the tables, rows, indexes, versions and success of an uninterrupted run. */
  lemma {:induction false} MigrateConverges(db: Db, at: nat -> Value, at': nat -> Value, k: nat)
    requires Steady(Plan(at), db) && k <= |Plan(at)|
    ensures var restarted, undisturbed := Run(Run(db, Plan(at)[..k]).db, Plan(at')), Run(db, Plan(at));
            && restarted.db.tables == undisturbed.db.tables && restarted.db.indexes == undisturbed.db.indexes
            && restarted.db.versions.Keys == undisturbed.db.versions.Keys && restarted.ok == undisturbed.ok
  {
    PlanIsPlanned(at);
    PlanIgnoresClock(at, at');
    RestartConvergesAnyClock(Plan(at), Plan(at'), db, k);
  }

  // ---- Exactly which databases converge ----

  /** The database after a start that stopped before statement `k` and a second, whole one. */
  function Restarted(prog: seq<Statement>, db: Db, k: nat): Outcome
    requires k <= |prog|
  {
    Run(Run(db, prog[..k]).db, prog)
  }

  /** Wherever the first start stops, the second ends as a single one would have. */
  ghost predicate Converges(prog: seq<Statement>, db: Db) {
    forall k: nat :: k <= |prog| ==> Restarted(prog, db, k) == Run(db, prog)
  }

  /** The one rebuild comes after all definitions and before everything else. */
  predicate RebuildsAt(prog: seq<Statement>, p: nat) {
    p < |prog| && forall j :: 0 <= j < |prog| ==>
      (j < p ==> Phase(prog[j]) <= 1) && (j == p ==> prog[j].RebuildTestRuns?) && (j > p ==> Phase(prog[j]) >= 3)
  }

  /** After the rebuild nothing can fail. */
  lemma {:induction false} LateNeverFails(prog: seq<Statement>, p: nat, n: nat, db: Db)
    requires Planned(prog) && AllReady(prog) && RebuildsAt(prog, p) && p < n <= |prog| && SettledTables(prog, n, db)
    ensures Run(db, prog[n..]).ok
    decreases |prog| - n
  {
    if n < |prog| {
      assert Ready(prog, n) && Phase(prog[n]) >= 3;
      ReadySucceeds(prog, n, db);
      SettledTablesNext(prog, n, db);
      assert prog[n..][1..] == prog[n + 1..];
      LateNeverFails(prog, p, n + 1, Exec(db, prog[n]).db);
    }
  }

  /** So a migration that fails has not rebuilt anything. */
  lemma {:induction false} FailureIsHarmless(prog: seq<Statement>, p: nat, n: nat, db: Db)
    requires Planned(prog) && AllReady(prog) && RebuildsAt(prog, p) && n <= p && SettledTables(prog, n, db)
    requires !Run(db, prog[n..]).ok
    ensures Harmless(prog, n, |prog|, db)
    decreases p - n
  {
    var first := Exec(db, prog[n]);
    if first.ok {
      assert prog[n..][1..] == prog[n + 1..];
      SettledTablesNext(prog, n, db);
      if n < p {
        assert Phase(prog[n]) <= 1;
        FailureIsHarmless(prog, p, n + 1, first.db);
      } else {
        LateNeverFails(prog, p, n + 1, first.db);
      }
    }
  }

  predicate Misplaced(db: Db, index: string) {
    index in db.indexes && db.indexes[index] == TestRuns
  }

  /** Until the rebuild, the key and the misplaced index stay. */
  lemma {:induction false} MisplacedStays(prog: seq<Statement>, p: nat, n: nat, db: Db, index: string)
    requires RebuildsAt(prog, p) && n <= p && !NoForeignKey(db) && Misplaced(db, index) && Run(db, prog[n..p]).ok
    ensures var end := Run(db, prog[n..p]).db; !NoForeignKey(end) && Misplaced(end, index)
    decreases p - n
  {
    if n < p {
      assert Phase(prog[n]) <= 1;
      assert prog[n..p][1..] == prog[n + 1..p];
      MisplacedStays(prog, p, n + 1, Exec(db, prog[n]).db, index);
    }
  }

  lemma {:induction false} DroppedStaysAway(prog: seq<Statement>, p: nat, n: nat, db: Db, index: string)
    requires RebuildsAt(prog, p) && p < n <= |prog| && NoForeignKey(db) && index !in db.indexes
    ensures var end := Run(db, prog[n..]).db; NoForeignKey(end) && index !in end.indexes
    decreases |prog| - n
  {
    if n < |prog| {
      assert Phase(prog[n]) >= 3;
      assert prog[n..][1..] == prog[n + 1..];
      if Exec(db, prog[n]).ok {
        DroppedStaysAway(prog, p, n + 1, Exec(db, prog[n]).db, index);
      }
    }
  }

  lemma {:induction false} MisplacedIsDropped(prog: seq<Statement>, p: nat, db: Db, index: string)
    requires RebuildsAt(prog, p) && !NoForeignKey(db) && Misplaced(db, index) && index != IDX_TEST_RUNS && Run(db, prog).ok
    ensures var end := Run(db, prog).db; NoForeignKey(end) && index !in end.indexes
  {
    var mid := Run(db, prog[..p]);
    assert prog == prog[..p] + prog[p..] && prog[0..p] == prog[..p];
    RunConcat(db, prog[..p], prog[p..]);
    MisplacedStays(prog, p, 0, db, index);
    assert prog[p..][0] == prog[p] && prog[p..][1..] == prog[p + 1..];
    assert prog[p].RebuildTestRuns?;
    var rebuilt := Rebuilt(mid.db);
    DroppedStaysAway(prog, p, p + 1, rebuilt.db, index);
  }

  /** With the old key, an index of another table on `test_runs` is dropped by the first start and
      created where it belongs by the second. */
  lemma {:induction false} MisplacedNeedsTwoStarts(prog: seq<Statement>, p: nat, db: Db, i: nat)
    requires Planned(prog) && RebuildsAt(prog, p) && Run(db, prog).ok && !NoForeignKey(db) && i < |prog| && !Placed(prog[i], db)
    ensures Run(Run(db, prog).db, prog) != Run(db, prog)
  {
    var end := Run(db, prog).db;
    assert Fits(prog[i]);
    MisplacedIsDropped(prog, p, db, prog[i].index);
    SteadyIsHarmless(prog, 0, |prog|, end);
    assert prog[0..|prog|] == prog;
    var m := RunSettles(prog, 0, |prog|, end);
    assert Run(end, prog).ok ==> Idle(prog[i], Run(end, prog).db);
  }

  lemma {:induction false} PlanRebuildsOnce(at: nat -> Value)
    ensures RebuildsAt(Plan(at), |Tables() + Columns()|)
  {
    var schema, end := Tables() + Columns(), [RebuildTestRuns, BackfillSource] + VersionRows(at);
    SchemaPhases();
    PlanParts(at);
    EndPhases(at);
    forall j | 0 <= j < |Plan(at)|
      ensures (j < |schema| ==> Phase(Plan(at)[j]) <= 1) && (j == |schema| ==> Plan(at)[j].RebuildTestRuns?) && (j > |schema| ==> Phase(Plan(at)[j]) >= 3)
    {
      if j >= |schema| {
        assert Plan(at)[j] == end[j - |schema|];
      } else {
        assert Plan(at)[j] == schema[j];
      }
    }
  }

  lemma EndPhases(at: nat -> Value)
    ensures var end := [RebuildTestRuns, BackfillSource] + VersionRows(at);
            end[0].RebuildTestRuns? && forall j :: 0 < j < |end| ==> Phase(end[j]) >= 3
  {
  }

  lemma SchemaPhases()
    ensures forall j :: 0 <= j < |Tables() + Columns()| ==> Phase((Tables() + Columns())[j]) <= 1
  {
    TablesPart();
    ColumnsPart();
  }

  /** A migration that fails has rebuilt nothing, so it fails in the same place and with the same result
      when it is stopped anywhere and started again. */
  lemma {:induction false} FailedConverges(db: Db, at: nat -> Value)
    requires !Run(db, Plan(at)).ok
    ensures Converges(Plan(at), db)
  {
    var prog := Plan(at);
    PlanIsPlanned(at);
    PlanReady(at);
    PlanRebuildsOnce(at);
    assert prog[0..] == prog && prog[..|prog|] == prog;
    FailureIsHarmless(prog, |Tables() + Columns()|, 0, db);
    HarmlessEverywhere(prog, db);
  }

  lemma {:induction false} HarmlessEverywhere(prog: seq<Statement>, db: Db)
    requires Planned(prog) && Harmless(prog, 0, |prog|, db)
    ensures Converges(prog, db)
  {
    forall k: nat | k <= |prog| ensures Restarted(prog, db, k) == Run(db, prog) {
      HarmlessBefore(prog, 0, k, |prog|, db);
      HarmlessConverges(prog, db, k);
    }
  }

  lemma {:induction false} SucceededConvergesIff(db: Db, at: nat -> Value)
    requires Run(db, Plan(at)).ok
    ensures Converges(Plan(at), db) <==> AllPlaced(Plan(at), db) || NoForeignKey(db)
  {
    var prog := Plan(at);
    PlanIsPlanned(at);
    PlanRebuildsOnce(at);
    assert prog[0..] == prog && prog[..|prog|] == prog;
    if Steady(prog, db) {
      SteadyIsHarmless(prog, 0, |prog|, db);
      HarmlessEverywhere(prog, db);
    } else {
      var i :| 0 <= i < |prog| && !Placed(prog[i], db);
      MisplacedNeedsTwoStarts(prog, |Tables() + Columns()|, db, i);
      assert Restarted(prog, db, |prog|) != Run(db, prog);
    }
  }

  /** On every database the migration can be run on, it converges if and only if no index of another
      table sits on `test_runs`, or that table has no old foreign key. */
  lemma {:induction false} ConvergesIff(db: Db, at: nat -> Value)
    requires Usable(db)
    ensures Converges(Plan(at), db) <==> AllPlaced(Plan(at), db) || NoForeignKey(db)
  {
    MigrateSucceeds(db, at);
    SucceededConvergesIff(db, at);
  }

  /** Where the index on builds is created. */
  lemma {:induction false} BuildsIndexInPlan(at: nat -> Value) returns (i: nat)
    ensures i < |Plan(at)| && Plan(at)[i] == CYCLE_TABLES[4]
  {
    var before := DEVICE_TABLES + ACCOUNT_TABLES + TEST_TABLES;
    i := |before| + 4;
    PlanParts(at);
    assert Tables()[i] == CYCLE_TABLES[4];
    assert (Tables() + Columns())[i] == Tables()[i];
  }

  /** A database with the old key on which the index on builds sits on `test_runs`: the migration
      succeeds, and a second start still changes something. */
  lemma {:induction false} MisplacedIndexNeedsTwoStarts(at: nat -> Value, db: Db)
    requires db == Db(map[TestRuns := Table(COPIED, true, map[])], map[CYCLE_TABLES[4].index := TestRuns], map[])
    ensures Run(db, Plan(at)).ok && Run(Run(db, Plan(at)).db, Plan(at)) != Run(db, Plan(at))
  {
    RebuiltUsable(db.tables[TestRuns]);
    assert HasColumns(db.tables[TestRuns], Needed(TestRuns));
    MigrateSucceeds(db, at);
    PlanIsPlanned(at);
    PlanRebuildsOnce(at);
    var i := BuildsIndexInPlan(at);
    assert Plan(at)[i].on == Builds;
    MisplacedNeedsTwoStarts(Plan(at), |Tables() + Columns()|, db, i);
  }
}
