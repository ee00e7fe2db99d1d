/** Test cases as a table with one row per step: the exporter that prints them and the importer
    that reads them back. Tables start at the level of string cells; CSV and XLSX bytes are the
    libraries' business. */
module CaseTable {
  import opened Wrappers
  import opened Text

  datatype TestStep = TestStep(index: nat, action: string, data: string, expected: string)

  datatype TestCase = TestCase(
    summary: string, description: string, precondition: string, priority: string, status: string,
    labels: seq<string>, components: seq<string>, folder: string, key: string, steps: seq<TestStep>)

  /** The columns the importer knows. */
  datatype Field =
    | Summary | Description | Precondition | Priority | Status | Labels | Components | Folder | Key
    | StepSummary | TestData | Expected

  type Row = seq<string>

  // ---- Headers ----

  function Aliases(f: Field): seq<string> {
    match f
    case Summary => ["summary", "title", "name", "testcasesummary", "testcasename", "testcase"]
    case Description => ["description", "objective"]
    case Precondition => ["precondition", "preconditions"]
    case Priority => ["priority"]
    case Status => ["status"]
    case Components => ["components", "component"]
    case Labels => ["labels", "label", "tags", "tag"]
    case Folder => ["folder", "folderpath", "path"]
    case Key => ["key", "testcasekey", "testcaseid", "issuekey", "id"]
    case StepSummary => ["stepsummary", "step", "teststep", "action", "stepaction", "stepdescription", "teststepdescription"]
    case TestData => ["testdata", "data", "inputdata", "stepdata", "input"]
    case Expected => ["expectedresult", "expected", "expectedresults", "expectedoutcome"]
  }

  lemma SummaryAliases(g: Field, word: string)
    requires word in Aliases(Summary) && word in Aliases(g)
    ensures Summary == g
  {
  }

  lemma CaseAliases(f: Field, g: Field, word: string)
    requires f in {Description, Precondition, Priority}
    requires word in Aliases(f) && word in Aliases(g)
    ensures f == g
  {
  }

  lemma ListAliases(f: Field, g: Field, word: string)
    requires f in {Status, Labels, Components}
    requires word in Aliases(f) && word in Aliases(g)
    ensures f == g
  {
  }

  lemma PathAliases(f: Field, g: Field, word: string)
    requires f in {Folder, Key}
    requires word in Aliases(f) && word in Aliases(g)
    ensures f == g
  {
  }

  lemma ActionAliases(g: Field, word: string)
    requires word in Aliases(StepSummary) && word in Aliases(g)
    ensures StepSummary == g
  {
  }

  lemma OutcomeAliases(f: Field, g: Field, word: string)
    requires f in {TestData, Expected}
    requires word in Aliases(f) && word in Aliases(g)
    ensures f == g
  {
  }

  /** No word is an alias of two fields. */
  lemma AliasesDisjoint(f: Field, g: Field, word: string)
    requires word in Aliases(f) && word in Aliases(g)
    ensures f == g
  {
    if f == Summary {
      SummaryAliases(g, word);
    } else if f in {Description, Precondition, Priority} {
      CaseAliases(f, g, word);
    } else if f in {Status, Labels, Components} {
      ListAliases(f, g, word);
    } else if f in {Folder, Key} {
      PathAliases(f, g, word);
    } else if f == StepSummary {
      ActionAliases(g, word);
    } else {
      OutcomeAliases(f, g, word);
    }
  }

  predicate IsWordChar(c: char) {
    'a' <= c <= 'z' || '0' <= c <= '9'
  }

  function WordChar(c: char): string {
    if IsWordChar(LowerChar(c)) then [LowerChar(c)] else []
  }

  /** Lower case, letters and digits only: "Fix Version" reads like "fixversion". */
  function NormalizeHeader(h: string): string {
    if h == [] then [] else WordChar(h[0]) + NormalizeHeader(h[1..])
  }

  const FIELDS := [Summary, Description, Precondition, Priority, Status, Labels, Components, Folder, Key, StepSummary, TestData, Expected]

  /** The field a normalized header names, walking the table from field `k` on. */
  function FieldFrom(word: string, k: nat): Option<Field>
    requires k <= |FIELDS|
    decreases |FIELDS| - k
  {
    if k == |FIELDS| then None
    else if word in Aliases(FIELDS[k]) then Some(FIELDS[k])
    else FieldFrom(word, k + 1)
  }

  function FieldOf(word: string): Option<Field> {
    FieldFrom(word, 0)
  }

  lemma {:induction false} FieldFromFinds(word: string, k: nat)
    requires k <= |FIELDS|
    ensures FieldFrom(word, k).Some? ==> word in Aliases(FieldFrom(word, k).value)
    ensures FieldFrom(word, k).None? ==> forall j :: k <= j < |FIELDS| ==> word !in Aliases(FIELDS[j])
    decreases |FIELDS| - k
  {
    if k < |FIELDS| && word !in Aliases(FIELDS[k]) {
      FieldFromFinds(word, k + 1);
    }
  }

  lemma EveryField(f: Field)
    ensures exists j :: 0 <= j < |FIELDS| && FIELDS[j] == f
  {
    assert FIELDS[0] == Summary && FIELDS[1] == Description && FIELDS[2] == Precondition && FIELDS[3] == Priority;
    assert FIELDS[4] == Status && FIELDS[5] == Labels && FIELDS[6] == Components && FIELDS[7] == Folder;
    assert FIELDS[8] == Key && FIELDS[9] == StepSummary && FIELDS[10] == TestData && FIELDS[11] == Expected;
  }

  /** A header names a field exactly when it is one of the field's aliases, because the alias lists
      have no word in common. */
  lemma FieldOfAlias(word: string, f: Field)
    ensures FieldOf(word) == Some(f) <==> word in Aliases(f)
  {
    FieldFromFinds(word, 0);
    EveryField(f);
    if word in Aliases(f) && FieldOf(word).Some? {
      AliasesDisjoint(f, FieldOf(word).value, word);
    }
  }

  /** Which words name a column of a case. */
  lemma CaseColumnWords(word: string)
    ensures FieldOf(word) == Some(Summary) <==> word in {"summary", "title", "name", "testcasesummary", "testcasename", "testcase"}
    ensures FieldOf(word) == Some(Description) <==> word in {"description", "objective"}
    ensures FieldOf(word) == Some(Precondition) <==> word in {"precondition", "preconditions"}
    ensures FieldOf(word) == Some(Priority) <==> word == "priority"
    ensures FieldOf(word) == Some(Status) <==> word == "status"
  {
    FieldOfAlias(word, Summary);
    FieldOfAlias(word, Description);
    FieldOfAlias(word, Precondition);
    FieldOfAlias(word, Priority);
    FieldOfAlias(word, Status);
  }

  lemma ListColumnWords(word: string)
    ensures FieldOf(word) == Some(Labels) <==> word in {"labels", "label", "tags", "tag"}
    ensures FieldOf(word) == Some(Components) <==> word in {"components", "component"}
    ensures FieldOf(word) == Some(Folder) <==> word in {"folder", "folderpath", "path"}
    ensures FieldOf(word) == Some(Key) <==> word in {"key", "testcasekey", "testcaseid", "issuekey", "id"}
  {
    FieldOfAlias(word, Labels);
    FieldOfAlias(word, Components);
    FieldOfAlias(word, Folder);
    FieldOfAlias(word, Key);
  }

  /** Which words name a column of a step. */
  lemma StepColumnWords(word: string)
    ensures FieldOf(word) == Some(StepSummary) <==>
            word in {"stepsummary", "step", "teststep", "action", "stepaction", "stepdescription", "teststepdescription"}
    ensures FieldOf(word) == Some(TestData) <==> word in {"testdata", "data", "inputdata", "stepdata", "input"}
    ensures FieldOf(word) == Some(Expected) <==> word in {"expectedresult", "expected", "expectedresults", "expectedoutcome"}
  {
    FieldOfAlias(word, StepSummary);
    FieldOfAlias(word, TestData);
    FieldOfAlias(word, Expected);
  }

  /** What a header cell is read as, character by character: ASCII letters in lower case and digits, and the
      two other characters whose lower case is an ASCII letter. */
  lemma {:induction false} HeaderCharacter(c: char, h: string)
    ensures NormalizeHeader([c] + h) ==
            (if 'A' <= c <= 'Z' then [(c as int + 32) as char]
             else if 'a' <= c <= 'z' || '0' <= c <= '9' then [c]
             else if c == '\U{130}' then "i" else if c == '\U{212A}' then "k" else "") + NormalizeHeader(h)
  {
    assert ([c] + h)[1..] == h;
  }

  type Columns = map<Field, nat>

  /** What each header cell claims. */
  function Claims(header: Row): (c: seq<Option<Field>>)
    ensures |c| == |header|
  {
    seq(|header|, i requires 0 <= i < |header| => FieldOf(NormalizeHeader(header[i])))
  }

  /** The first `k` claims settled: a field goes to the first column that claims it. */
  ghost predicate MapsFirst(claims: seq<Option<Field>>, k: nat, cols: Columns)
    requires k <= |claims|
  {
    && (forall f :: f in cols ==> cols[f] < k && claims[cols[f]] == Some(f) && Some(f) !in claims[..cols[f]])
    && (forall i :: 0 <= i < k && claims[i].Some? ==> claims[i].value in cols)
  }

  /** The map is determined by the header. */
  lemma MapUnique(claims: seq<Option<Field>>, cols: Columns, cols': Columns)
    requires MapsFirst(claims, |claims|, cols) && MapsFirst(claims, |claims|, cols')
    ensures cols == cols'
  {
  }

  /** Every field occurs in the order in which the alias table happens to be walked. */
  ghost predicate AnyOrder(order: seq<Field>) {
    forall f: Field :: f in order
  }

  /** The walk over the table for one column: the first field in this order that is free and has
      the word. */
  method MatchColumn(word: string, order: seq<Field>, cols: Columns) returns (field: Option<Field>)
    requires AnyOrder(order)
    ensures field == if FieldOf(word).Some? && FieldOf(word).value in cols then None else FieldOf(word)
  {
    for j := 0 to |order|
      invariant forall i :: 0 <= i < j && order[i] !in cols ==> word !in Aliases(order[i])
    {
      if order[j] !in cols && word in Aliases(order[j]) {
        FieldOfAlias(word, order[j]);
        return Some(order[j]);
      }
    }
    if FieldOf(word).Some? {
      FieldOfAlias(word, FieldOf(word).value);
      assert FieldOf(word).value in order;
    }
    return None;
  }

  /** The warnings: columns with a readable header that claim no field, or one already taken. */
  function Unmatched(header: Row, k: nat): seq<string>
    requires k <= |header|
  {
    if k == 0 then []
    else
      var claim := Claims(header)[k - 1];
      Unmatched(header, k - 1)
      + if NormalizeHeader(header[k - 1]) != "" && (claim.None? || claim in Claims(header)[..k - 1])
        then [TrimSpace(header[k - 1])] else []
  }

  lemma {:induction false} UnmatchedNext(header: Row, i: nat, word: string, claims: seq<Option<Field>>)
    requires i < |header| && word == NormalizeHeader(header[i]) && claims == Claims(header)
    ensures Unmatched(header, i + 1) ==
            if word != "" && (claims[i].None? || claims[i] in claims[..i]) then Unmatched(header, i) + [TrimSpace(header[i])]
            else Unmatched(header, i)
  {
  }

  lemma BlankClaimsNothing()
    ensures FieldOf("") == None
  {
    FieldFromFinds("", 0);
  }

  lemma ColumnTaken(claims: seq<Option<Field>>, i: nat, cols: Columns, f: Field)
    requires i < |claims| && MapsFirst(claims, i, cols) && f !in cols && claims[i] == Some(f)
    ensures MapsFirst(claims, i + 1, cols[f := i]) && claims[i] !in claims[..i]
  {
  }

  lemma ColumnPassed(claims: seq<Option<Field>>, i: nat, cols: Columns)
    requires i < |claims| && MapsFirst(claims, i, cols)
    requires claims[i].Some? ==> claims[i].value in cols
    ensures MapsFirst(claims, i + 1, cols)
    ensures claims[i].Some? ==> claims[i] in claims[..i]
  {
  }

  /** One header cell: what it adds to the map and to the warnings. */
  method MapColumn(header: Row, i: nat, order: seq<Field>, before: Columns) returns (cols: Columns, unmatched: seq<string>)
    requires i < |header| && AnyOrder(order) && MapsFirst(Claims(header), i, before)
    ensures MapsFirst(Claims(header), i + 1, cols)
    ensures Unmatched(header, i + 1) == Unmatched(header, i) + unmatched
  {
    ghost var claims := Claims(header);
    BlankClaimsNothing();
    var word := NormalizeHeader(header[i]);
    UnmatchedNext(header, i, word, claims);
    if word == "" {
      ColumnPassed(claims, i, before);
      return before, [];
    }
    var field := MatchColumn(word, order, before);
    if field.None? {
      ColumnPassed(claims, i, before);
      return before, [TrimSpace(header[i])];
    }
    ColumnTaken(claims, i, before, field.value);
    return before[field.value := i], [];
  }

  /** Whatever order the alias table is walked in, every field is mapped to the first column that
      claims it, and the warnings name the columns that got no field. */
  method MapHeaders(header: Row, orders: seq<seq<Field>>) returns (cols: Columns, unmatched: seq<string>)
    requires |orders| == |header| && forall i :: 0 <= i < |orders| ==> AnyOrder(orders[i])
    ensures MapsFirst(Claims(header), |header|, cols)
    ensures unmatched == Unmatched(header, |header|)
  {
    cols, unmatched := map[], [];
    for i := 0 to |header|
      invariant MapsFirst(Claims(header), i, cols)
      invariant unmatched == Unmatched(header, i)
    {
      var more;
      cols, more := MapColumn(header, i, orders[i], cols);
      unmatched := unmatched + more;
    }
  }

  /** The map the header determines, as a function. */
  function ColumnsOf(claims: seq<Option<Field>>, k: nat): (cols: Columns)
    requires k <= |claims|
    ensures MapsFirst(claims, k, cols)
  {
    if k == 0 then map[]
    else
      var before := ColumnsOf(claims, k - 1);
      if claims[k - 1].Some? && claims[k - 1].value !in before then
        ColumnTaken(claims, k - 1, before, claims[k - 1].value);
        before[claims[k - 1].value := k - 1]
      else
        ColumnPassed(claims, k - 1, before);
        before
  }

  // ---- Reading rows ----

  function Get(cols: Columns, row: Row, f: Field): string {
    if f in cols && cols[f] < |row| then TrimSpace(row[cols[f]]) else ""
  }

  /** A data row as the importer sees it. */
  datatype Cells = Cells(
    summary: string, description: string, precondition: string, priority: string, status: string,
    labels: string, components: string, folder: string, key: string,
    action: string, data: string, expected: string)

  function ReadCells(cols: Columns, row: Row): Cells {
    Cells(Get(cols, row, Summary), Get(cols, row, Description), Get(cols, row, Precondition), Get(cols, row, Priority),
          Get(cols, row, Status), Get(cols, row, Labels), Get(cols, row, Components), Get(cols, row, Folder),
          Get(cols, row, Key), Get(cols, row, StepSummary), Get(cols, row, TestData), Get(cols, row, Expected))
  }

  predicate BlankCell(s: string) {
    TrimSpace(s) == ""
  }

  predicate Blank(row: Row) {
    forall i :: 0 <= i < |row| ==> BlankCell(row[i])
  }

  method IsBlankRow(row: Row) returns (blank: bool)
    ensures blank == Blank(row)
  {
    for i := 0 to |row|
      invariant forall j :: 0 <= j < i ==> BlankCell(row[j])
    {
      if !BlankCell(row[i]) {
        return false;
      }
    }
    return true;
  }

  // ---- Lists and folders ----

  predicate IsSeparator(c: char) {
    c == ',' || c == ';'
  }

  /** One item between separators: trimmed, and gone if nothing is left. */
  function Item(s: string): seq<string> {
    var t := TrimSpace(s);
    if t == "" then [] else [t]
  }

  /** `splitList`, reading from the left; `item` is the item being read. */
  function Items(item: string, s: string): seq<string>
    decreases |s|
  {
    if s == [] then Item(item)
    else if IsSeparator(s[0]) then Item(item) + Items("", s[1..])
    else Items(item + [s[0]], s[1..])
  }

  function SplitList(s: string): seq<string> {
    Items("", s)
  }

  /** `strings.FieldsFunc`: the runs between separators. */
  function Fields(field: string, s: string): seq<string>
    decreases |s|
  {
    var done := if field == "" then [] else [field];
    if s == [] then done
    else if IsSeparator(s[0]) then done + Fields("", s[1..])
    else Fields(field + [s[0]], s[1..])
  }

  function Kept(parts: seq<string>): seq<string> {
    if parts == [] then [] else Item(parts[0]) + Kept(parts[1..])
  }

  lemma {:induction false} KeptConcat(a: seq<string>, b: seq<string>)
    requires |a| <= 1
    ensures Kept(a + b) == Kept(a) + Kept(b)
  {
    if a == [] {
      assert a + b == b;
    } else {
      assert (a + b)[1..] == b;
      assert Kept(a) == Item(a[0]);
    }
  }

  lemma {:induction false} KeptFields(item: string, s: string)
    ensures Kept(Fields(item, s)) == Items(item, s)
    decreases |s|
  {
    var done := if item == "" then [] else [item];
    assert Kept(done) == Item(item);
    if s != [] && IsSeparator(s[0]) {
      KeptConcat(done, Fields("", s[1..]));
      KeptFields("", s[1..]);
    } else if s != [] {
      KeptFields(item + [s[0]], s[1..]);
    }
  }

  lemma {:induction false} KeptNext(out: seq<string>, parts: seq<string>, k: nat)
    requires k < |parts|
    ensures out + Kept(parts[k..]) == (out + Item(parts[k])) + Kept(parts[k + 1..])
  {
  }

  /** The loop over the runs, which trims each and drops what is blank. */
  method KeepParts(parts: seq<string>) returns (out: seq<string>)
    ensures out == Kept(parts)
  {
    out := [];
    for k := 0 to |parts|
      invariant out + Kept(parts[k..]) == Kept(parts)
    {
      KeptNext(out, parts, k);
      out := out + Item(parts[k]);
    }
    assert parts[|parts|..] == [];
  }

  method SplitParts(s: string) returns (out: seq<string>)
    ensures out == SplitList(s)
  {
    KeptFields("", s);
    out := KeepParts(Fields("", s));
  }

  function Join(parts: seq<string>): string {
    if parts == [] then "" else if |parts| == 1 then parts[0] else parts[0] + ", " + Join(parts[1..])
  }

  function BeforeComma(s: string): string {
    if s == [] || s[0] == ',' then [] else [s[0]] + BeforeComma(s[1..])
  }

  function Slashed(s: string): (r: string)
    ensures |r| == |s|
  {
    seq(|s|, i requires 0 <= i < |s| => if s[i] == '\\' then '/' else s[i])
  }

  predicate IsSlash(c: char) {
    c == '/'
  }

  /** The first of several folders, with forward slashes and none at either end. */
  function NormalizeFolder(s: string): string {
    Trim(TrimSpace(Slashed(BeforeComma(s))), IsSlash)
  }

  // ---- The repeated-row-per-step algorithm ----

  /** The importer between two rows: finished cases, the case being read, and the counters. */
  datatype Import = Import(cases: seq<TestCase>, current: Option<TestCase>, steps: nat, skipped: nat)

  const START := Import([], None, 0, 0)

  function Reindexed(c: TestCase): TestCase {
    c.(steps := seq(|c.steps|, i requires 0 <= i < |c.steps| => c.steps[i].(index := i)))
  }

  function Flushed(im: Import): Import {
    if im.current.Some? then im.(cases := im.cases + [Reindexed(im.current.value)], current := None) else im
  }

  function CaseFrom(r: Cells): TestCase {
    TestCase(r.summary, r.description, r.precondition, r.priority, r.status,
             SplitList(r.labels), SplitList(r.components), NormalizeFolder(r.folder), r.key, [])
  }

  predicate HasStep(r: Cells) {
    r.action != "" || r.data != "" || r.expected != ""
  }

  /** One non-blank row: a summary starts a case, step cells add a step to the case being read. */
  function Absorb(im: Import, r: Cells): Import {
    var at := if r.summary != "" then Flushed(im).(current := Some(CaseFrom(r))) else im;
    if HasStep(r) then
      if at.current.None? then at.(skipped := at.skipped + 1)
      else
        var c := at.current.value;
        at.(current := Some(c.(steps := c.steps + [TestStep(0, r.action, r.data, r.expected)])), steps := at.steps + 1)
    else if r.summary == "" then at.(skipped := at.skipped + 1)
    else at
  }

  function AbsorbAll(im: Import, rs: seq<Cells>): Import
    decreases |rs|
  {
    if rs == [] then im else AbsorbAll(Absorb(im, rs[0]), rs[1..])
  }

  /** What the importer reads from data rows: blank ones are passed over. */
  function View(cols: Columns, row: Row): seq<Cells> {
    if Blank(row) then [] else [ReadCells(cols, row)]
  }

  function Views(cols: Columns, rows: seq<Row>): seq<Cells> {
    if rows == [] then [] else View(cols, rows[0]) + Views(cols, rows[1..])
  }

  datatype Result = Result(cases: seq<TestCase>, casesParsed: nat, stepsParsed: nat, rowsSkipped: nat, warnings: seq<string>)

  function Warnings(header: Row): seq<string> {
    var us := Unmatched(header, |header|);
    seq(|us|, i requires 0 <= i < |us| => "unmapped column: " + us[i])
  }

  const EMPTY_FILE := "file is empty"
  const NO_SUMMARY := "no Summary/Title column found — cannot import"

  function ResultOf(im: Import, warnings: seq<string>): Result {
    var done := Flushed(im);
    Result(done.cases, |done.cases|, done.steps, done.skipped, warnings)
  }

  function Parsed(rows: seq<Row>): Result {
    if rows == [] then Result([], 0, 0, 0, [EMPTY_FILE])
    else
      var cols := ColumnsOf(Claims(rows[0]), |rows[0]|);
      if Summary !in cols then Result([], 0, 0, 0, Warnings(rows[0]) + [NO_SUMMARY])
      else ResultOf(AbsorbAll(START, Views(cols, rows[1..])), Warnings(rows[0]))
  }

  /** What is said of a file that cannot be imported, and of columns nobody knows. */
  lemma NothingImported(rows: seq<Row>, k: nat)
    ensures rows == [] ==> Parsed(rows) == Result([], 0, 0, 0, ["file is empty"])
    ensures rows != [] && Summary !in ColumnsOf(Claims(rows[0]), |rows[0]|) ==>
              Parsed(rows) == Result([], 0, 0, 0, Warnings(rows[0]) + ["no Summary/Title column found — cannot import"])
    ensures rows != [] ==> |Warnings(rows[0])| == |Unmatched(rows[0], |rows[0]|)|
    ensures rows != [] && k < |Warnings(rows[0])| ==> Warnings(rows[0])[k] == "unmapped column: " + Unmatched(rows[0], |rows[0]|)[k]
  {
  }

  lemma {:induction false} AbsorbOne(im: Import, first: seq<Cells>, rest: seq<Cells>)
    requires |first| <= 1
    ensures AbsorbAll(im, first + rest) == AbsorbAll(if first == [] then im else Absorb(im, first[0]), rest)
  {
    if first == [] {
      assert first + rest == rest;
    } else {
      assert (first + rest)[1..] == rest;
    }
  }

  /** The importer's loop. `orders` is the order in which the alias table is walked per column. */
  method ParseRows(rows: seq<Row>, orders: seq<seq<Field>>) returns (res: Result)
    requires rows != [] ==> |orders| == |rows[0]| && forall i :: 0 <= i < |orders| ==> AnyOrder(orders[i])
    ensures res == Parsed(rows)
  {
    if |rows| == 0 {
      return Result([], 0, 0, 0, [EMPTY_FILE]);
    }
    var cols, unmatched := MapHeaders(rows[0], orders);
    MapUnique(Claims(rows[0]), cols, ColumnsOf(Claims(rows[0]), |rows[0]|));
    var warnings := seq(|unmatched|, i requires 0 <= i < |unmatched| => "unmapped column: " + unmatched[i]);
    if Summary !in cols {
      return Result([], 0, 0, 0, warnings + [NO_SUMMARY]);
    }
    var im := START;
    for k := 1 to |rows|
      invariant AbsorbAll(im, Views(cols, rows[k..])) == AbsorbAll(START, Views(cols, rows[1..]))
    {
      var blank := IsBlankRow(rows[k]);
      assert rows[k..][1..] == rows[k + 1..];
      AbsorbOne(im, View(cols, rows[k]), Views(cols, rows[k + 1..]));
      if !blank {
        im := Absorb(im, ReadCells(cols, rows[k]));
      }
    }
    assert rows[|rows|..] == [];
    im := Flushed(im);
    res := Result(im.cases, |im.cases|, im.steps, im.skipped, warnings);
  }

  // ---- The exporter ----

  function Title(f: Field): string {
    match f
    case Summary => "Summary"
    case Description => "Description"
    case Precondition => "Precondition"
    case Priority => "Priority"
    case Status => "Status"
    case Labels => "Labels"
    case Components => "Components"
    case Folder => "Folder"
    case Key => "Key"
    case StepSummary => "Step Summary"
    case TestData => "Test Data"
    case Expected => "Expected Result"
  }

  /** The twelve titles, in the order of `FIELDS`. */
  function CaseHeader(): (h: Row)
    ensures |h| == |FIELDS|
  {
    seq(|FIELDS|, i requires 0 <= i < |FIELDS| => Title(FIELDS[i]))
  }

  function CaseColumns(c: TestCase): Row {
    [c.summary, c.description, c.precondition, c.priority, c.status, Join(c.labels), Join(c.components), c.folder, c.key]
  }

  function StepRow(caseColumns: Row, st: TestStep): Row {
    caseColumns + [st.action, st.data, st.expected]
  }

  const NO_CASE: Row := ["", "", "", "", "", "", "", "", ""]
  const NO_STEP := TestStep(0, "", "", "")

  /** The rows of one case: its columns with the first step, then a row per further step. */
  function RowsOf(c: TestCase): seq<Row> {
    if c.steps == [] then [StepRow(CaseColumns(c), NO_STEP)]
    else [StepRow(CaseColumns(c), c.steps[0])] + StepRows(c.steps[1..])
  }

  function StepRows(steps: seq<TestStep>): (rows: seq<Row>)
    ensures |rows| == |steps|
  {
    seq(|steps|, i requires 0 <= i < |steps| => StepRow(NO_CASE, steps[i]))
  }

  function BodyRows(cases: seq<TestCase>): seq<Row> {
    if cases == [] then [] else RowsOf(cases[0]) + BodyRows(cases[1..])
  }

  function Exported(cases: seq<TestCase>): seq<Row> {
    [CaseHeader()] + BodyRows(cases)
  }

  lemma RowOfStep(c: TestCase, i: nat)
    requires i < |c.steps|
    ensures |RowsOf(c)| == |c.steps| && RowsOf(c)[i] == StepRow(if i == 0 then CaseColumns(c) else NO_CASE, c.steps[i])
  {
  }

  /** The exporter's inner loop. */
  method RowsForCase(c: TestCase) returns (rows: seq<Row>)
    ensures rows == RowsOf(c)
  {
    var columns := CaseColumns(c);
    if |c.steps| == 0 {
      return [StepRow(columns, NO_STEP)];
    }
    rows := [];
    for i := 0 to |c.steps|
      invariant |rows| == i && forall k :: 0 <= k < i ==> rows[k] == RowsOf(c)[k]
    {
      RowOfStep(c, i);
      if i == 0 {
        rows := rows + [StepRow(columns, c.steps[i])];
      } else {
        rows := rows + [StepRow(NO_CASE, c.steps[i])];
      }
    }
    RowOfStep(c, 0);
  }

  /** The exporter's outer loop. */
  method CaseRows(cases: seq<TestCase>) returns (rows: seq<Row>)
    ensures rows == Exported(cases)
  {
    rows := [CaseHeader()];
    for k := 0 to |cases|
      invariant rows + BodyRows(cases[k..]) == Exported(cases)
    {
      var more := RowsForCase(cases[k]);
      assert cases[k..][1..] == cases[k + 1..];
      rows := rows + more;
    }
    assert cases[|cases|..] == [];
  }

  // ---- Lists survive printing ----

  predicate IsLabel(s: string) {
    s != "" && Bare(s, IsSpace) && forall i :: 0 <= i < |s| ==> !IsSeparator(s[i])
  }

  predicate AreLabels(labels: seq<string>) {
    forall i :: 0 <= i < |labels| ==> IsLabel(labels[i])
  }

  /** Characters before the next separator go to the item being read. */
  lemma {:induction false} ItemsTake(item: string, s: string, rest: string)
    requires forall i :: 0 <= i < |s| ==> !IsSeparator(s[i])
    ensures Items(item, s + rest) == Items(item + s, rest)
    decreases |s|
  {
    if s == [] {
      assert s + rest == rest && item + s == item;
    } else {
      assert (s + rest)[1..] == s[1..] + rest;
      ItemsTake(item + [s[0]], s[1..], rest);
      assert item + [s[0]] + s[1..] == item + s;
    }
  }

  lemma ItemAfterSpace(s: string)
    requires IsLabel(s)
    ensures Item(s) == [s] && Item(" " + s) == [s]
  {
  }

  /** Splitting undoes joining, with or without the blank that follows a comma. */
  lemma {:induction false} SplitJoin(labels: seq<string>)
    requires AreLabels(labels) && labels != []
    ensures Items("", Join(labels)) == labels && Items(" ", Join(labels)) == labels
    decreases |labels|
  {
    var l := labels[0];
    ItemAfterSpace(l);
    if |labels| == 1 {
      ItemsTake("", l, "");
      ItemsTake(" ", l, "");
      assert l + "" == l && "" + l == l;
      assert labels == [l];
    } else {
      var rest := Join(labels[1..]);
      SplitJoin(labels[1..]);
      assert Join(labels) == l + (", " + rest);
      ItemsTake("", l, ", " + rest);
      ItemsTake(" ", l, ", " + rest);
      assert (", " + rest)[1..] == " " + rest && (" " + rest)[1..] == rest;
      assert "" + l == l;
      assert Items(l, ", " + rest) == [l] + Items("", " " + rest);
      assert Items(" " + l, ", " + rest) == [l] + Items("", " " + rest);
      assert Items("", " " + rest) == Items(" ", rest) by { assert "" + [' '] == " "; }
      assert [l] + labels[1..] == labels;
    }
  }

  /** A printed list of labels has no space at either end. */
  lemma {:induction false} JoinIsBare(labels: seq<string>)
    requires AreLabels(labels)
    ensures Bare(Join(labels), IsSpace)
    ensures labels != [] ==> Join(labels) != "" && Join(labels)[0] == labels[0][0]
    decreases |labels|
  {
    if |labels| > 1 {
      JoinIsBare(labels[1..]);
      var j := Join(labels);
      assert j[|j| - 1] == Join(labels[1..])[|Join(labels[1..])| - 1];
    }
  }

  lemma {:induction false} SplitListOfJoin(labels: seq<string>)
    requires AreLabels(labels)
    ensures SplitList(TrimSpace(Join(labels))) == labels
  {
    JoinIsBare(labels);
    TrimFixesBare(Join(labels), IsSpace);
    if labels != [] {
      SplitJoin(labels);
    }
  }

  // ---- The exporter's header is fully understood ----

  lemma {:induction false} NormalizeConcat(a: string, b: string)
    ensures NormalizeHeader(a + b) == NormalizeHeader(a) + NormalizeHeader(b)
  {
    if a == [] {
      assert a + b == b;
    } else {
      assert (a + b)[1..] == a[1..] + b;
      NormalizeConcat(a[1..], b);
    }
  }

  predicate IsWord(w: string) {
    forall i :: 0 <= i < |w| ==> IsWordChar(w[i])
  }

  lemma {:induction false} NormalizeWord(h: string, w: string)
    requires Spells(h, w) && IsWord(w)
    ensures NormalizeHeader(h) == w
  {
    if h != [] {
      NormalizeWord(h[1..], w[1..]);
      assert w == [w[0]] + w[1..];
    }
  }

  lemma {:induction false} NormalizeTwoWords(a: string, b: string, v: string, w: string)
    requires Spells(a, v) && Spells(b, w) && IsWord(v) && IsWord(w)
    ensures NormalizeHeader(a + ([' '] + b)) == v + w
  {
    NormalizeConcat(a, [' '] + b);
    NormalizeWord(a, v);
    NormalizeWord(b, w);
    assert ([' '] + b)[1..] == b;
  }

  lemma {:induction false} ShortWords(h: string, w: string)
    requires (h, w) in {("Summary", "summary"), ("Priority", "priority")}
    ensures NormalizeHeader(h) == w
  {
    assert Spells(h, w) && IsWord(w);
    NormalizeWord(h, w);
  }

  lemma {:induction false} LongWords(h: string, w: string)
    requires (h, w) in {("Description", "description"), ("Precondition", "precondition")}
    ensures NormalizeHeader(h) == w
  {
    assert Spells(h, w) && IsWord(w);
    NormalizeWord(h, w);
  }

  lemma {:induction false} CaseWords(h: string, w: string)
    requires (h, w) in {("Summary", "summary"), ("Description", "description"), ("Precondition", "precondition"), ("Priority", "priority")}
    ensures NormalizeHeader(h) == w
  {
    if h == "Summary" || h == "Priority" {
      ShortWords(h, w);
    } else {
      LongWords(h, w);
    }
  }

  lemma {:induction false} ListWords(h: string, w: string)
    requires (h, w) in {("Status", "status"), ("Labels", "labels"), ("Components", "components"), ("Folder", "folder"), ("Key", "key")}
    ensures NormalizeHeader(h) == w
  {
    assert Spells(h, w) && IsWord(w);
    NormalizeWord(h, w);
  }

  lemma {:induction false} StepWords(h: string, a: string, b: string, v: string, w: string)
    requires (a, b, v, w) in {("Step", "Summary", "step", "summary"), ("Test", "Data", "test", "data"), ("Expected", "Result", "expected", "result")}
    requires h == a + ([' '] + b)
    ensures NormalizeHeader(h) == v + w
  {
    assert Spells(a, v) && Spells(b, w) && IsWord(v) && IsWord(w);
    NormalizeTwoWords(a, b, v, w);
  }

  /** Every title names its own field. */
  lemma TitleNames(f: Field)
    ensures FieldOf(NormalizeHeader(Title(f))) == Some(f)
  {
    if f in {Summary, Description, Precondition, Priority} {
      CaseTitle(f, Title(f), Aliases(f)[0]);
    } else if f in {Status, Labels, Components, Folder, Key} {
      ListTitle(f, Title(f), Aliases(f)[0]);
    } else if f == StepSummary {
      StepSummaryHeader(Title(f));
    } else if f == TestData {
      TestDataHeader(Title(f));
    } else {
      ExpectedHeader(Title(f));
    }
  }

  lemma {:induction false} CaseTitle(f: Field, h: string, w: string)
    requires f in {Summary, Description, Precondition, Priority} && h == Title(f) && w == Aliases(f)[0]
    ensures FieldOf(NormalizeHeader(h)) == Some(f)
  {
    CaseWords(h, w);
    FieldOfAlias(w, f);
  }

  lemma {:induction false} ListTitle(f: Field, h: string, w: string)
    requires f in {Status, Labels, Components, Folder, Key} && h == Title(f) && w == Aliases(f)[0]
    ensures FieldOf(NormalizeHeader(h)) == Some(f)
  {
    ListWords(h, w);
    FieldOfAlias(w, f);
  }

  lemma {:induction false} StepHeader(h: string, f: Field, a: string, b: string, v: string, w: string)
    requires (a, b, v, w) in {("Step", "Summary", "step", "summary"), ("Test", "Data", "test", "data"), ("Expected", "Result", "expected", "result")}
    requires h == a + ([' '] + b) && v + w in Aliases(f)
    ensures FieldOf(NormalizeHeader(h)) == Some(f)
  {
    StepWords(h, a, b, v, w);
    FieldOfAlias(v + w, f);
  }

  lemma {:induction false} StepSummaryHeader(h: string)
    requires h == "Step Summary"
    ensures FieldOf(NormalizeHeader(h)) == Some(StepSummary)
  {
    var v, w := "step", "summary";
    assert v + w == Aliases(StepSummary)[0];
    StepHeader(h, StepSummary, "Step", "Summary", v, w);
  }

  lemma {:induction false} TestDataHeader(h: string)
    requires h == "Test Data"
    ensures FieldOf(NormalizeHeader(h)) == Some(TestData)
  {
    var v, w := "test", "data";
    assert v + w == Aliases(TestData)[0];
    StepHeader(h, TestData, "Test", "Data", v, w);
  }

  lemma {:induction false} ExpectedHeader(h: string)
    requires h == "Expected Result"
    ensures FieldOf(NormalizeHeader(h)) == Some(Expected)
  {
    var v, w := "expected", "result";
    assert v + w == Aliases(Expected)[0];
    StepHeader(h, Expected, "Expected", "Result", v, w);
  }

  const CASE_COLUMNS: Columns :=
    map[Summary := 0, Description := 1, Precondition := 2, Priority := 3, Status := 4, Labels := 5, Components := 6,
        Folder := 7, Key := 8, StepSummary := 9, TestData := 10, Expected := 11]

  /** A header that claims the twelve fields in order is understood completely. */
  lemma {:induction false} Understood(header: Row)
    requires |header| == |FIELDS| && forall i :: 0 <= i < |header| ==> Claims(header)[i] == Some(FIELDS[i])
    ensures ColumnsOf(Claims(header), |header|) == CASE_COLUMNS
    ensures Warnings(header) == []
  {
    var claims := Claims(header);
    CaseColumnsFirst(claims);
    MapUnique(claims, ColumnsOf(claims, |claims|), CASE_COLUMNS);
    NothingUnmatched(header, |header|);
  }

  lemma CaseHeaderUnderstood()
    ensures ColumnsOf(Claims(CaseHeader()), |CaseHeader()|) == CASE_COLUMNS
    ensures Warnings(CaseHeader()) == []
  {
    forall i | 0 <= i < |CaseHeader()| ensures Claims(CaseHeader())[i] == Some(FIELDS[i]) {
      TitleNames(FIELDS[i]);
    }
    Understood(CaseHeader());
  }

  lemma FieldsDistinct(i: nat, j: nat)
    requires i < |FIELDS| && j < |FIELDS| && FIELDS[i] == FIELDS[j]
    ensures i == j
  {
  }

  lemma CaseColumnsFirst(claims: seq<Option<Field>>)
    requires |claims| == |FIELDS| && forall i :: 0 <= i < |claims| ==> claims[i] == Some(FIELDS[i])
    ensures MapsFirst(claims, |claims|, CASE_COLUMNS)
  {
    forall f | f in CASE_COLUMNS
      ensures CASE_COLUMNS[f] < |claims| && claims[CASE_COLUMNS[f]] == Some(f) && Some(f) !in claims[..CASE_COLUMNS[f]]
    {
      forall k | 0 <= k < CASE_COLUMNS[f] ensures claims[k] != Some(f) {
        if claims[k] == Some(f) {
          FieldsDistinct(k, CASE_COLUMNS[f]);
        }
      }
    }
  }

  lemma {:induction false} NothingUnmatched(header: Row, k: nat)
    requires |header| == |FIELDS| && forall i :: 0 <= i < |header| ==> Claims(header)[i] == Some(FIELDS[i])
    requires k <= |header|
    ensures Unmatched(header, k) == []
  {
    if k > 0 {
      NothingUnmatched(header, k - 1);
      var claims := Claims(header);
      forall j | 0 <= j < k - 1 ensures claims[j] != claims[k - 1] {
        if FIELDS[j] == FIELDS[k - 1] {
          FieldsDistinct(j, k - 1);
        }
      }
    }
  }

  // ---- Round trip ----

  predicate Tidy(s: string) {
    Bare(s, IsSpace)
  }

  predicate TidyStep(st: TestStep) {
    Tidy(st.action) && Tidy(st.data) && Tidy(st.expected) && (st.action != "" || st.data != "" || st.expected != "")
  }

  /** What the importer produces, apart from the folder: trimmed fields, a summary, separator-free
      labels, and numbered steps that are not all empty. */
  predicate Tabular(c: TestCase) {
    && c.summary != "" && Tidy(c.summary) && Tidy(c.description) && Tidy(c.precondition)
    && Tidy(c.priority) && Tidy(c.status) && Tidy(c.key)
    && AreLabels(c.labels) && AreLabels(c.components)
    && forall i :: 0 <= i < |c.steps| ==> TidyStep(c.steps[i]) && c.steps[i].index == i
  }

  function Refoldered(c: TestCase): TestCase {
    c.(folder := NormalizeFolder(TrimSpace(c.folder)))
  }

  function Unnumbered(steps: seq<TestStep>): (r: seq<TestStep>)
    ensures |r| == |steps|
  {
    seq(|steps|, i requires 0 <= i < |steps| => steps[i].(index := 0))
  }

  function CellsOf(c: TestCase, st: TestStep): Cells {
    Cells(c.summary, c.description, c.precondition, c.priority, c.status, TrimSpace(Join(c.labels)), TrimSpace(Join(c.components)),
          TrimSpace(c.folder), c.key, st.action, st.data, st.expected)
  }

  function StepCells(st: TestStep): Cells {
    Cells("", "", "", "", "", "", "", "", "", st.action, st.data, st.expected)
  }

  lemma TidyTrim(s: string)
    requires Tidy(s)
    ensures TrimSpace(s) == s
  {
  }

  /** The exporter's column order. */
  predicate Standard(cols: Columns) {
    && (Summary in cols && cols[Summary] == 0) && (Description in cols && cols[Description] == 1)
    && (Precondition in cols && cols[Precondition] == 2) && (Priority in cols && cols[Priority] == 3)
    && (Status in cols && cols[Status] == 4) && (Labels in cols && cols[Labels] == 5)
    && (Components in cols && cols[Components] == 6) && (Folder in cols && cols[Folder] == 7)
    && (Key in cols && cols[Key] == 8) && (StepSummary in cols && cols[StepSummary] == 9)
    && (TestData in cols && cols[TestData] == 10) && (Expected in cols && cols[Expected] == 11)
  }

  lemma ReadStepColumns(cols: Columns, columns: Row, st: TestStep)
    requires Standard(cols) && |columns| == 9 && Tidy(st.action) && Tidy(st.data) && Tidy(st.expected)
    ensures var row := StepRow(columns, st);
            && Get(cols, row, StepSummary) == st.action && Get(cols, row, TestData) == st.data
            && Get(cols, row, Expected) == st.expected
  {
  }

  lemma ReadCaseColumns(cols: Columns, c: TestCase, st: TestStep)
    requires Standard(cols) && Tabular(c)
    ensures var row := StepRow(CaseColumns(c), st);
            && Get(cols, row, Summary) == c.summary && Get(cols, row, Description) == c.description
            && Get(cols, row, Precondition) == c.precondition && Get(cols, row, Priority) == c.priority
            && Get(cols, row, Status) == c.status && Get(cols, row, Labels) == TrimSpace(Join(c.labels))
            && Get(cols, row, Components) == TrimSpace(Join(c.components))
            && Get(cols, row, Folder) == TrimSpace(c.folder) && Get(cols, row, Key) == c.key
  {
  }

  lemma ReadFirstRow(cols: Columns, c: TestCase, st: TestStep)
    requires Standard(cols) && Tabular(c) && Tidy(st.action) && Tidy(st.data) && Tidy(st.expected)
    ensures View(cols, StepRow(CaseColumns(c), st)) == [CellsOf(c, st)]
  {
    ReadCaseColumns(cols, c, st);
    ReadStepColumns(cols, CaseColumns(c), st);
    TidyTrim(c.summary);
    assert !BlankCell(StepRow(CaseColumns(c), st)[0]);
  }

  lemma EmptyColumns(cols: Columns, st: TestStep)
    requires Standard(cols)
    ensures var row := StepRow(NO_CASE, st);
            && Get(cols, row, Summary) == "" && Get(cols, row, Description) == "" && Get(cols, row, Precondition) == ""
            && Get(cols, row, Priority) == "" && Get(cols, row, Status) == "" && Get(cols, row, Labels) == ""
            && Get(cols, row, Components) == "" && Get(cols, row, Folder) == "" && Get(cols, row, Key) == ""
  {
  }

  lemma ReadStepRow(cols: Columns, st: TestStep)
    requires Standard(cols) && TidyStep(st)
    ensures View(cols, StepRow(NO_CASE, st)) == [StepCells(st)]
  {
    EmptyColumns(cols, st);
    ReadStepColumns(cols, NO_CASE, st);
    var row := StepRow(NO_CASE, st);
    assert !BlankCell(row[9]) || !BlankCell(row[10]) || !BlankCell(row[11]);
  }

  lemma CaseFromCells(c: TestCase, st: TestStep)
    requires Tabular(c)
    ensures CaseFrom(CellsOf(c, st)) == Refoldered(c).(steps := [])
  {
    SplitListOfJoin(c.labels);
    SplitListOfJoin(c.components);
  }

  function AllStepCells(steps: seq<TestStep>): (rs: seq<Cells>)
    ensures |rs| == |steps|
  {
    seq(|steps|, i requires 0 <= i < |steps| => StepCells(steps[i]))
  }

  lemma StepRowsNext(steps: seq<TestStep>)
    requires steps != []
    ensures StepRows(steps)[0] == StepRow(NO_CASE, steps[0]) && StepRows(steps)[1..] == StepRows(steps[1..])
    ensures [StepCells(steps[0])] + AllStepCells(steps[1..]) == AllStepCells(steps)
  {
  }

  lemma {:induction false} ViewsOfSteps(cols: Columns, steps: seq<TestStep>)
    requires Standard(cols) && forall i :: 0 <= i < |steps| ==> TidyStep(steps[i])
    ensures Views(cols, StepRows(steps)) == AllStepCells(steps)
    decreases |steps|
  {
    if steps != [] {
      ReadStepRow(cols, steps[0]);
      StepRowsNext(steps);
      ViewsOfSteps(cols, steps[1..]);
    }
  }

  function WithStep(c: TestCase, st: TestStep): TestCase {
    c.(steps := c.steps + [st.(index := 0)])
  }

  lemma AbsorbStep(im: Import, c: TestCase, st: TestStep)
    requires im.current == Some(c) && TidyStep(st)
    ensures Absorb(im, StepCells(st)) == im.(current := Some(WithStep(c, st)), steps := im.steps + 1)
  {
  }

  lemma WithSteps(c: TestCase, steps: seq<TestStep>)
    requires steps != []
    ensures WithStep(c, steps[0]).steps + Unnumbered(steps[1..]) == c.steps + Unnumbered(steps)
  {
  }

  /** Step rows add their steps to the case being read. */
  lemma {:induction false} AbsorbSteps(im: Import, c: TestCase, steps: seq<TestStep>)
    requires im.current == Some(c) && forall i :: 0 <= i < |steps| ==> TidyStep(steps[i])
    ensures AbsorbAll(im, AllStepCells(steps)) ==
            im.(current := Some(c.(steps := c.steps + Unnumbered(steps))), steps := im.steps + |steps|)
    decreases |steps|
  {
    if steps == [] {
      assert c.steps + Unnumbered(steps) == c.steps;
    } else {
      AbsorbStep(im, c, steps[0]);
      assert AllStepCells(steps)[1..] == AllStepCells(steps[1..]);
      AbsorbSteps(im.(current := Some(WithStep(c, steps[0])), steps := im.steps + 1), WithStep(c, steps[0]), steps[1..]);
      WithSteps(c, steps);
    }
  }

  function CaseCells(c: TestCase): seq<Cells> {
    if c.steps == [] then [CellsOf(c, NO_STEP)] else [CellsOf(c, c.steps[0])] + AllStepCells(c.steps[1..])
  }

  lemma {:induction false} ViewsOfCase(cols: Columns, c: TestCase)
    requires Standard(cols) && Tabular(c)
    ensures Views(cols, RowsOf(c)) == CaseCells(c)
  {
    var st := if c.steps == [] then NO_STEP else c.steps[0];
    var rest := if c.steps == [] then [] else c.steps[1..];
    ReadFirstRow(cols, c, st);
    assert RowsOf(c) == [StepRow(CaseColumns(c), st)] + StepRows(rest);
    assert RowsOf(c)[1..] == StepRows(rest);
    ViewsOfSteps(cols, rest);
  }

  lemma AbsorbFirst(im: Import, c: TestCase, st: TestStep)
    requires Tabular(c)
    ensures var at := Flushed(im);
            Absorb(im, CellsOf(c, st)) ==
            if HasStep(CellsOf(c, st))
            then at.(current := Some(Refoldered(c).(steps := [st.(index := 0)])), steps := im.steps + 1)
            else at.(current := Some(Refoldered(c).(steps := [])))
  {
    CaseFromCells(c, st);
    assert [] + [st.(index := 0)] == [st.(index := 0)];
  }

  /** The case being read once all rows of `c` are in. */
  function Reading(c: TestCase): TestCase {
    Refoldered(c).(steps := Unnumbered(c.steps))
  }

  /** The row that begins a case, then its further steps. */
  lemma {:induction false} AbsorbBegun(im: Import, first: Cells, at: Import, c: TestCase, rest: seq<TestStep>)
    requires Absorb(im, first) == at && at.current == Some(c) && forall i :: 0 <= i < |rest| ==> TidyStep(rest[i])
    ensures AbsorbAll(im, [first] + AllStepCells(rest)) ==
            at.(current := Some(c.(steps := c.steps + Unnumbered(rest))), steps := at.steps + |rest|)
  {
    AbsorbOne(im, [first], AllStepCells(rest));
    AbsorbSteps(at, c, rest);
  }

  lemma UnnumberedCons(st: TestStep, rest: seq<TestStep>)
    ensures [st.(index := 0)] + Unnumbered(rest) == Unnumbered([st] + rest)
  {
  }

  lemma {:induction false} AbsorbStepped(im: Import, c: TestCase, st: TestStep, rest: seq<TestStep>)
    requires Tabular(c) && TidyStep(st) && forall i :: 0 <= i < |rest| ==> TidyStep(rest[i])
    ensures AbsorbAll(im, [CellsOf(c, st)] + AllStepCells(rest)) ==
            Flushed(im).(current := Some(Refoldered(c).(steps := Unnumbered([st] + rest))), steps := im.steps + 1 + |rest|)
  {
    AbsorbFirst(im, c, st);
    var begun := Refoldered(c).(steps := [st.(index := 0)]);
    AbsorbBegun(im, CellsOf(c, st), Flushed(im).(current := Some(begun), steps := im.steps + 1), begun, rest);
    UnnumberedCons(st, rest);
  }

  /** The importer once all rows of `c` are in. */
  function Following(im: Import, c: TestCase): Import {
    Flushed(im).(current := Some(Reading(c)), steps := im.steps + |c.steps|)
  }

  lemma {:induction false} AbsorbSteppedCase(im: Import, c: TestCase)
    requires Tabular(c) && c.steps != []
    ensures AbsorbAll(im, CaseCells(c)) == Following(im, c)
  {
    AbsorbStepped(im, c, c.steps[0], c.steps[1..]);
    assert [c.steps[0]] + c.steps[1..] == c.steps;
  }

  /** The rows of a case close the case before it and leave this one as the case being read. */
  lemma {:induction false} AbsorbCase(im: Import, c: TestCase)
    requires Tabular(c)
    ensures AbsorbAll(im, CaseCells(c)) == Following(im, c)
  {
    if c.steps == [] {
      AbsorbFirst(im, c, NO_STEP);
      assert Unnumbered(c.steps) == [];
    } else {
      AbsorbSteppedCase(im, c);
    }
  }

  lemma {:induction false} AbsorbConcat(im: Import, a: seq<Cells>, b: seq<Cells>)
    ensures AbsorbAll(im, a + b) == AbsorbAll(AbsorbAll(im, a), b)
    decreases |a|
  {
    if a == [] {
      assert a + b == b;
    } else {
      assert (a + b)[1..] == a[1..] + b;
      AbsorbConcat(Absorb(im, a[0]), a[1..], b);
    }
  }

  lemma {:induction false} ViewsConcat(cols: Columns, a: seq<Row>, b: seq<Row>)
    ensures Views(cols, a + b) == Views(cols, a) + Views(cols, b)
    decreases |a|
  {
    if a == [] {
      assert a + b == b;
    } else {
      assert (a + b)[1..] == a[1..] + b;
      ViewsConcat(cols, a[1..], b);
    }
  }

  function AllRefoldered(cs: seq<TestCase>): (r: seq<TestCase>)
    ensures |r| == |cs|
  {
    seq(|cs|, i requires 0 <= i < |cs| => Refoldered(cs[i]))
  }

  function TotalSteps(cs: seq<TestCase>): nat {
    if cs == [] then 0 else |cs[0].steps| + TotalSteps(cs[1..])
  }

  lemma RenumberedIsSame(c: TestCase)
    requires forall i :: 0 <= i < |c.steps| ==> c.steps[i].index == i
    ensures Reindexed(c.(steps := Unnumbered(c.steps))) == c
  {
  }

  lemma {:induction false} ViewsOfCaseThen(cols: Columns, c: TestCase, rest: seq<Row>)
    requires Standard(cols) && Tabular(c)
    ensures Views(cols, RowsOf(c) + rest) == CaseCells(c) + Views(cols, rest)
  {
    ViewsConcat(cols, RowsOf(c), rest);
    ViewsOfCase(cols, c);
  }

  lemma {:induction false} AbsorbCaseThen(im: Import, c: TestCase, cells: seq<Cells>, more: seq<Cells>)
    requires Tabular(c) && cells == CaseCells(c)
    ensures AbsorbAll(im, cells + more) == AbsorbAll(Following(im, c), more)
  {
    AbsorbConcat(im, cells, more);
    AbsorbCase(im, c);
  }

  lemma FlushReading(im: Import, c: TestCase, n: nat)
    requires Tabular(c)
    ensures Flushed(im.(current := Some(Reading(c)), steps := n)) == im.(cases := im.cases + [Refoldered(c)], current := None, steps := n)
  {
    RenumberedIsSame(Refoldered(c));
  }

  /** The import after all of `cs`, read from the state `im`. */
  function Holding(im: Import, cs: seq<TestCase>): Import {
    Import(Flushed(im).cases + AllRefoldered(cs), None, im.steps + TotalSteps(cs), im.skipped)
  }

  lemma HoldingNext(im: Import, cs: seq<TestCase>)
    requires cs != [] && Tabular(cs[0])
    ensures Holding(Following(im, cs[0]), cs[1..]) == Holding(im, cs)
  {
    FlushReading(Flushed(im), cs[0], im.steps + |cs[0].steps|);
    var before := Flushed(im).cases;
    assert (before + [Refoldered(cs[0])]) + AllRefoldered(cs[1..]) == before + AllRefoldered(cs);
  }

  lemma {:induction false} BodyNext(cs: seq<TestCase>)
    requires cs != []
    ensures BodyRows(cs) == RowsOf(cs[0]) + BodyRows(cs[1..])
  {
  }

  lemma HoldingNothing(im: Import)
    ensures Flushed(im) == Holding(im, [])
  {
  }

  lemma {:induction false} AbsorbCases(im: Import, cols: Columns, cs: seq<TestCase>)
    requires Standard(cols) && forall i :: 0 <= i < |cs| ==> Tabular(cs[i])
    ensures Flushed(AbsorbAll(im, Views(cols, BodyRows(cs)))) == Holding(im, cs)
    decreases |cs|
  {
    if cs == [] {
      HoldingNothing(im);
    } else {
      BodyNext(cs);
      ViewsOfCaseThen(cols, cs[0], BodyRows(cs[1..]));
      AbsorbCaseThen(im, cs[0], CaseCells(cs[0]), Views(cols, BodyRows(cs[1..])));
      AbsorbCases(Following(im, cs[0]), cols, cs[1..]);
      HoldingNext(im, cs);
    }
  }

  /** The import of a header and the rows below it. */
  lemma {:induction false} ParsedBody(header: Row, rows: seq<Row>)
    ensures var cols := ColumnsOf(Claims(header), |header|);
            Parsed([header] + rows) ==
            if Summary !in cols then Result([], 0, 0, 0, Warnings(header) + [NO_SUMMARY])
            else ResultOf(AbsorbAll(START, Views(cols, rows)), Warnings(header))
  {
  }

  lemma {:induction false} HoldingFromStart(cs: seq<TestCase>)
    ensures Holding(START, cs) == Import(AllRefoldered(cs), None, TotalSteps(cs), 0)
  {
  }

  lemma {:induction false} ImportUnder(header: Row, cols: Columns, cs: seq<TestCase>)
    requires forall i :: 0 <= i < |cs| ==> Tabular(cs[i])
    requires ColumnsOf(Claims(header), |header|) == cols && Standard(cols) && Warnings(header) == []
    ensures Parsed([header] + BodyRows(cs)) == Result(AllRefoldered(cs), |cs|, TotalSteps(cs), 0, [])
  {
    ParsedBody(header, BodyRows(cs));
    AbsorbCases(START, cols, cs);
    HoldingFromStart(cs);
  }

  lemma CaseColumnsStandard()
    ensures Standard(CASE_COLUMNS)
  {
  }

  /** Importing an export gives back the cases with their folder paths normalized, all of their
      steps, no skipped row and no warning. */
  lemma {:induction false} ImportOfExport(cs: seq<TestCase>)
    requires forall i :: 0 <= i < |cs| ==> Tabular(cs[i])
    ensures Parsed(Exported(cs)) == Result(AllRefoldered(cs), |cs|, TotalSteps(cs), 0, [])
  {
    CaseHeaderUnderstood();
    CaseColumnsStandard();
    ImportUnder(CaseHeader(), CASE_COLUMNS, cs);
  }

  /** A folder path that importing leaves alone. */
  predicate NormalFolder(f: string) {
    NormalizeFolder(TrimSpace(f)) == f
  }

  /** Round trip: well-formed cases come back exactly. */
  lemma {:induction false} RoundTrip(cs: seq<TestCase>)
    requires forall i :: 0 <= i < |cs| ==> Tabular(cs[i]) && NormalFolder(cs[i].folder)
    ensures Parsed(Exported(cs)) == Result(cs, |cs|, TotalSteps(cs), 0, [])
  {
    ImportOfExport(cs);
    assert AllRefoldered(cs) == cs;
  }
}
