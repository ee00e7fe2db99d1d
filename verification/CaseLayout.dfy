/** What the importer makes of tables it did not export: imported cases are always well formed, every
    row is accounted for, and the result does not depend on how the columns are laid out. */
module CaseLayout {
  import opened Wrappers
  import opened Text
  import opened CaseTable

  // ---- Imported cases are well formed ----

  predicate NoSeparator(s: string) {
    forall i :: 0 <= i < |s| ==> !IsSeparator(s[i])
  }

  lemma ItemIsLabel(s: string)
    requires NoSeparator(s)
    ensures AreLabels(Item(s))
  {
    TrimLeftCuts(s, IsSpace);
    TrimRightCuts(TrimLeft(s, IsSpace), IsSpace);
    TrimIsBare(s, IsSpace);
  }

  lemma {:induction false} ItemsAreLabels(item: string, s: string)
    requires NoSeparator(item)
    ensures AreLabels(Items(item, s))
    decreases |s|
  {
    ItemIsLabel(item);
    if s != [] {
      if IsSeparator(s[0]) {
        ItemsAreLabels("", s[1..]);
      } else {
        ItemsAreLabels(item + [s[0]], s[1..]);
      }
    }
  }

  /** A folder path as the importer leaves it: one folder, forward slashes, none at either end. */
  predicate CleanPath(f: string) {
    Bare(f, IsSlash) && ',' !in f && '\\' !in f
  }

  lemma {:induction false} BeforeCommaStops(s: string)
    ensures BeforeComma(s) <= s && ',' !in BeforeComma(s)
    ensures ',' !in s ==> BeforeComma(s) == s
  {
    if s != [] && s[0] != ',' {
      BeforeCommaStops(s[1..]);
    }
  }

  lemma TrimIsInside(s: string, cut: char -> bool)
    ensures forall c :: c in Trim(s, cut) ==> c in s
  {
    TrimLeftCuts(s, cut);
    TrimRightCuts(TrimLeft(s, cut), cut);
  }

  lemma FolderIsClean(s: string)
    ensures CleanPath(NormalizeFolder(s)) && |NormalizeFolder(s)| <= |s|
  {
    BeforeCommaStops(s);
    var slashed := Slashed(BeforeComma(s));
    TrimIsInside(slashed, IsSpace);
    TrimIsBare(slashed, IsSpace);
    TrimIsInside(TrimSpace(slashed), IsSlash);
    TrimIsBare(TrimSpace(slashed), IsSlash);
    forall c | c in NormalizeFolder(s) ensures c != ',' && c != '\\' {
      assert c in slashed;
    }
  }

  /** Of several folders the first one counts. */
  lemma {:induction false} FirstFolder(first: string, rest: string)
    requires ',' !in first
    ensures NormalizeFolder(first + ("," + rest)) == NormalizeFolder(first)
  {
    BeforeCommaAt(first, rest);
    BeforeCommaStops(first);
  }

  lemma {:induction false} BeforeCommaAt(first: string, rest: string)
    requires ',' !in first
    ensures BeforeComma(first + ("," + rest)) == first
  {
    if first == [] {
      assert first + ("," + rest) == "," + rest;
    } else {
      assert (first + ("," + rest))[1..] == first[1..] + ("," + rest);
      BeforeCommaAt(first[1..], rest);
    }
  }

  predicate IsAnySlash(c: char) {
    c == '/' || c == '\\'
  }

  lemma SlashedConcat(a: string, b: string)
    ensures Slashed(a + b) == Slashed(a) + Slashed(b)
  {
  }

  lemma SlashedSpace(p: string)
    requires forall i :: 0 <= i < |p| ==> IsSpace(p[i])
    ensures Slashed(p) == p
  {
  }

  lemma NoCommaInside(p: string, core: string, q: string)
    requires ',' !in p && ',' !in core && ',' !in q
    ensures ',' !in p + (core + q)
  {
  }

  lemma {:induction false} SpacesGone(p: string, core: string, q: string)
    requires ',' !in p && ',' !in core && ',' !in q && Bare(core, IsSpace)
    requires forall i :: 0 <= i < |p| ==> IsSpace(p[i])
    requires forall i :: 0 <= i < |q| ==> IsSpace(q[i])
    ensures NormalizeFolder(p + (core + q)) == Trim(Slashed(core), IsSlash)
  {
    NoCommaInside(p, core, q);
    BeforeCommaStops(p + (core + q));
    SlashedConcat(p, core + q);
    SlashedConcat(core, q);
    SlashedSpace(p);
    SlashedSpace(q);
    TrimDrops(p, Slashed(core), q, IsSpace);
  }

  lemma {:induction false} SlashesGone(a: string, path: string, b: string)
    requires forall i :: 0 <= i < |a| ==> IsAnySlash(a[i])
    requires forall i :: 0 <= i < |b| ==> IsAnySlash(b[i])
    requires Bare(path, IsAnySlash)
    ensures Trim(Slashed(a + (path + b)), IsSlash) == Slashed(path)
  {
    SlashedConcat(a, path + b);
    SlashedConcat(path, b);
    TrimDrops(Slashed(a), Slashed(path), Slashed(b), IsSlash);
  }

  /** Which path a folder cell stands for: what is left between white space and, inside that, slashes of
      either kind, with every backslash turned. */
  lemma {:induction false} FolderPath(p: string, a: string, path: string, b: string, q: string, f: string)
    requires ',' !in p && ',' !in a + (path + b) && ',' !in q && Bare(a + (path + b), IsSpace)
    requires forall i :: 0 <= i < |p| ==> IsSpace(p[i])
    requires forall i :: 0 <= i < |q| ==> IsSpace(q[i])
    requires forall i :: 0 <= i < |a| ==> a[i] == '/' || a[i] == '\\'
    requires forall i :: 0 <= i < |b| ==> b[i] == '/' || b[i] == '\\'
    requires Bare(path, IsAnySlash)
    requires |f| == |path| && forall i :: 0 <= i < |f| ==> f[i] == if path[i] == '\\' then '/' else path[i]
    ensures NormalizeFolder(p + ((a + (path + b)) + q)) == f
  {
    SpacesGone(p, a + (path + b), q);
    SlashesGone(a, path, b);
    assert f == Slashed(path);
  }

  /** Importing a clean path again keeps it exactly when no space was left behind an outer slash. */
  lemma CleanPathStays(f: string)
    requires CleanPath(f)
    ensures NormalFolder(f) <==> Tidy(f)
  {
    if Tidy(f) {
      TidyTrim(f);
      BeforeCommaStops(f);
      assert Slashed(f) == f;
      TrimFixesBare(f, IsSlash);
    } else {
      TrimIsBare(f, IsSpace);
      TrimFixesBare(f, IsSpace);
      ShorterWhenTrimmed(f);
      FolderIsClean(TrimSpace(f));
    }
  }

  lemma ShorterWhenTrimmed(f: string)
    requires !Tidy(f)
    ensures |TrimSpace(f)| < |f|
  {
    TrimLeftCuts(f, IsSpace);
    TrimRightCuts(TrimLeft(f, IsSpace), IsSpace);
  }

  /** A cell that needs two passes: the space behind the slash survives the first. */
  lemma {:induction false} SpaceBehindSlash(cell: string)
    requires cell == ['/', ' ', 'a']
    ensures NormalizeFolder(cell) == [' ', 'a'] && CleanPath(NormalizeFolder(cell)) && !NormalFolder(NormalizeFolder(cell))
  {
    BeforeCommaStops(cell);
    assert Slashed(cell) == cell;
    TrimFixesBare(cell, IsSpace);
    assert TrimLeft(cell, IsSlash) == [' ', 'a'] by {
      assert cell[1..] == [' ', 'a'];
    }
    CleanPathStays([' ', 'a']);
  }

  predicate TidyCells(r: Cells) {
    && Tidy(r.summary) && Tidy(r.description) && Tidy(r.precondition) && Tidy(r.priority) && Tidy(r.status) && Tidy(r.key)
    && Tidy(r.action) && Tidy(r.data) && Tidy(r.expected)
  }

  predicate AllTidy(rs: seq<Cells>) {
    forall i :: 0 <= i < |rs| ==> TidyCells(rs[i])
  }

  lemma TidyConcat(a: seq<Cells>, b: seq<Cells>)
    requires AllTidy(a) && AllTidy(b)
    ensures AllTidy(a + b)
  {
  }

  lemma GetIsTidy(cols: Columns, row: Row, f: Field)
    ensures Tidy(Get(cols, row, f))
  {
    if f in cols && cols[f] < |row| {
      TrimIsBare(row[cols[f]], IsSpace);
    }
  }

  lemma ReadIsTidy(cols: Columns, row: Row)
    ensures TidyCells(ReadCells(cols, row))
  {
    forall f ensures Tidy(Get(cols, row, f)) {
      GetIsTidy(cols, row, f);
    }
  }

  /** A case being read: as `Tabular`, with steps that are not numbered yet. */
  predicate Draft(c: TestCase) {
    && c.summary != "" && Tidy(c.summary) && Tidy(c.description) && Tidy(c.precondition)
    && Tidy(c.priority) && Tidy(c.status) && Tidy(c.key)
    && AreLabels(c.labels) && AreLabels(c.components) && CleanPath(c.folder)
    && forall i :: 0 <= i < |c.steps| ==> TidyStep(c.steps[i])
  }

  predicate Finished(c: TestCase) {
    Tabular(c) && CleanPath(c.folder)
  }

  predicate AllFinished(cs: seq<TestCase>) {
    forall i :: 0 <= i < |cs| ==> Finished(cs[i])
  }

  predicate Clean(im: Import) {
    AllFinished(im.cases) && (im.current.Some? ==> Draft(im.current.value))
  }

  lemma CaseFromIsDraft(r: Cells)
    requires TidyCells(r) && r.summary != ""
    ensures Draft(CaseFrom(r))
  {
    ItemsAreLabels("", r.labels);
    ItemsAreLabels("", r.components);
    FolderIsClean(r.folder);
  }

  lemma FlushedIsClean(im: Import)
    requires Clean(im)
    ensures Clean(Flushed(im))
  {
  }

  lemma StepKeepsDraft(c: TestCase, st: TestStep)
    requires Draft(c) && TidyStep(st)
    ensures Draft(c.(steps := c.steps + [st]))
  {
  }

  lemma AbsorbIsClean(im: Import, r: Cells)
    requires Clean(im) && TidyCells(r)
    ensures Clean(Absorb(im, r))
  {
    FlushedIsClean(im);
    if r.summary != "" {
      CaseFromIsDraft(r);
    }
    var at := if r.summary != "" then Flushed(im).(current := Some(CaseFrom(r))) else im;
    if HasStep(r) && at.current.Some? {
      StepKeepsDraft(at.current.value, TestStep(0, r.action, r.data, r.expected));
    }
  }

  lemma {:induction false} AbsorbAllIsClean(im: Import, rs: seq<Cells>)
    requires Clean(im) && AllTidy(rs)
    ensures Clean(AbsorbAll(im, rs))
    decreases |rs|
  {
    if rs != [] {
      AbsorbIsClean(im, rs[0]);
      AbsorbAllIsClean(Absorb(im, rs[0]), rs[1..]);
    }
  }

  lemma {:induction false} ViewsAreTidy(cols: Columns, rows: seq<Row>)
    ensures AllTidy(Views(cols, rows))
  {
    if rows != [] {
      ReadIsTidy(cols, rows[0]);
      ViewsAreTidy(cols, rows[1..]);
      TidyConcat(View(cols, rows[0]), Views(cols, rows[1..]));
    }
  }

  /** Whatever the table holds, the imported cases are well formed. */
  lemma {:induction false} ImportsAreFinished(rows: seq<Row>)
    ensures AllFinished(Parsed(rows).cases)
  {
    if rows != [] {
      var cols := ColumnsOf(Claims(rows[0]), |rows[0]|);
      var vs := Views(cols, rows[1..]);
      ViewsAreTidy(cols, rows[1..]);
      AbsorbAllIsClean(START, vs);
      FlushedIsClean(AbsorbAll(START, vs));
    }
  }

  // ---- Lists ----

  lemma {:induction false} ItemsUpTo(item: string, s: string, t: string)
    requires NoSeparator(s)
    ensures Items(item, s + t) == Items(item + s, t)
    decreases |s|
  {
    if s == [] {
      assert s + t == t && item + s == item;
    } else {
      assert (s + t)[1..] == s[1..] + t && item + [s[0]] + s[1..] == item + s;
      ItemsUpTo(item + [s[0]], s[1..], t);
    }
  }

  /** A list without a comma or semicolon is its trimmed text, or empty. */
  lemma {:induction false} ListOfOne(s: string)
    requires ',' !in s && ';' !in s
    ensures SplitList(s) == if TrimSpace(s) == "" then [] else [TrimSpace(s)]
  {
    ItemsUpTo("", s, "");
    assert s + "" == s && "" + s == s;
  }

  /** And one cut at a comma or semicolon is its two parts one after the other. */
  lemma {:induction false} ListOfTwo(s: string, c: char, t: string)
    requires ',' !in s && ';' !in s && c in {',', ';'}
    ensures SplitList(s + ([c] + t)) == SplitList(s) + SplitList(t)
  {
    ItemsUpTo("", s, [c] + t);
    ListOfOne(s);
    assert "" + s == s && ([c] + t)[1..] == t;
  }

  // ---- What an import reads ----

  /** The step a row holds, if any of its three step cells is filled. */
  function StepIn(r: Cells): seq<TestStep> {
    if r.action == "" && r.data == "" && r.expected == "" then [] else [TestStep(0, r.action, r.data, r.expected)]
  }

  /** The steps of the rows up to the next one with a summary. */
  function StepsBelow(rs: seq<Cells>): seq<TestStep> {
    if rs == [] || rs[0].summary != "" then [] else StepIn(rs[0]) + StepsBelow(rs[1..])
  }

  /** The case of a row with a summary, with its own step and those below it. */
  function CaseAt(r: Cells, below: seq<Cells>): TestCase {
    var steps := StepIn(r) + StepsBelow(below);
    TestCase(r.summary, r.description, r.precondition, r.priority, r.status, SplitList(r.labels), SplitList(r.components),
             NormalizeFolder(r.folder), r.key, seq(|steps|, i requires 0 <= i < |steps| => steps[i].(index := i)))
  }

  /** A case per row with a summary, in order. */
  function CasesRead(rs: seq<Cells>): seq<TestCase> {
    if rs == [] then []
    else if rs[0].summary == "" then CasesRead(rs[1..])
    else [CaseAt(rs[0], rs[1..])] + CasesRead(rs[1..])
  }

  /** The importer's state as if the rest of the current case had been read. */
  function Continued(im: Import, rs: seq<Cells>): Import {
    if im.current.None? then im else im.(current := Some(im.current.value.(steps := im.current.value.steps + StepsBelow(rs))))
  }

  lemma FlushedCurrent(im: Import, r: Cells, below: seq<Cells>)
    requires r.summary != "" && im.current == Some(CaseFrom(r).(steps := StepIn(r)))
    ensures Flushed(Continued(im, below)).cases == im.cases + [CaseAt(r, below)]
  {
    var steps := StepIn(r) + StepsBelow(below);
    assert Reindexed(CaseFrom(r).(steps := steps)).steps == CaseAt(r, below).steps;
  }

  lemma AbsorbHead(im: Import, rs: seq<Cells>)
    requires rs != [] && rs[0].summary != ""
    ensures Flushed(Continued(Absorb(im, rs[0]), rs[1..])).cases == Flushed(Continued(im, rs)).cases + [CaseAt(rs[0], rs[1..])]
  {
    var next := Absorb(im, rs[0]);
    assert next.current.value.steps == StepIn(rs[0]);
    FlushedCurrent(next, rs[0], rs[1..]);
    if im.current.Some? {
      assert im.current.value.steps + StepsBelow(rs) == im.current.value.steps;
    }
  }

  lemma AbsorbBelow(im: Import, rs: seq<Cells>)
    requires rs != [] && rs[0].summary == ""
    ensures Flushed(Continued(Absorb(im, rs[0]), rs[1..])).cases == Flushed(Continued(im, rs)).cases
  {
    if im.current.Some? {
      var next := Absorb(im, rs[0]);
      assert next.current.value.steps + StepsBelow(rs[1..]) == im.current.value.steps + StepsBelow(rs);
    }
  }

  lemma {:induction false} AbsorbAllReads(im: Import, rs: seq<Cells>)
    ensures Flushed(AbsorbAll(im, rs)).cases == Flushed(Continued(im, rs)).cases + CasesRead(rs)
    decreases |rs|
  {
    if rs == [] {
      if im.current.Some? {
        assert im.current.value.steps + StepsBelow(rs) == im.current.value.steps;
      }
    } else {
      AbsorbAllReads(Absorb(im, rs[0]), rs[1..]);
      if rs[0].summary != "" {
        AbsorbHead(im, rs);
      } else {
        AbsorbBelow(im, rs);
      }
    }
  }

  /** What the import of a table is: a case for each row with a summary, in order, with that row's cells
      and, as steps, the filled step cells of that row and the rows down to the next summary. */
  lemma {:induction false} ImportReads(rows: seq<Row>)
    requires rows != [] && Summary in ColumnsOf(Claims(rows[0]), |rows[0]|)
    ensures Parsed(rows).cases == CasesRead(Views(ColumnsOf(Claims(rows[0]), |rows[0]|), rows[1..]))
  {
    var vs := Views(ColumnsOf(Claims(rows[0]), |rows[0]|), rows[1..]);
    AbsorbAllReads(START, vs);
  }

  lemma {:induction false} CaseReadFrom(rs: seq<Cells>, j: nat) returns (k: nat)
    requires j < |rs| && rs[j].summary != ""
    ensures k < |CasesRead(rs)| && CasesRead(rs)[k] == CaseAt(rs[j], rs[j + 1..])
  {
    if j == 0 {
      k := 0;
    } else {
      k := CaseReadFrom(rs[1..], j - 1);
      assert rs[1..][j - 1 + 1..] == rs[j + 1..];
      k := if rs[0].summary == "" then k else k + 1;
    }
  }

  /** A row whose folder cell lists several: its case gets the first. */
  lemma {:induction false} FirstFolderImported(rows: seq<Row>, vs: seq<Cells>, j: nat, f: string, rest: string) returns (k: nat)
    requires rows != [] && Summary in ColumnsOf(Claims(rows[0]), |rows[0]|)
    requires vs == Views(ColumnsOf(Claims(rows[0]), |rows[0]|), rows[1..])
    requires j < |vs| && vs[j].summary != "" && vs[j].folder == f + ("," + rest)
    requires ',' !in f && NormalizeFolder(f) == f
    ensures k < |Parsed(rows).cases|
    ensures Parsed(rows).cases[k].summary == vs[j].summary && Parsed(rows).cases[k].folder == f
  {
    ImportReads(rows);
    k := CaseReadFrom(vs, j);
    FirstFolder(f, rest);
  }

  // ---- Every row is accounted for ----

  function Starts(rs: seq<Cells>): nat {
    if rs == [] then 0 else (if rs[0].summary != "" then 1 else 0) + Starts(rs[1..])
  }

  /** Rows that start a case and carry no step. */
  function Stepless(rs: seq<Cells>): nat {
    if rs == [] then 0 else (if rs[0].summary != "" && !HasStep(rs[0]) then 1 else 0) + Stepless(rs[1..])
  }

  /** Rows that start no case and add no step: they have neither summary nor step cells, or step
      cells before the first case. `inCase` says whether a case is being read. */
  function Stray(inCase: bool, rs: seq<Cells>): nat
    decreases |rs|
  {
    if rs == [] then 0
    else
      var inCase' := inCase || rs[0].summary != "";
      (if rs[0].summary == "" && (!HasStep(rs[0]) || !inCase) then 1 else 0) + Stray(inCase', rs[1..])
  }

  function StepsIn(im: Import): nat {
    TotalSteps(im.cases) + if im.current.Some? then |im.current.value.steps| else 0
  }

  function CasesIn(im: Import): nat {
    |im.cases| + if im.current.Some? then 1 else 0
  }

  lemma {:induction false} TotalStepsAppend(cs: seq<TestCase>, c: TestCase)
    ensures TotalSteps(cs + [c]) == TotalSteps(cs) + |c.steps|
  {
    if cs == [] {
      assert cs + [c] == [c];
    } else {
      assert (cs + [c])[1..] == cs[1..] + [c];
      TotalStepsAppend(cs[1..], c);
    }
  }

  lemma FlushKeepsCounts(im: Import)
    ensures StepsIn(Flushed(im)) == StepsIn(im) && CasesIn(Flushed(im)) == CasesIn(im)
    ensures Flushed(im).steps == im.steps && Flushed(im).skipped == im.skipped && Flushed(im).current.None?
  {
    if im.current.Some? {
      TotalStepsAppend(im.cases, Reindexed(im.current.value));
    }
  }

  lemma AbsorbCounts(im: Import, r: Cells)
    requires StepsIn(im) == im.steps
    ensures var at := Absorb(im, r);
            && StepsIn(at) == at.steps
            && CasesIn(at) == CasesIn(im) + (if r.summary != "" then 1 else 0)
            && at.current.Some? == (im.current.Some? || r.summary != "")
            && at.skipped == im.skipped + (if r.summary == "" && (!HasStep(r) || im.current.None?) then 1 else 0)
            && at.steps == im.steps + (if HasStep(r) && at.current.Some? then 1 else 0)
  {
    FlushKeepsCounts(im);
  }

  lemma {:induction false} AbsorbAllCounts(im: Import, rs: seq<Cells>)
    requires StepsIn(im) == im.steps
    ensures var end := AbsorbAll(im, rs);
            && StepsIn(end) == end.steps
            && CasesIn(end) == CasesIn(im) + Starts(rs)
            && end.skipped == im.skipped + Stray(im.current.Some?, rs)
            && |rs| == (end.steps - im.steps) + Stepless(rs) + (end.skipped - im.skipped)
    decreases |rs|
  {
    if rs != [] {
      AbsorbCounts(im, rs[0]);
      AbsorbAllCounts(Absorb(im, rs[0]), rs[1..]);
    }
  }

  /** Every non-blank data row is a step, a case row without a step, or counted as skipped; the
      counters agree with the cases returned. */
  lemma {:induction false} RowsAccounted(rows: seq<Row>)
    requires rows != [] && Summary in ColumnsOf(Claims(rows[0]), |rows[0]|)
    ensures var vs := Views(ColumnsOf(Claims(rows[0]), |rows[0]|), rows[1..]);
            var res := Parsed(rows);
            && |vs| == res.stepsParsed + Stepless(vs) + res.rowsSkipped
            && res.stepsParsed == TotalSteps(res.cases)
            && res.casesParsed == |res.cases| == Starts(vs)
            && res.rowsSkipped == Stray(false, vs)
  {
    var vs := Views(ColumnsOf(Claims(rows[0]), |rows[0]|), rows[1..]);
    AbsorbAllCounts(START, vs);
    FlushKeepsCounts(AbsorbAll(START, vs));
  }

  // ---- Importing again ----

  lemma StepsParsedIsTotal(rows: seq<Row>)
    ensures Parsed(rows).stepsParsed == TotalSteps(Parsed(rows).cases) && Parsed(rows).casesParsed == |Parsed(rows).cases|
  {
    if rows != [] && Summary in ColumnsOf(Claims(rows[0]), |rows[0]|) {
      RowsAccounted(rows);
    }
  }

  lemma SameIfFoldersTidy(cs: seq<TestCase>)
    requires AllFinished(cs)
    ensures AllRefoldered(cs) == cs <==> forall i :: 0 <= i < |cs| ==> Tidy(cs[i].folder)
  {
    forall i | 0 <= i < |cs| ensures Refoldered(cs[i]) == cs[i] <==> Tidy(cs[i].folder) {
      CleanPathStays(cs[i].folder);
    }
    if AllRefoldered(cs) == cs {
      forall i | 0 <= i < |cs| ensures Tidy(cs[i].folder) {
        assert AllRefoldered(cs)[i] == cs[i];
      }
    }
  }

  /** The round trip, exactly: a list of cases comes back from its own export if and only if each is
      well formed and its folder path normal; and then with exact counts, no skip and no warning. */
  lemma {:induction false} RoundTripIff(cs: seq<TestCase>)
    ensures Parsed(Exported(cs)).cases == cs <==> forall i :: 0 <= i < |cs| ==> Tabular(cs[i]) && NormalFolder(cs[i].folder)
    ensures Parsed(Exported(cs)).cases == cs ==> Parsed(Exported(cs)) == Result(cs, |cs|, TotalSteps(cs), 0, [])
  {
    if forall i :: 0 <= i < |cs| ==> Tabular(cs[i]) && NormalFolder(cs[i].folder) {
      RoundTrip(cs);
    }
    if Parsed(Exported(cs)).cases == cs {
      ImportsAreFinished(Exported(cs));
      forall i | 0 <= i < |cs| ensures Tabular(cs[i]) {
        assert Finished(cs[i]);
      }
      ImportOfExport(cs);
      forall i | 0 <= i < |cs| ensures NormalFolder(cs[i].folder) {
        assert AllRefoldered(cs)[i] == cs[i];
      }
    }
  }

  /** Exporting the cases of any import and importing them again changes at most their folder
      paths, loses no step, skips no row and warns of nothing; it changes nothing exactly when no
      folder path has a space at either end. */
  lemma {:induction false} ReimportChangesFoldersOnly(rows: seq<Row>)
    ensures var first := Parsed(rows);
            var again := Parsed(Exported(first.cases));
            && again == Result(AllRefoldered(first.cases), first.casesParsed, first.stepsParsed, 0, [])
            && (again.cases == first.cases <==> forall i :: 0 <= i < |first.cases| ==> Tidy(first.cases[i].folder))
  {
    ImportsAreFinished(rows);
    var cs := Parsed(rows).cases;
    ImportOfExport(cs);
    StepsParsedIsTotal(rows);
    SameIfFoldersTidy(cs);
  }

  // ---- Layout ----

  /** The trimmed cell in column `i`; columns past the end of a row read as empty. */
  function CellAt(row: Row, i: nat): string {
    if i < |row| then TrimSpace(row[i]) else ""
  }

  /** `p` sends each column of the new layout to a column of the old one, using every one. */
  predicate Rearranges(p: seq<nat>) {
    && (forall i :: 0 <= i < |p| ==> p[i] < |p|)
    && forall j: nat :: j < |p| ==> j in p
  }

  function Source(p: seq<nat>, i: nat): nat {
    if i < |p| then p[i] else i
  }

  /** The same row in the new layout. Blank cells at the end may be present or missing in either. */
  ghost predicate RelaidRow(p: seq<nat>, row: Row, row': Row) {
    forall i: nat :: CellAt(row', i) == CellAt(row, Source(p, i))
  }

  ghost predicate Relaid(p: seq<nat>, rows: seq<Row>, rows': seq<Row>) {
    |rows| == |rows'| && forall k :: 0 <= k < |rows| ==> RelaidRow(p, rows[k], rows'[k])
  }

  predicate ClaimedOnce(claims: seq<Option<Field>>) {
    forall i, j :: 0 <= i < j < |claims| && claims[i].Some? ==> claims[i] != claims[j]
  }

  ghost predicate RelaidClaims(p: seq<nat>, claims: seq<Option<Field>>, claims': seq<Option<Field>>) {
    |p| == |claims| == |claims'| && Rearranges(p) && forall i :: 0 <= i < |p| ==> claims'[i] == claims[p[i]]
  }

  lemma BlankByCells(row: Row)
    ensures Blank(row) <==> forall i: nat :: CellAt(row, i) == ""
  {
    if forall i: nat :: CellAt(row, i) == "" {
      forall i | 0 <= i < |row| ensures BlankCell(row[i]) {
        assert CellAt(row, i) == "";
      }
    }
  }

  lemma SourceReaches(p: seq<nat>, j: nat)
    requires Rearranges(p)
    ensures exists i: nat :: Source(p, i) == j
  {
    if j < |p| {
      assert j in p;
      var i :| 0 <= i < |p| && p[i] == j;
      assert Source(p, i) == j;
    } else {
      assert Source(p, j) == j;
    }
  }

  lemma RelaidBlank(p: seq<nat>, row: Row, row': Row)
    requires Rearranges(p) && RelaidRow(p, row, row')
    ensures Blank(row') <==> Blank(row)
  {
    BlankByCells(row);
    BlankByCells(row');
    if Blank(row') {
      forall j: nat ensures CellAt(row, j) == "" {
        SourceReaches(p, j);
        var i: nat :| Source(p, i) == j;
        assert CellAt(row', i) == "";
      }
    }
  }

  /** The column map follows the columns when no field is claimed twice. */
  lemma ColumnFollows(p: seq<nat>, claims: seq<Option<Field>>, claims': seq<Option<Field>>,
                      cols: Columns, cols': Columns, f: Field)
    requires RelaidClaims(p, claims, claims') && ClaimedOnce(claims)
    requires MapsFirst(claims, |claims|, cols) && MapsFirst(claims', |claims'|, cols')
    ensures (f in cols' <==> f in cols) && (f in cols' ==> Source(p, cols'[f]) == cols[f])
  {
    if f in cols {
      var j := cols[f];
      assert claims[j] == Some(f) && j in p;
      var i :| 0 <= i < |p| && p[i] == cols[f];
      assert claims'[i] == Some(f);
    }
    if f in cols' {
      var i := cols'[f];
      assert claims[p[i]] == Some(f);
      assert claims[cols[f]] == Some(f);
    }
  }

  ghost predicate ColumnsFollow(p: seq<nat>, cols: Columns, cols': Columns) {
    forall f: Field :: (f in cols' <==> f in cols) && (f in cols' ==> Source(p, cols'[f]) == cols[f])
  }

  lemma ReadFollows(p: seq<nat>, cols: Columns, cols': Columns, row: Row, row': Row)
    requires RelaidRow(p, row, row') && ColumnsFollow(p, cols, cols')
    ensures ReadCells(cols', row') == ReadCells(cols, row)
  {
  }

  lemma {:induction false} ViewsFollow(p: seq<nat>, cols: Columns, cols': Columns, rows: seq<Row>, rows': seq<Row>)
    requires Rearranges(p) && Relaid(p, rows, rows') && ColumnsFollow(p, cols, cols')
    ensures Views(cols', rows') == Views(cols, rows)
    decreases |rows|
  {
    if rows != [] {
      RelaidBlank(p, rows[0], rows'[0]);
      ReadFollows(p, cols, cols', rows[0], rows'[0]);
      ViewsFollow(p, cols, cols', rows[1..], rows'[1..]);
    }
  }

  ghost predicate SameCases(a: Result, b: Result) {
    a.cases == b.cases && a.casesParsed == b.casesParsed && a.stepsParsed == b.stepsParsed && a.rowsSkipped == b.rowsSkipped
  }

  /** Moving columns around together with their headers, and dropping or adding blank cells at the
      end of rows, leaves the import unchanged if no field is claimed by two headers. */
  lemma {:induction false} LayoutIndependence(p: seq<nat>, header: Row, header': Row, rows: seq<Row>, rows': seq<Row>)
    requires RelaidClaims(p, Claims(header), Claims(header')) && ClaimedOnce(Claims(header))
    requires Relaid(p, rows, rows')
    ensures SameCases(Parsed([header'] + rows'), Parsed([header] + rows))
  {
    var claims, claims' := Claims(header), Claims(header');
    var cols, cols' := ColumnsOf(claims, |claims|), ColumnsOf(claims', |claims'|);
    forall f: Field ensures (f in cols' <==> f in cols) && (f in cols' ==> Source(p, cols'[f]) == cols[f]) {
      ColumnFollows(p, claims, claims', cols, cols', f);
    }
    ViewsFollow(p, cols, cols', rows, rows');
    ParsedBody(header, rows);
    ParsedBody(header', rows');
  }

  function WithoutBlank(rows: seq<Row>): seq<Row> {
    if rows == [] then [] else (if Blank(rows[0]) then [] else [rows[0]]) + WithoutBlank(rows[1..])
  }

  lemma {:induction false} ViewsWithoutBlank(cols: Columns, rows: seq<Row>)
    ensures Views(cols, WithoutBlank(rows)) == Views(cols, rows)
  {
    if rows != [] {
      ViewsWithoutBlank(cols, rows[1..]);
      if Blank(rows[0]) {
        assert WithoutBlank(rows) == WithoutBlank(rows[1..]);
      } else {
        assert WithoutBlank(rows)[1..] == WithoutBlank(rows[1..]);
      }
    }
  }

  /** Blank rows do not matter, wherever they are. */
  lemma {:induction false} BlankRowsIgnored(header: Row, rows: seq<Row>)
    ensures Parsed([header] + WithoutBlank(rows)) == Parsed([header] + rows)
  {
    ViewsWithoutBlank(ColumnsOf(Claims(header), |header|), rows);
    ParsedBody(header, rows);
    ParsedBody(header, WithoutBlank(rows));
  }
}
