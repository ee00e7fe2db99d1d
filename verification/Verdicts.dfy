/** Verdicts on case runs: how the cycle executor classifies a case, how the JUnit export and the
    insights page read the stored run afterwards, and how the counts add up. */
module Verdicts {
  import opened Text

  /** A stored step. `number` is the step number the agent gave: it only picks the text, is not stored
      by itself, and no step of the program looks at it afterwards. */
  datatype Step = Step(index: nat, number: int, text: string, status: string, detail: string)

  const PASS := "pass"
  const FAIL := "fail"
  const BLOCKED := "blocked"

  datatype Category = Pass | Fail | Blocked | NotRun

  /** A stored case run, as far as verdicts look at it. */
  datatype CaseRun = CaseRun(steps: seq<Step>, status: string, passed: bool, error: string)

  predicate HasStatus(steps: seq<Step>, status: string) {
    exists i :: 0 <= i < |steps| && steps[i].status == status
  }

  // ---- Classification ----

  predicate AdmitsFailure(terminal: string) {
    var low := Lower(terminal);
    Contains(low, "fail") || Contains(low, "block") || Contains(low, "could not")
  }

  /** What the executor makes of a case: `agentErr` is the agent call's error, `expected` the number
      of steps the case defines. */
  function Classify(steps: seq<Step>, expected: nat, agentErr: bool, terminal: string): Category {
    if agentErr || HasStatus(steps, FAIL) then Fail
    else if steps == [] then (if AdmitsFailure(terminal) then Fail else Blocked)
    else if |steps| < expected || HasStatus(steps, BLOCKED) then Blocked
    else Pass
  }

  predicate SpellsAt(text: string, word: string, i: nat) {
    i + |word| <= |text| && Spells(text[i..i + |word|], word)
  }

  /** The word stands somewhere in the text, in any case. */
  ghost predicate Mentions(text: string, word: string) {
    exists i: nat :: SpellsAt(text, word, i)
  }

  predicate StandsAt(s: string, part: string, i: nat) {
    i + |part| <= |s| && s[i..i + |part|] == part
  }

  lemma {:induction false} ContainsAt(s: string, part: string)
    ensures Contains(s, part) <==> exists i: nat :: StandsAt(s, part, i)
    decreases |s|
  {
    if part <= s {
      assert StandsAt(s, part, 0);
    } else if s != [] {
      ContainsAt(s[1..], part);
      if i: nat :| StandsAt(s[1..], part, i) {
        assert StandsAt(s, part, i + 1);
      }
      if i: nat :| StandsAt(s, part, i) {
        assert i > 0 && StandsAt(s[1..], part, i - 1);
      }
    }
  }

  lemma {:induction false} LowerOfSlice(text: string, i: nat, j: nat)
    requires i <= j <= |text|
    ensures Lower(text)[i..j] == Lower(text[i..j])
    decreases j
  {
    if i > 0 {
      LowerOfSlice(text[1..], i - 1, j - 1);
      assert text[1..][i - 1..j - 1] == text[i..j] && Lower(text)[1..] == Lower(text[1..]);
      assert Lower(text)[1..][i - 1..j - 1] == Lower(text)[i..j];
    } else if j > 0 {
      LowerOfSlice(text[1..], 0, j - 1);
      assert text[..j][1..] == text[1..][0..j - 1] && Lower(text)[..j] == [LowerChar(text[0])] + Lower(text[1..])[0..j - 1];
    }
  }

  lemma {:induction false} LowerContains(text: string, word: string)
    ensures Contains(Lower(text), word) <==> Mentions(text, word)
  {
    ContainsAt(Lower(text), word);
    forall i: nat ensures StandsAt(Lower(text), word, i) <==> SpellsAt(text, word, i) {
      if i + |word| <= |text| {
        LowerOfSlice(text, i, i + |word|);
        LowerIsSpelling(text[i..i + |word|], word);
      }
    }
  }

  /** A summary admits a failure exactly if it has one of three words in it, in any case. */
  lemma {:induction false} AdmitsFailureIff(terminal: string)
    ensures AdmitsFailure(terminal) <==> Mentions(terminal, "fail") || Mentions(terminal, "block") || Mentions(terminal, "could not")
  {
    LowerContains(terminal, "fail");
    LowerContains(terminal, "block");
    LowerContains(terminal, "could not");
  }

  /** The scan over the reported steps, as the executor runs it. */
  method ClassifyCase(steps: seq<Step>, expected: nat, agentErr: bool, terminal: string)
    returns (category: Category, passed: bool)
    ensures category == Classify(steps, expected, agentErr, terminal)
    ensures passed <==> category == Pass
    ensures passed <==> EvidenceComplete(steps, expected, agentErr)
    ensures category == Fail <==>
            || agentErr || (exists k :: 0 <= k < |steps| && steps[k].status == "fail")
            || (steps == [] && (Mentions(terminal, "fail") || Mentions(terminal, "block") || Mentions(terminal, "could not")))
    ensures category == Blocked <==>
            category != Fail && (steps == [] || |steps| < expected || exists k :: 0 <= k < |steps| && steps[k].status == "blocked")
    ensures category != NotRun
  {
    AdmitsFailureIff(terminal);
    if agentErr {
      return Fail, false;
    }
    var hasFail, hasBlocked := false, false;
    for k := 0 to |steps|
      invariant hasFail <==> HasStatus(steps[..k], FAIL)
      invariant hasBlocked <==> HasStatus(steps[..k], BLOCKED)
    {
      StatusOfPrefix(steps, k, FAIL);
      StatusOfPrefix(steps, k, BLOCKED);
      if steps[k].status == FAIL {
        hasFail := true;
      } else if steps[k].status == BLOCKED {
        hasBlocked := true;
      }
    }
    assert steps[..|steps|] == steps;
    if hasFail {
      return Fail, false;
    }
    if |steps| == 0 {
      if AdmitsFailure(terminal) {
        return Fail, false;
      }
      return Blocked, false;
    }
    if expected > 0 && |steps| < expected {
      return Blocked, false;
    }
    if hasBlocked {
      return Blocked, false;
    }
    return Pass, true;
  }

  lemma StatusOfPrefix(steps: seq<Step>, k: nat, status: string)
    requires k < |steps|
    ensures HasStatus(steps[..k + 1], status) <==> HasStatus(steps[..k], status) || steps[k].status == status
  {
  }

  /** The evidence that makes a case green: no agent error, at least one step and at least as many
      as the case defines, none failed and none blocked. */
  predicate EvidenceComplete(steps: seq<Step>, expected: nat, agentErr: bool) {
    !agentErr && 0 < |steps| && expected <= |steps| && !HasStatus(steps, FAIL) && !HasStatus(steps, BLOCKED)
  }

  /** No green without evidence, and no evidence without green. */
  lemma PassNeedsEvidence(steps: seq<Step>, expected: nat, agentErr: bool, terminal: string)
    ensures Classify(steps, expected, agentErr, terminal) == Pass <==> EvidenceComplete(steps, expected, agentErr)
  {
  }

  // ---- Which steps were reported ----

  function Numbers(steps: seq<Step>): (r: seq<int>)
    ensures |r| == |steps|
  {
    seq(|steps|, i requires 0 <= i < |steps| => steps[i].number)
  }

  /** Every step of a case with `n` steps has a report. */
  ghost predicate AllReported(steps: seq<Step>, n: nat) {
    forall k {:trigger k in Numbers(steps)} :: 1 <= k <= n ==> k in Numbers(steps)
  }

  function Upto(n: nat): set<int> {
    if n == 0 then {} else Upto(n - 1) + {n}
  }

  lemma {:induction false} SizeOfUpto(n: nat)
    ensures |Upto(n)| == n && forall k :: k in Upto(n) <==> 1 <= k <= n
  {
    if n > 0 {
      SizeOfUpto(n - 1);
    }
  }

  /** The different numbers among the first `n` that occur. */
  function Named(ns: seq<int>, n: nat): set<int> {
    if ns == [] then {}
    else
      var last := ns[|ns| - 1];
      Named(ns[..|ns| - 1], n) + if 1 <= last <= n then {last} else {}
  }

  lemma {:induction false} NamedHas(ns: seq<int>, n: nat, k: int)
    ensures k in Named(ns, n) <==> 1 <= k <= n && k in ns
  {
    if ns != [] {
      NamedHas(ns[..|ns| - 1], n, k);
      assert ns == ns[..|ns| - 1] + [ns[|ns| - 1]];
    }
  }

  lemma {:induction false} SubsetSize<T>(a: set<T>, b: set<T>)
    requires a <= b
    ensures |a| <= |b| && (|a| == |b| ==> a == b)
    decreases |a|
  {
    if x :| x in a {
      SubsetSize(a - {x}, b - {x});
      if |a| == |b| {
        assert a == (a - {x}) + {x} && b == (b - {x}) + {x};
      }
    } else {
      assert a == {};
    }
  }

  /** Every step was reported if and only if the reports name as many different steps of the case as
      it has. */
  lemma {:induction false} AllReportedIffCounted(steps: seq<Step>, n: nat)
    ensures AllReported(steps, n) <==> |Named(Numbers(steps), n)| == n
    ensures |Named(Numbers(steps), n)| <= n
  {
    var ns := Numbers(steps);
    SizeOfUpto(n);
    forall k ensures k in Named(ns, n) <==> k in Upto(n) && k in ns {
      NamedHas(ns, n, k);
    }
    SubsetSize(Named(ns, n), Upto(n));
    if AllReported(steps, n) {
      forall k | k in Upto(n) ensures k in Named(ns, n) {
      }
      assert Named(ns, n) == Upto(n);
    }
  }

  /** Each number names a step of the case, and no two the same. */
  predicate OneEach(ns: seq<int>, n: nat) {
    && (forall i :: 0 <= i < |ns| ==> 1 <= ns[i] <= n)
    && (forall i, j :: 0 <= i < j < |ns| ==> ns[i] != ns[j])
  }

  lemma OneEachSnoc(init: seq<int>, last: int, n: nat)
    ensures OneEach(init + [last], n) <==> OneEach(init, n) && 1 <= last <= n && last !in init
  {
    var ns := init + [last];
    if OneEach(ns, n) {
      assert forall i :: 0 <= i < |init| ==> init[i] == ns[i];
      assert ns[|init|] == last;
    }
  }

  lemma {:induction false} NamedAtMostLength(ns: seq<int>, n: nat)
    ensures |Named(ns, n)| <= |ns| && (|Named(ns, n)| == |ns| <==> OneEach(ns, n))
    decreases |ns|
  {
    if ns != [] {
      var init, last := ns[..|ns| - 1], ns[|ns| - 1];
      assert ns == init + [last];
      NamedAtMostLength(init, n);
      NamedHas(init, n, last);
      OneEachSnoc(init, last, n);
    }
  }

  /** With exactly as many reports as steps: every step was reported if and only if each report names
      a step of the case and none is named twice. */
  lemma {:induction false} AllReportedIffOneEach(steps: seq<Step>, n: nat)
    requires |steps| == n
    ensures AllReported(steps, n) <==> OneEach(Numbers(steps), n)
  {
    AllReportedIffCounted(steps, n);
    NamedAtMostLength(Numbers(steps), n);
  }

  /** The promise on a pass, that every expected step was reported and all passed: of a case that is
      green it holds exactly when its reports name as many different steps as it has. The number of
      reports alone, which is what the code compares, is never too small. */
  lemma {:induction false} PassReportsAllIff(steps: seq<Step>, n: nat, agentErr: bool, terminal: string)
    requires Classify(steps, n, agentErr, terminal) == Pass
    ensures AllReported(steps, n) <==> |Named(Numbers(steps), n)| == n
    ensures |steps| == n ==> (AllReported(steps, n) <==> OneEach(Numbers(steps), n))
    ensures |Named(Numbers(steps), n)| <= n <= |steps|
  {
    AllReportedIffCounted(steps, n);
    if |steps| == n {
      AllReportedIffOneEach(steps, n);
    }
  }

  // ---- Reported statuses ----

  /** What `report_step_result` stores for a status the agent wrote. */
  function StoredStatus(reported: string): string {
    var s := Lower(TrimSpace(reported));
    if s == FAIL || s == BLOCKED then s else PASS
  }

  predicate AllSpace(s: string) {
    forall i :: 0 <= i < |s| ==> IsSpace(s[i])
  }

  /** The text is that word in any case, with nothing but space around it. */
  ghost predicate Says(text: string, word: string) {
    exists i, j :: 0 <= i <= j <= |text| && AllSpace(text[..i]) && AllSpace(text[j..]) && Spells(text[i..j], word)
  }

  lemma {:induction false} LowerIsSpelling(core: string, word: string)
    ensures Lower(core) == word <==> Spells(core, word)
  {
    if core != [] && word != [] {
      LowerIsSpelling(core[1..], word[1..]);
      assert word == [word[0]] + word[1..];
      if Spells(core[1..], word[1..]) {
        assert forall i :: 1 <= i < |word| ==> core[i] == core[1..][i - 1] && word[i] == word[1..][i - 1];
      }
    }
  }

  lemma {:induction false} SpaceAround(p: string, core: string, q: string)
    requires AllSpace(p) && AllSpace(q) && core != [] && !IsSpace(core[0]) && !IsSpace(core[|core| - 1])
    ensures TrimSpace(p + (core + q)) == core
  {
    TrimDrops(p, core, q, IsSpace);
  }

  predicate NoSpaceIn(word: string) {
    forall i :: 0 <= i < |word| ==> 'a' <= word[i] <= 'z'
  }

  lemma SpellingHasNoSpace(core: string, word: string, i: nat)
    requires Spells(core, word) && NoSpaceIn(word) && i < |core|
    ensures !IsSpace(core[i])
  {
  }

  lemma {:induction false} TrimmedSays(text: string, word: string)
    requires word != "" && NoSpaceIn(word)
    ensures Lower(TrimSpace(text)) == word <==> Says(text, word)
  {
    var core := TrimSpace(text);
    LowerIsSpelling(core, word);
    var left := TrimLeft(text, IsSpace);
    TrimLeftCuts(text, IsSpace);
    TrimRightCuts(left, IsSpace);
    if Spells(core, word) {
      var i := |text| - |left|;
      var j := i + |core|;
      assert core == text[i..j];
      assert forall k :: j <= k < |text| ==> text[k] == left[k - i];
    }
    if Says(text, word) {
      SaysTrims(text, word);
    }
  }

  lemma {:induction false} SpellingTrims(p: string, core: string, q: string, word: string)
    requires AllSpace(p) && AllSpace(q) && word != "" && NoSpaceIn(word) && Spells(core, word)
    ensures TrimSpace(p + (core + q)) == core
  {
    SpellingHasNoSpace(core, word, 0);
    SpellingHasNoSpace(core, word, |core| - 1);
    SpaceAround(p, core, q);
  }

  lemma {:induction false} SaysTrims(text: string, word: string)
    requires word != "" && NoSpaceIn(word) && Says(text, word)
    ensures Spells(TrimSpace(text), word)
  {
    var i, j :| 0 <= i <= j <= |text| && AllSpace(text[..i]) && AllSpace(text[j..]) && Spells(text[i..j], word);
    assert text == text[..i] + (text[i..j] + text[j..]);
    SpellingTrims(text[..i], text[i..j], text[j..], word);
  }

  /** Which words are stored as what: a failure exactly if the agent wrote "fail" in any case with
      space around it, blocked likewise, and every other text whatsoever as a pass. */
  lemma {:induction false} StatusStored(text: string)
    ensures StoredStatus(text) == FAIL <==> Says(text, FAIL)
    ensures StoredStatus(text) == BLOCKED <==> Says(text, BLOCKED)
    ensures StoredStatus(text) == PASS <==> !Says(text, FAIL) && !Says(text, BLOCKED)
  {
    TrimmedSays(text, FAIL);
    TrimmedSays(text, BLOCKED);
  }

  /** So "failed" is stored as a pass. */
  lemma FailedIsStoredAsPass()
    ensures StoredStatus("failed") == PASS
  {
  }

  // ---- Reading a stored run ----

  /** The JUnit verdict. */
  function ExportVerdict(r: CaseRun): Category {
    if r.passed then Pass else if HasStatus(r.steps, FAIL) then Fail else Blocked
  }

  /** The insights verdict, with its scans in order. */
  method RunStatus(r: CaseRun) returns (v: Category)
    ensures v == ExportVerdict(r)
    ensures v == Pass <==> r.passed
    ensures v == Fail <==> !r.passed && exists k :: 0 <= k < |r.steps| && r.steps[k].status == "fail"
    ensures v == Blocked <==> !r.passed && forall k :: 0 <= k < |r.steps| ==> r.steps[k].status != "fail"
  {
    if r.passed {
      return Pass;
    }
    for k := 0 to |r.steps|
      invariant forall i :: 0 <= i < k ==> r.steps[i].status != FAIL
    {
      if r.steps[k].status == FAIL {
        return Fail;
      }
    }
    if |r.steps| == 0 && r.status == "" {
      return Blocked;
    }
    for k := 0 to |r.steps| {
      if r.steps[k].status == BLOCKED {
        return Blocked;
      }
    }
    return Blocked;
  }

  /** What the executor stores after classifying. */
  function Closed(r: CaseRun, expected: nat, agentErr: bool, terminal: string, detail: string): CaseRun {
    var passed := Classify(r.steps, expected, agentErr, terminal) == Pass;
    r.(passed := passed, status := if passed then "passed" else "failed", error := if detail != "" then detail else r.error)
  }

  /** What is stored of a classified case: its steps as they were, passed exactly on complete evidence, a
      status word that says the same, and a new error text if there is one. */
  lemma ClosedTells(r: CaseRun, expected: nat, agentErr: bool, terminal: string, detail: string)
    ensures var c := Closed(r, expected, agentErr, terminal, detail);
            && c.steps == r.steps && (c.passed <==> EvidenceComplete(r.steps, expected, agentErr))
            && (c.passed ==> c.status == "passed") && (!c.passed ==> c.status == "failed")
            && (detail == "" ==> c.error == r.error) && (detail != "" ==> c.error == detail)
  {
    PassNeedsEvidence(r.steps, expected, agentErr, terminal);
  }

  /** Later readers see the executor's category, except that a failure without a failed step (an
      agent error, or a summary that admits failure) reads as blocked. */
  lemma ReadersAgree(r: CaseRun, expected: nat, agentErr: bool, terminal: string, detail: string)
    ensures var category := Classify(r.steps, expected, agentErr, terminal);
            var seen := ExportVerdict(Closed(r, expected, agentErr, terminal, detail));
            && (seen == category <==> !(category == Fail && !HasStatus(r.steps, FAIL)))
            && (seen != category ==> category == Fail && seen == Blocked && (agentErr || r.steps == []))
  {
  }

  // ---- Counting ----

  function Count(cs: seq<Category>, c: Category): nat {
    if cs == [] then 0 else (if cs[0] == c then 1 else 0) + Count(cs[1..], c)
  }

  lemma {:induction false} CountAppend(cs: seq<Category>, x: Category, c: Category)
    ensures Count(cs + [x], c) == Count(cs, c) + (if x == c then 1 else 0)
  {
    if cs == [] {
      assert cs + [x] == [x];
    } else {
      assert (cs + [x])[1..] == cs[1..] + [x];
      CountAppend(cs[1..], x, c);
    }
  }

  lemma {:induction false} CountsCover(cs: seq<Category>)
    ensures Count(cs, Pass) + Count(cs, Fail) + Count(cs, Blocked) + Count(cs, NotRun) == |cs|
  {
    if cs != [] {
      CountsCover(cs[1..]);
    }
  }

  lemma {:induction false} CountZero(cs: seq<Category>, c: Category)
    ensures Count(cs, c) == 0 <==> forall i :: 0 <= i < |cs| ==> cs[i] != c
  {
    if cs != [] {
      CountZero(cs[1..], c);
      assert forall i :: 1 <= i < |cs| ==> cs[i] == cs[1..][i - 1];
    }
  }

  function VerdictsOf(runs: seq<CaseRun>): seq<Category> {
    seq(|runs|, i requires 0 <= i < |runs| => ExportVerdict(runs[i]))
  }

  /** The counters of the JUnit document: every case run is a test, and each test is clean, failed
      or skipped. */
  method JUnitCounts(runs: seq<CaseRun>) returns (tests: nat, failures: nat, skipped: nat)
    ensures tests == |runs|
    ensures failures == Count(VerdictsOf(runs), Fail) && skipped == Count(VerdictsOf(runs), Blocked)
    ensures tests - failures - skipped == Count(VerdictsOf(runs), Pass)
  {
    tests, failures, skipped := |runs|, 0, 0;
    ghost var vs := VerdictsOf(runs);
    for k := 0 to |runs|
      invariant failures == Count(vs[..k], Fail) && skipped == Count(vs[..k], Blocked)
    {
      assert vs[..k + 1] == vs[..k] + [vs[k]];
      CountAppend(vs[..k], vs[k], Fail);
      CountAppend(vs[..k], vs[k], Blocked);
      match ExportVerdict(runs[k])
      case Fail => failures := failures + 1;
      case Blocked => skipped := skipped + 1;
      case _ =>
    }
    assert vs[..|runs|] == vs;
    CountsCover(vs);
    CountZero(vs, NotRun);
  }

  // ---- Case health ----

  datatype TimedRun = TimedRun(startedAt: int, run: CaseRun)

  datatype Health = Health(runs: nat, pass: nat, fail: nat, blocked: nat, flips: nat, flaky: bool, last: Category)

  const MAX_HISTORY: nat := 20

  predicate OldestFirst(runs: seq<TimedRun>) {
    forall i, j :: 0 <= i < j < |runs| ==> runs[i].startedAt <= runs[j].startedAt
  }

  /** `window` holds the latest runs, at most twenty, oldest first; `older` is the rest. */
  ghost predicate LatestRuns(runs: seq<TimedRun>, older: seq<TimedRun>, window: seq<TimedRun>) {
    && multiset(older) + multiset(window) == multiset(runs)
    && |window| == (if |runs| <= 20 then |runs| else 20)
    && OldestFirst(window)
    && forall o, w :: 0 <= o < |older| && 0 <= w < |window| ==> older[o].startedAt <= window[w].startedAt
  }

  function Seen(window: seq<TimedRun>): seq<Category> {
    seq(|window|, i requires 0 <= i < |window| => ExportVerdict(window[i].run))
  }

  /** Status changes between consecutive runs. */
  function Flips(vs: seq<Category>): nat {
    if |vs| < 2 then 0 else Flips(vs[..|vs| - 1]) + (if vs[|vs| - 1] != vs[|vs| - 2] then 1 else 0)
  }

  lemma InsertedInOrder(sorted: seq<TimedRun>, at: nat, x: TimedRun)
    requires at <= |sorted| && OldestFirst(sorted)
    requires at > 0 ==> sorted[at - 1].startedAt <= x.startedAt
    requires forall i :: at <= i < |sorted| ==> x.startedAt <= sorted[i].startedAt
    ensures OldestFirst(sorted[..at] + [x] + sorted[at..])
  {
  }

  lemma InsertedOnce(sorted: seq<TimedRun>, at: nat, x: TimedRun)
    requires at <= |sorted|
    ensures multiset(sorted[..at] + [x] + sorted[at..]) == multiset(sorted) + multiset{x}
  {
    assert sorted == sorted[..at] + sorted[at..];
  }

  /** One round of the sort: the next run goes in behind those that are not later. */
  lemma {:induction false} SortedFurther(runs: seq<TimedRun>, k: nat, sorted: seq<TimedRun>, at: nat)
    requires k < |runs| && multiset(sorted) == multiset(runs[..k]) && |sorted| == k && OldestFirst(sorted) && at <= |sorted|
    requires forall i :: at <= i < |sorted| ==> sorted[i].startedAt > runs[k].startedAt
    requires 0 < at ==> sorted[at - 1].startedAt <= runs[k].startedAt
    ensures var more := sorted[..at] + [runs[k]] + sorted[at..];
            multiset(more) == multiset(runs[..k + 1]) && |more| == k + 1 && OldestFirst(more)
  {
    InsertedInOrder(sorted, at, runs[k]);
    InsertedOnce(sorted, at, runs[k]);
    assert runs[..k + 1] == runs[..k] + [runs[k]];
  }

  method SortByStart(runs: seq<TimedRun>) returns (sorted: seq<TimedRun>)
    ensures multiset(sorted) == multiset(runs) && |sorted| == |runs| && OldestFirst(sorted)
  {
    sorted := [];
    for k := 0 to |runs|
      invariant multiset(sorted) == multiset(runs[..k]) && |sorted| == k && OldestFirst(sorted)
    {
      var at := |sorted|;
      while 0 < at && sorted[at - 1].startedAt > runs[k].startedAt
        invariant 0 <= at <= |sorted|
        invariant forall i :: at <= i < |sorted| ==> sorted[i].startedAt > runs[k].startedAt
      {
        at := at - 1;
      }
      SortedFurther(runs, k, sorted, at);
      sorted := sorted[..at] + [runs[k]] + sorted[at..];
    }
    assert runs[..|runs|] == runs;
  }

  /** Counters over a window, oldest first, as the loop keeps them. */
  method Summarize(recent: seq<TimedRun>) returns (h: Health)
    ensures h.runs == |recent| && h.pass + h.fail + h.blocked == h.runs
    ensures h.pass == Count(Seen(recent), Pass) && h.fail == Count(Seen(recent), Fail)
    ensures h.flips == Flips(Seen(recent))
    ensures h.flaky <==> Flips(Seen(recent)) >= 2 && 0 < Count(Seen(recent), Pass) < |recent|
    ensures recent != [] ==> h.last == Seen(recent)[|recent| - 1]
  {
    var pass, fail, blocked, flips := 0, 0, 0, 0;
    var last := NotRun;
    ghost var vs := Seen(recent);
    for k := 0 to |recent|
      invariant pass == Count(vs[..k], Pass) && fail == Count(vs[..k], Fail)
      invariant pass + fail + blocked == k
      invariant flips == Flips(vs[..k])
      invariant k > 0 ==> last == vs[k - 1]
    {
      var status := RunStatus(recent[k].run);
      assert vs[..k + 1] == vs[..k] + [status];
      CountAppend(vs[..k], status, Pass);
      CountAppend(vs[..k], status, Fail);
      FlipsAppend(vs[..k], status);
      match status {
        case Pass => pass := pass + 1;
        case Blocked => blocked := blocked + 1;
        case _ => fail := fail + 1;
      }
      if k > 0 && last != status {
        flips := flips + 1;
      }
      last := status;
    }
    assert vs[..|recent|] == vs;
    h := Health(|recent|, pass, fail, blocked, flips, flips >= 2 && pass > 0 && fail + blocked > 0, last);
  }

  /** One case's summary covers its latest runs, at most twenty, and its counters add up to them. */
  method CaseHealth(runs: seq<TimedRun>) returns (h: Health, ghost older: seq<TimedRun>, ghost window: seq<TimedRun>)
    ensures LatestRuns(runs, older, window)
    ensures h.runs == |window| && h.pass + h.fail + h.blocked == h.runs
    ensures h.pass == Count(Seen(window), Pass) && h.fail == Count(Seen(window), Fail)
    ensures h.flips == Flips(Seen(window))
    ensures h.flaky <==> Flips(Seen(window)) >= 2 && 0 < Count(Seen(window), Pass) < |window|
    ensures window != [] ==> h.last == Seen(window)[|window| - 1]
  {
    var sorted := SortByStart(runs);
    var cut := if |sorted| > MAX_HISTORY then |sorted| - MAX_HISTORY else 0;
    older, window := sorted[..cut], sorted[cut..];
    assert sorted == older + window;
    h := Summarize(sorted[cut..]);
  }

  lemma {:induction false} FlipsAppend(vs: seq<Category>, v: Category)
    ensures Flips(vs + [v]) == Flips(vs) + (if vs != [] && vs[|vs| - 1] != v then 1 else 0)
  {
  }

  /** A case that always ends the same way is not flaky. */
  lemma {:induction false} SteadyNeverFlips(vs: seq<Category>)
    ensures Flips(vs) == 0 <==> forall i :: 0 < i < |vs| ==> vs[i] == vs[i - 1]
  {
    if |vs| >= 2 {
      var front := vs[..|vs| - 1];
      SteadyNeverFlips(front);
      assert forall i :: 0 < i < |front| ==> (front[i] == front[i - 1] <==> vs[i] == vs[i - 1]);
      assert (forall i :: 0 < i < |vs| ==> vs[i] == vs[i - 1]) <==>
             (forall i :: 0 < i < |front| ==> front[i] == front[i - 1]) && vs[|vs| - 1] == vs[|vs| - 2];
    }
  }
}
