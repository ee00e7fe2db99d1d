/** Runs of the cycle engine from its initial state, put together from longer stretches: a cycle run
    that takes its device, a case that is opened, reports that are handled, a case that is closed. */
module CycleScenarios {
  import opened Wrappers
  import opened Verdicts
  import opened CycleEngine

  /** Start a cycle run and pass the guard of a free device. */
  function Started(s: State, d: Device, cases: seq<string>): State {
    s.(threads := s.threads + [Thread(d, cases, Between, [], NO_TOTALS.(cases := |cases|), NO_TOTALS, Running)],
       running := s.running[d := |s.threads|])
  }

  lemma {:induction false} StartCycle(s: State, run: seq<Action>, mid: State, d: Device, cases: seq<string>) returns (more: seq<Action>)
    requires Reaches(s, run, mid) && d !in mid.running
    ensures Reaches(s, more, Started(mid, d, cases))
  {
    var t := |mid.threads|;
    var m1 := Next(mid, Start(d, cases));
    ReachesNext(s, run, mid, Start(d, cases));
    ReachesNext(s, run + [Start(d, cases)], m1, Guard(t));
    assert Next(m1, Guard(t)).threads == Started(mid, d, cases).threads;
    more := run + [Start(d, cases)] + [Guard(t)];
  }

  predicate AtNextCase(s: State, t: Tid) {
    t < |s.threads| && s.threads[t].phase.Between? && |s.threads[t].done| < |s.threads[t].cases|
  }

  /** Read the next case, open its row, make the device active and bind it. */
  function CaseOpened(s: State, t: Tid, texts: seq<string>): State
    requires AtNextCase(s, t)
  {
    var th, c := s.threads[t], |s.rows|;
    s.(threads := s.threads[t := th.(phase := Calling(c, |texts|))], rows := s.rows + [NEW_ROW],
       owners := s.owners + [(t, |th.done|)], active := Some(th.device), bound := s.bound[th.device := Binding(c, texts)])
  }

  /** Four steps, one after the other. */
  lemma {:induction false} FourSteps(s: State, run: seq<Action>, m0: State, a: Action, m1: State, b: Action, m2: State,
                                     c: Action, m3: State, d: Action, m4: State)
    requires Reaches(s, run, m0) && Steps(m0, a, m1) && Steps(m1, b, m2) && Steps(m2, c, m3) && Steps(m3, d, m4)
    ensures Reaches(s, run + [a] + [b] + [c] + [d], m4)
  {
    ReachesNext(s, run, m0, a);
    ReachesNext(s, run + [a], m1, b);
    ReachesNext(s, run + [a] + [b], m2, c);
    ReachesNext(s, run + [a] + [b] + [c], m3, d);
  }

  predicate Steps(s: State, a: Action, n: State) {
    Enabled(s, a) && Next(s, a) == n
  }

  function WithThread(s: State, t: Tid, p: Phase): State
    requires t < |s.threads|
  {
    s.(threads := s.threads[t := s.threads[t].(phase := p)])
  }

  lemma {:induction false} OpenCase(s: State, run: seq<Action>, mid: State, t: Tid, texts: seq<string>) returns (more: seq<Action>)
    requires Reaches(s, run, mid) && AtNextCase(mid, t)
    ensures Reaches(s, more, CaseOpened(mid, t, texts))
  {
    var th, c := mid.threads[t], |mid.rows|;
    var m1 := WithThread(mid, t, Fetched(texts));
    var m2 := WithThread(mid, t, Opened(c, texts)).(rows := mid.rows + [NEW_ROW], owners := mid.owners + [(t, |th.done|)]);
    var m3 := WithThread(m2, t, Activated(c, texts)).(active := Some(th.device));
    assert Steps(mid, Fetch(t, Some(texts)), m1);
    OpenedRow(m1, t, texts, m2);
    assert Steps(m2, Activate(t), m3);
    BoundCase(m3, t, CaseOpened(mid, t, texts));
    FourSteps(s, run, mid, Fetch(t, Some(texts)), m1, Open(t, true), m2, Activate(t), m3, Bind(t), CaseOpened(mid, t, texts));
    more := run + [Fetch(t, Some(texts))] + [Open(t, true)] + [Activate(t)] + [Bind(t)];
  }

  lemma OpenedRow(m: State, t: Tid, texts: seq<string>, n: State)
    requires t < |m.threads| && m.threads[t].phase == Fetched(texts)
    requires n == WithThread(m, t, Opened(|m.rows|, texts)).(rows := m.rows + [NEW_ROW], owners := m.owners + [(t, |m.threads[t].done|)])
    ensures Steps(m, Open(t, true), n)
  {
  }

  lemma BoundCase(m: State, t: Tid, n: State)
    requires t < |m.threads| && m.threads[t].phase.Activated?
    requires var p := m.threads[t].phase;
             n == WithThread(m, t, Calling(p.cid, |p.texts|)).(bound := m.bound[m.threads[t].device := Binding(p.cid, p.texts)])
    ensures Steps(m, Bind(t), n)
  {
  }

  predicate AtCall(s: State, t: Tid) {
    t < |s.threads| && s.threads[t].phase.Calling? && s.threads[t].phase.cid < |s.rows|
  }

  /** The agent call returns, and the case is classified on the steps its row holds. */
  function CaseClosed(s: State, t: Tid, agentErr: bool, terminal: string, detail: string): State
    requires AtCall(s, t)
  {
    var th := s.threads[t];
    var c, n := th.phase.cid, th.phase.expected;
    s.(threads := s.threads[t := Counted(th, Ran(c, s.rows[c].steps, n, agentErr, terminal))], bound := s.bound - {th.device},
       rows := s.rows[c := Closed(s.rows[c], n, agentErr, terminal, detail)])
  }

  lemma {:induction false} CloseCase(s: State, run: seq<Action>, mid: State, t: Tid, agentErr: bool, terminal: string, detail: string)
    returns (more: seq<Action>)
    requires Reaches(s, run, mid) && AtCall(mid, t)
    ensures Reaches(s, more, CaseClosed(mid, t, agentErr, terminal, detail))
  {
    var back := AgentReturns(t, agentErr, terminal);
    var c, n := mid.threads[t].phase.cid, mid.threads[t].phase.expected;
    var m1 := WithThread(mid, t, Returned(c, n, agentErr, terminal));
    var m2 := WithThread(mid, t, Unbound(c, n, agentErr, terminal)).(bound := mid.bound - {mid.threads[t].device});
    var m3 := WithThread(m2, t, Reloaded(c, n, agentErr, terminal, mid.rows[c]));
    assert Steps(mid, back, m1);
    Cleared(m1, t, m2);
    assert Steps(m2, Reload(t, true), m3);
    Classified(m3, t, detail, CaseClosed(mid, t, agentErr, terminal, detail));
    FourSteps(s, run, mid, back, m1, Unbind(t), m2, Reload(t, true), m3, Record(t, detail), CaseClosed(mid, t, agentErr, terminal, detail));
    more := run + [back] + [Unbind(t)] + [Reload(t, true)] + [Record(t, detail)];
  }

  lemma Cleared(m: State, t: Tid, n: State)
    requires t < |m.threads| && m.threads[t].phase.Returned?
    requires var p := m.threads[t].phase;
             n == WithThread(m, t, Unbound(p.cid, p.expected, p.agentErr, p.terminal)).(bound := m.bound - {m.threads[t].device})
    ensures Steps(m, Unbind(t), n)
  {
  }

  lemma Classified(m: State, t: Tid, detail: string, n: State)
    requires t < |m.threads| && m.threads[t].phase.Reloaded? && m.threads[t].phase.cid < |m.rows|
    requires var p := m.threads[t].phase;
             n == m.(threads := m.threads[t := Counted(m.threads[t], Ran(p.cid, p.row.steps, p.expected, p.agentErr, p.terminal))],
                     rows := m.rows[p.cid := Closed(p.row, p.expected, p.agentErr, p.terminal, detail)])
    ensures Steps(m, Record(t, detail), n)
  {
  }

  /** A report that is handled from end to end. */
  lemma {:induction false} HandleReport(run: seq<Action>, mid: State, issuer: Option<Cid>, body: Body) returns (more: seq<Action>)
    requires Reaches(INITIAL, run, mid) && Enabled(mid, Begin(issuer, body))
    ensures Reaches(INITIAL, more, Handled(mid, issuer, body, None))
  {
    ValidAfter(INITIAL, run);
    var handling := HandlerRun(mid, issuer, body, None);
    ReachesThen(INITIAL, run, mid, handling, Handled(mid, issuer, body, None));
    more := run + handling;
  }

  lemma {:induction false} FinishCycle(s: State, run: seq<Action>, mid: State, t: Tid) returns (more: seq<Action>)
    requires Reaches(s, run, mid) && Enabled(mid, Finish(t))
    ensures Reaches(s, more, Next(mid, Finish(t)))
  {
    ReachesNext(s, run, mid, Finish(t));
    more := run + [Finish(t)];
  }

  /** A cycle run with one case, whose agent call returns in good order on complete evidence, passes. */
  lemma {:induction false} PassOnlyCase(run: seq<Action>, mid: State, t: Tid) returns (more: seq<Action>, s: State)
    requires Reaches(INITIAL, run, mid) && AtCall(mid, t)
    requires var th := mid.threads[t];
             && |th.cases| == 1 && th.done == [] && th.totals == NO_TOTALS.(cases := 1)
             && EvidenceComplete(mid.rows[th.phase.cid].steps, th.phase.expected, false)
    ensures Reaches(INITIAL, more, s)
    ensures var p := mid.threads[t].phase;
            && |s.threads| == |mid.threads| && s.threads[t].status == Passed
            && s.threads[t].done == [Ran(p.cid, mid.rows[p.cid].steps, p.expected, false, "")]
            && s.reports == mid.reports && s.owners == mid.owners
  {
    var p := mid.threads[t].phase;
    var o := Ran(p.cid, mid.rows[p.cid].steps, p.expected, false, "");
    more := CloseCase(INITIAL, run, mid, t, false, "", "");
    var s1 := CaseClosed(mid, t, false, "", "");
    assert s1.threads[t] == Counted(mid.threads[t], o) && [] + [o] == [o];
    PassNeedsEvidence(o.evidence, o.expected, false, "");
    more := FinishCycle(INITIAL, more, s1, t);
    s := Next(s1, Finish(t));
  }

  /** The state at the agent of the only case of a new cycle run. */
  lemma {:induction false} CallOnlyCase(run: seq<Action>, mid: State, d: Device, name: string, texts: seq<string>)
    returns (more: seq<Action>, s: State)
    requires Reaches(INITIAL, run, mid) && d !in mid.running
    ensures Reaches(INITIAL, more, s)
    ensures var t, c := |mid.threads|, |mid.rows|;
            && s.threads == mid.threads + [Thread(d, [name], Calling(c, |texts|), [], NO_TOTALS.(cases := 1), NO_TOTALS, Running)]
            && s.rows == mid.rows + [NEW_ROW] && s.owners == mid.owners + [(t, 0)] && s.reports == mid.reports
            && s.active == Some(d) && s.bound == mid.bound[d := Binding(c, texts)] && s.running == mid.running[d := t]
  {
    more := StartCycle(INITIAL, run, mid, d, [name]);
    var s1 := Started(mid, d, [name]);
    more := OpenCase(INITIAL, more, s1, |mid.threads|, texts);
    s := CaseOpened(s1, |mid.threads|, texts);
  }

  /** A report while a device is active and bound: one more step in the bound run. */
  lemma {:induction false} StepReported(run: seq<Action>, mid: State, d: Device, issuer: Cid, body: Body) returns (more: seq<Action>, s: State)
    requires Reaches(INITIAL, run, mid) && mid.active == Some(d) && d in mid.bound && mid.bound[d].cid < |mid.rows| && issuer < |mid.rows|
    ensures Reaches(INITIAL, more, s)
    ensures var b := mid.bound[d];
            s == mid.(reports := mid.reports + [Report(Some(issuer), body, Recorded(b))],
                      rows := mid.rows[b.cid := Appended(mid.rows[b.cid], body, b.texts)])
  {
    more := HandleReport(run, mid, Some(issuer), body);
    s := Handled(mid, Some(issuer), body, None);
  }

  /** The active device is one variable for all runs: with two devices executing, the step that the
      first one's agent reports is stored in the second one's case run. */
  lemma {:induction false} StepLandsInOtherRun(d: Device, e: Device, name: string, text: string, body: Body) returns (run: seq<Action>, s: State)
    requires d != e
    ensures Reaches(INITIAL, run, s)
    ensures |s.reports| == 1 && s.reports[0].issuer == Some(0) && s.reports[0].phase.Recorded?
    ensures |s.rows| == 2 && s.rows[0].steps == [] && |s.rows[1].steps| == 1
    ensures s.owners == [(0, 0), (1, 0)] && |s.threads| == 2 && s.threads[0].device == d && s.threads[1].device == e
    ensures s.threads[0].phase.Calling? && s.threads[1].phase.Calling?
  {
    var s1, s2;
    run, s1 := CallOnlyCase([], INITIAL, d, name, [text]);
    run, s2 := CallOnlyCase(run, s1, e, name, [text]);
    run, s := StepReported(run, s2, e, 0, body);
  }

  /** The first cycle run of the late report: its agent call times out, its device is released. */
  lemma {:induction false} TimedOut(d: Device, name: string, text: string) returns (run: seq<Action>, s: State)
    ensures Reaches(INITIAL, run, s)
    ensures |s.threads| == 1 && s.threads[0].status == Failed && s.reports == [] && d !in s.running
    ensures |s.rows| == 1 && s.owners == [(0, 0)]
  {
    var s1;
    run, s1 := CallOnlyCase([], INITIAL, d, name, [text]);
    run := CloseCase(INITIAL, run, s1, 0, true, "", "");
    var s2 := CaseClosed(s1, 0, true, "", "");
    run, s := FailAndRelease(run, s2, d);
  }

  lemma {:induction false} FailAndRelease(run: seq<Action>, mid: State, d: Device) returns (more: seq<Action>, s: State)
    requires Reaches(INITIAL, run, mid) && Enabled(mid, Finish(0)) && mid.threads[0].totals.fail > 0 && mid.threads[0].device == d
    ensures Reaches(INITIAL, more, s) && |s.threads| == |mid.threads| && s.threads[0].status == Failed
    ensures s.reports == mid.reports && s.rows == mid.rows && s.owners == mid.owners && d !in s.running
  {
    more := FinishCycle(INITIAL, run, mid, 0);
    var s1 := Next(mid, Finish(0));
    ReachesNext(INITIAL, more, s1, Action.Release(0));
    more := more + [Action.Release(0)];
    s := Next(s1, Action.Release(0));
  }

  /** Steps stored as passes are neither failures nor blocked. */
  lemma PassingSteps(steps: seq<Step>)
    requires forall i :: 0 <= i < |steps| ==> steps[i].status == PASS
    ensures !HasStatus(steps, FAIL) && !HasStatus(steps, BLOCKED)
  {
  }

  /** An agent whose call timed out goes on reporting, and makes the next cycle run on the device green:
      its only case passes on one report, sent by the agent of the case run before. */
  lemma {:induction false} LateReportMakesGreen(d: Device, name: string, text: string, body: Body) returns (run: seq<Action>, s: State)
    requires StoredStatus(body.status) == PASS
    ensures Reaches(INITIAL, run, s)
    ensures |s.threads| == 2 && s.threads[1].status == Passed && |s.threads[1].done| == 1
    ensures var o := s.threads[1].done[0]; o.Ran? && o.cid == 1 && |o.evidence| == 1
    ensures s.owners == [(0, 0), (1, 0)] && |s.reports| == 1 && s.reports[0].issuer == Some(0)
  {
    var s1, s2, s3;
    run, s1 := TimedOut(d, name, text);
    run, s2 := CallOnlyCase(run, s1, d, name, [text]);
    run, s3 := StepReported(run, s2, d, 0, body);
    PassingSteps(s3.rows[1].steps);
    run, s := PassOnlyCase(run, s3, 1);
  }

  /** Completeness is judged by count: on a case with two steps, two reports of the first make the cycle
      run green, and the second step was never reported. */
  lemma {:induction false} RepeatedStepMakesGreen(d: Device, name: string, texts: seq<string>, body: Body) returns (run: seq<Action>, s: State)
    requires |texts| == 2 && body.index == 1 && StoredStatus(body.status) == PASS
    ensures Reaches(INITIAL, run, s)
    ensures |s.threads| == 1 && s.threads[0].status == Passed && |s.threads[0].done| == 1
    ensures var o := s.threads[0].done[0];
            o.Ran? && o.expected == 2 && Numbers(o.evidence) == [1, 1] && !AllReported(o.evidence, 2)
    ensures |s.reports| == 2 && s.reports[0].body == body && s.reports[1].body == body
  {
    var s1, s2, s3;
    run, s1 := CallOnlyCase([], INITIAL, d, name, texts);
    run, s2 := StepReported(run, s1, d, 0, body);
    run, s3 := StepReported(run, s2, d, 0, body);
    PassingSteps(s3.rows[0].steps);
    run, s := PassOnlyCase(run, s3, 0);
    assert 2 !in Numbers(s.threads[0].done[0].evidence);
  }

  /** Unreadable cases do not count against a cycle run: one whose only case cannot be read ends
      passed without a single passed case. */
  lemma {:induction false} UnreadableCycleIsGreen(d: Device, name: string) returns (run: seq<Action>, s: State)
    ensures Reaches(INITIAL, run, s)
    ensures |s.threads| == 1 && s.threads[0].cases == [name] && s.threads[0].status == Passed && s.threads[0].saved == Totals(1, 0, 0, 0, 1)
  {
    run := StartCycle(INITIAL, [], INITIAL, d, [name]);
    var s1 := Started(INITIAL, d, [name]);
    ReachesNext(INITIAL, run, s1, Fetch(0, None));
    run := run + [Fetch(0, None)];
    var s2 := Next(s1, Fetch(0, None));
    run := FinishCycle(INITIAL, run, s2, 0);
    s := Next(s2, Finish(0));
  }

  /** A cycle without cases ends passed. */
  lemma {:induction false} EmptyCycleIsGreen(d: Device) returns (run: seq<Action>, s: State)
    ensures Reaches(INITIAL, run, s)
    ensures |s.threads| == 1 && s.threads[0].cases == [] && s.threads[0].status == Passed
  {
    run := StartCycle(INITIAL, [], INITIAL, d, []);
    var s1 := Started(INITIAL, d, []);
    run := FinishCycle(INITIAL, run, s1, 0);
    s := Next(s1, Finish(0));
  }

  /** Two reports that have picked up the bound run, one after the other. */
  lemma {:induction false} AimTwo(run: seq<Action>, mid: State, d: Device, body: Body) returns (more: seq<Action>, s: State)
    requires Reaches(INITIAL, run, mid) && mid.active == Some(d) && d in mid.bound && mid.reports == [] && 0 < |mid.rows|
    ensures Reaches(INITIAL, more, s)
    ensures var b := mid.bound[d]; s == mid.(reports := [Report(Some(0), body, Targeted(b)), Report(Some(0), body, Targeted(b))])
  {
    var begin, b := Begin(Some(0), body), mid.bound[d];
    var m2 := mid.(reports := [Report(Some(0), body, Fresh), Report(Some(0), body, Fresh)]);
    ReachesNext(INITIAL, run, mid, begin);
    ReachesNext(INITIAL, run + [begin], mid.(reports := [Report(Some(0), body, Fresh)]), begin);
    more := run + [begin] + [begin];
    var m3, m4 := WithPhase(m2, 0, Resolved(d)), WithPhase(WithPhase(m2, 0, Resolved(d)), 1, Resolved(d));
    var m5 := WithPhase(m4, 0, Targeted(b));
    s := WithPhase(m5, 1, Targeted(b));
    FourSteps(INITIAL, more, m2, Resolve(0, None), m3, Resolve(1, None), m4, Target(0), m5, Target(1), s);
    more := more + [Resolve(0, None)] + [Resolve(1, None)] + [Target(0)] + [Target(1)];
  }

  /** `AppendStep` reads and writes in two statements: of two reports that both read the row before
      either writes, both count as recorded, and the row holds one step. */
  lemma {:induction false} OverlappingReportsLoseAStep(d: Device, name: string, texts: seq<string>, body: Body) returns (run: seq<Action>, s: State)
    ensures Reaches(INITIAL, run, s)
    ensures |s.reports| == 2 && s.reports[0].phase.Recorded? && s.reports[1].phase.Recorded?
    ensures |s.rows| == 1 && |s.rows[0].steps| == 1
  {
    var s1, s2;
    run, s1 := CallOnlyCase([], INITIAL, d, name, texts);
    run, s2 := AimTwo(run, s1, d, body);
    run, s := ReadBothWriteBoth(run, s2);
  }

  lemma {:induction false} ReadBothWriteBoth(run: seq<Action>, mid: State) returns (more: seq<Action>, s: State)
    requires Reaches(INITIAL, run, mid) && |mid.reports| == 2 && |mid.rows| == 1 && mid.rows[0].steps == []
    requires forall r :: 0 <= r < 2 ==> mid.reports[r].phase.Targeted? && mid.reports[r].phase.binding.cid == 0
    ensures Reaches(INITIAL, more, s)
    ensures |s.reports| == 2 && s.reports[0].phase.Recorded? && s.reports[1].phase.Recorded?
    ensures |s.rows| == 1 && |s.rows[0].steps| == 1
  {
    var b0, b1, row := mid.reports[0].phase.binding, mid.reports[1].phase.binding, mid.rows[0];
    var m1 := WithPhase(mid, 0, Read(b0, row));
    var m2 := WithPhase(m1, 1, Read(b1, row));
    var m3 := WithPhase(m2, 0, Recorded(b0)).(rows := [Appended(row, mid.reports[0].body, b0.texts)]);
    s := WithPhase(m3, 1, Recorded(b1)).(rows := [Appended(row, mid.reports[1].body, b1.texts)]);
    assert Steps(mid, ReadRow(0), m1) && Steps(m1, ReadRow(1), m2);
    assert Next(m2, WriteRow(0)).rows == m3.rows;
    assert Next(m3, WriteRow(1)).rows == s.rows;
    FourSteps(INITIAL, run, mid, ReadRow(0), m1, ReadRow(1), m2, WriteRow(0), m3, WriteRow(1), s);
    more := run + [ReadRow(0)] + [ReadRow(1)] + [WriteRow(0)] + [WriteRow(1)];
  }

  /** A report that has picked up the bound run. */
  lemma {:induction false} AimOne(run: seq<Action>, mid: State, d: Device, body: Body) returns (more: seq<Action>, s: State)
    requires Reaches(INITIAL, run, mid) && mid.active == Some(d) && d in mid.bound && mid.reports == [] && 0 < |mid.rows|
    ensures Reaches(INITIAL, more, s) && s == mid.(reports := [Report(Some(0), body, Targeted(mid.bound[d]))])
  {
    var m1 := mid.(reports := [Report(Some(0), body, Fresh)]);
    var m2 := mid.(reports := [Report(Some(0), body, Resolved(d))]);
    s := mid.(reports := [Report(Some(0), body, Targeted(mid.bound[d]))]);
    ReachesNext(INITIAL, run, mid, Begin(Some(0), body));
    ReachesNext(INITIAL, run + [Begin(Some(0), body)], m1, Resolve(0, None));
    ReachesNext(INITIAL, run + [Begin(Some(0), body)] + [Resolve(0, None)], m2, Target(0));
    more := run + [Begin(Some(0), body)] + [Resolve(0, None)] + [Target(0)];
  }

  /** A report that was under way when its call returned is recorded between the executor's last look at
      the row and its last write: counted as recorded, and the row holds no step. */
  lemma {:induction false} StepLostAtRecord(d: Device, name: string, text: string, body: Body) returns (run: seq<Action>, s: State)
    ensures Reaches(INITIAL, run, s)
    ensures |s.reports| == 1 && s.reports[0].phase.Recorded? && s.reports[0].issuer == Some(0)
    ensures |s.rows| == 1 && s.rows[0].steps == []
  {
    var s1, s2;
    run, s1 := CallOnlyCase([], INITIAL, d, name, [text]);
    run, s2 := AimOne(run, s1, d, body);
    var s3;
    run, s3 := CallReturns(run, s2);
    run, s := RecordOver(run, s3);
  }

  /** The call returns, the binding is cleared, and the row is reloaded. */
  lemma {:induction false} CallReturns(run: seq<Action>, mid: State) returns (more: seq<Action>, s: State)
    requires Reaches(INITIAL, run, mid) && AtCall(mid, 0)
    ensures Reaches(INITIAL, more, s) && s.reports == mid.reports && s.rows == mid.rows && |s.threads| == |mid.threads|
    ensures var p := s.threads[0].phase; p.Reloaded? && p.cid == mid.threads[0].phase.cid && p.row == mid.rows[p.cid]
  {
    var c, n := mid.threads[0].phase.cid, mid.threads[0].phase.expected;
    var m1 := WithThread(mid, 0, Returned(c, n, false, ""));
    var m2 := WithThread(mid, 0, Unbound(c, n, false, "")).(bound := mid.bound - {mid.threads[0].device});
    s := WithThread(m2, 0, Reloaded(c, n, false, "", mid.rows[c]));
    Cleared(m1, 0, m2);
    ReachesNext(INITIAL, run, mid, AgentReturns(0, false, ""));
    ReachesNext(INITIAL, run + [AgentReturns(0, false, "")], m1, Unbind(0));
    ReachesNext(INITIAL, run + [AgentReturns(0, false, "")] + [Unbind(0)], m2, Reload(0, true));
    more := run + [AgentReturns(0, false, "")] + [Unbind(0)] + [Reload(0, true)];
  }

  lemma {:induction false} RecordOver(run: seq<Action>, mid: State) returns (more: seq<Action>, s: State)
    requires Reaches(INITIAL, run, mid) && |mid.rows| == 1 && |mid.reports| == 1 && |mid.threads| > 0
    requires mid.threads[0].phase.Reloaded? && mid.threads[0].phase.cid == 0 && mid.threads[0].phase.row.steps == []
    requires mid.reports[0].phase.Targeted? && mid.reports[0].phase.binding.cid == 0
    ensures Reaches(INITIAL, more, s) && |s.reports| == 1 && s.reports[0].phase.Recorded? && s.reports[0].issuer == mid.reports[0].issuer
    ensures |s.rows| == 1 && s.rows[0].steps == []
  {
    var m1 := Next(mid, ReadRow(0));
    var m2 := Next(m1, WriteRow(0));
    ReachesNext(INITIAL, run, mid, ReadRow(0));
    ReachesNext(INITIAL, run + [ReadRow(0)], m1, WriteRow(0));
    ReachesNext(INITIAL, run + [ReadRow(0)] + [WriteRow(0)], m2, Record(0, ""));
    s := Next(m2, Record(0, ""));
    more := run + [ReadRow(0)] + [WriteRow(0)] + [Record(0, "")];
  }
}
