/** Cycle runs on devices: the executor's per-device exclusion flag, the binding that ties step
    reports to the case run in progress, the report handler's read-modify-write of the stored run,
    and the totals and status a cycle run ends with.

    Every lock region, store statement and agent event is one atomic step, so runs interleave any
    number of cycle runs and step reports. Cycle runs, case runs and reports are numbered in order
    of creation. Store writes succeed. */
module CycleEngine {
  import opened Wrappers
  import opened Verdicts
  import Text

  type Device = string
  type Tid = nat  // a cycle run and the goroutine that executes it
  type Cid = nat  // a case run: a row of test_runs
  type Rid = nat  // one call of report_step_result

  datatype Totals = Totals(cases: nat, pass: nat, fail: nat, blocked: nat, notRun: nat)

  const NO_TOTALS := Totals(0, 0, 0, 0, 0)

  datatype Status = Running | Passed | Failed

  /** What became of one listed case. `evidence` is the step list that was classified. */
  datatype Outcome =
    | Unreadable
    | NoRow
    | Ran(cid: Cid, evidence: seq<Step>, expected: nat, agentErr: bool, terminal: string)

  function CategoryOf(o: Outcome): Category {
    match o
    case Unreadable => NotRun
    case NoRow => Fail
    case Ran(_, evidence, expected, agentErr, terminal) => Classify(evidence, expected, agentErr, terminal)
  }

  /** Where `execute` is. From `Between` to `Releasing` the goroutine owns the device's flag. */
  datatype Phase =
    | Created
    | Rejected
    | Between
    | Fetched(texts: seq<string>)
    | Opened(cid: Cid, texts: seq<string>)
    | Activated(cid: Cid, texts: seq<string>)
    | Calling(cid: Cid, expected: nat)
    | Returned(cid: Cid, expected: nat, agentErr: bool, terminal: string)
    | Unbound(cid: Cid, expected: nat, agentErr: bool, terminal: string)
    | Reloaded(cid: Cid, expected: nat, agentErr: bool, terminal: string, row: CaseRun)
    | Releasing
    | Ended

  /** One execution: `done` has an outcome per case handled so far, `totals` the counters, and
      `saved` and `status` what the cycle run's row holds. */
  datatype Thread = Thread(device: Device, cases: seq<string>, phase: Phase, done: seq<Outcome>,
                           totals: Totals, saved: Totals, status: Status)

  datatype Binding = Binding(cid: Cid, texts: seq<string>)

  datatype ReportPhase =
    | Fresh
    | Resolved(device: Device)
    | Targeted(binding: Binding)
    | Read(binding: Binding, snapshot: CaseRun)
    | Recorded(binding: Binding)
    | Ignored

  /** A step report. `issuer` is the case run whose agent sent it, or none for an agent that works for
      no case run; the program does not know it, and no step looks at it. */
  datatype Report = Report(issuer: Option<Cid>, body: Body, phase: ReportPhase)

  /** What the agent wrote: the 1-based step number, a status word and a note. */
  datatype Body = Body(index: int, status: string, note: string)

  datatype State = State(
    running: map<Device, Tid>,     // the flag map; the value, which the program does not keep, is who set it
    threads: seq<Thread>,
    active: Option<Device>,
    bound: map<Device, Binding>,
    rows: seq<CaseRun>,
    owners: seq<(Tid, nat)>,       // the cycle run of a row, and its case's place in the cycle
    reports: seq<Report>
  )

  const INITIAL := State(map[], [], None, map[], [], [], [])

  datatype Action =
    | Start(device: Device, cases: seq<string>)
    | Guard(tid: Tid)
    | Reject(tid: Tid)
    | LoseInstance(tid: Tid)
    | Cancel(tid: Tid)
    | Fetch(tid: Tid, texts: Option<seq<string>>)
    | Open(tid: Tid, ok: bool)
    | Activate(tid: Tid)
    | Bind(tid: Tid)
    | AgentReturns(tid: Tid, agentErr: bool, terminal: string)
    | Unbind(tid: Tid)
    | Reload(tid: Tid, ok: bool)
    | Record(tid: Tid, detail: string)
    | Finish(tid: Tid)
    | Release(tid: Tid)
    | Select(device: Device)
    | Begin(issuer: Option<Cid>, body: Body)
    | Resolve(rid: Rid, sole: Option<Device>)
    | Target(rid: Rid)
    | ReadRow(rid: Rid)
    | WriteRow(rid: Rid)

  predicate Holds(p: Phase) {
    !p.Created? && !p.Rejected? && !p.Ended?
  }

  /** The executor's actions name a thread; the rest belong to step reports, or are an agent's choice
      of the active device. */
  predicate OfThread(a: Action) {
    !a.Start? && !a.Select? && !OfReport(a)
  }

  predicate OfReport(a: Action) {
    a.Begin? || a.Resolve? || a.Target? || a.ReadRow? || a.WriteRow?
  }

  predicate Fits(t: Thread, a: Action, rows: seq<CaseRun>)
    requires OfThread(a)
  {
    match a
    case Guard(_) => t.phase.Created?
    case Reject(_) => t.phase.Rejected?
    case LoseInstance(_) => t.phase.Between? && t.done == []
    case Cancel(_) => t.phase.Between? && |t.done| < |t.cases|
    case Fetch(_, _) => t.phase.Between? && |t.done| < |t.cases|
    case Open(_, _) => t.phase.Fetched?
    case Activate(_) => t.phase.Opened?
    case Bind(_) => t.phase.Activated?
    case AgentReturns(_, _, _) => t.phase.Calling?
    case Unbind(_) => t.phase.Returned?
    case Reload(_, ok) => t.phase.Unbound? && t.phase.cid < |rows|
    case Record(_, _) => t.phase.Reloaded? && t.phase.cid < |rows|
    case Finish(_) => t.phase.Between? && |t.done| == |t.cases|
    case Release(_) => t.phase.Releasing?
  }

  predicate ReportFits(r: Report, a: Action, rows: seq<CaseRun>) {
    if a.Resolve? then r.phase.Fresh?
    else if a.Target? then r.phase.Resolved?
    else if a.ReadRow? then r.phase.Targeted? && r.phase.binding.cid < |rows|
    else r.phase.Read? && r.phase.binding.cid < |rows|
  }

  predicate Enabled(s: State, a: Action) {
    if a.Start? || a.Select? then true
    else if a.Begin? then a.issuer.Some? ==> a.issuer.value < |s.rows|
    else if OfReport(a) then a.rid < |s.reports| && ReportFits(s.reports[a.rid], a, s.rows)
    else a.tid < |s.threads| && Fits(s.threads[a.tid], a, s.rows)
  }

  // ---- The executor's steps ----

  function Tallied(t: Totals, c: Category): Totals {
    match c
    case Pass => t.(pass := t.pass + 1)
    case Blocked => t.(blocked := t.blocked + 1)
    case NotRun => t.(notRun := t.notRun + 1)
    case Fail => t.(fail := t.fail + 1)
  }

  /** A case is over: its category goes into the totals, and the totals into the row. */
  function Counted(t: Thread, o: Outcome): Thread {
    var totals := Tallied(t.totals, CategoryOf(o));
    t.(phase := Between, done := t.done + [o], totals := totals, saved := totals)
  }

  function Verdict(t: Totals): Status {
    if t.fail > 0 || t.blocked > 0 then Failed else Passed
  }

  const NEW_ROW := CaseRun([], "running", false, "")

  /** The thread after one of its own actions; `busy` is the flag the guard reads. */
  function Moved(t: Thread, a: Action, busy: bool, rows: seq<CaseRun>): Thread
    requires OfThread(a) && Fits(t, a, rows)
  {
    match a
    case Guard(_) => if busy then t.(phase := Rejected) else t.(phase := Between, totals := NO_TOTALS.(cases := |t.cases|))
    case Reject(_) => t.(phase := Ended, status := Failed)
    case LoseInstance(_) => t.(phase := Releasing, status := Failed)
    case Cancel(_) => t.(phase := Releasing, status := Failed)
    case Fetch(_, texts) => if texts.None? then Counted(t, Unreadable) else t.(phase := Fetched(texts.value))
    case Open(_, ok) => if ok then t.(phase := Opened(|rows|, t.phase.texts)) else Counted(t, NoRow)
    case Activate(_) => t.(phase := Activated(t.phase.cid, t.phase.texts))
    case Bind(_) => t.(phase := Calling(t.phase.cid, |t.phase.texts|))
    case AgentReturns(_, e, terminal) => t.(phase := Returned(t.phase.cid, t.phase.expected, e, terminal))
    case Unbind(_) => t.(phase := Unbound(t.phase.cid, t.phase.expected, t.phase.agentErr, t.phase.terminal))
    case Reload(_, ok) =>
      t.(phase := Reloaded(t.phase.cid, t.phase.expected, t.phase.agentErr, t.phase.terminal,
                           if ok then rows[t.phase.cid] else NEW_ROW))
    case Record(_, _) =>
      Counted(t, Ran(t.phase.cid, t.phase.row.steps, t.phase.expected, t.phase.agentErr, t.phase.terminal))
    case Finish(_) => t.(phase := Releasing, saved := t.totals, status := Verdict(t.totals))
    case Release(_) => t.(phase := Ended)
  }

  function AfterThread(s: State, a: Action): State
    requires OfThread(a) && Enabled(s, a)
  {
    var t := s.threads[a.tid];
    var d := t.device;
    var s' := s.(threads := s.threads[a.tid := Moved(t, a, d in s.running, s.rows)]);
    if a.Guard? then if d in s.running then s' else s'.(running := s.running[d := a.tid])
    else if a.Release? then s'.(running := s.running - {d})
    else if a.Open? then if a.ok then s'.(rows := s.rows + [NEW_ROW], owners := s.owners + [(a.tid, |t.done|)]) else s'
    else if a.Activate? then s'.(active := Some(d))
    else if a.Bind? then s'.(bound := s.bound[d := Binding(t.phase.cid, t.phase.texts)])
    else if a.Unbind? then s'.(bound := s.bound - {d})
    else if a.Record? then
      s'.(rows := s.rows[t.phase.cid := Verdicts.Closed(t.phase.row, t.phase.expected, t.phase.agentErr, t.phase.terminal, a.detail)])
    else s'
  }

  // ---- The report handler's steps ----

  /** The step a report stands for; its position is decided by the row it is appended to. */
  function StepOf(r: Body, texts: seq<string>, position: nat): Step {
    Step(position, r.index, if 1 <= r.index <= |texts| then texts[r.index - 1] else "Step " + Text.Decimal(r.index),
         StoredStatus(r.status), Text.TrimSpace(r.note))
  }

  /** What a stored step tells of the report it stands for: its verdict, the text of the step it names,
      and the note. */
  ghost predicate Tells(st: Step, r: Body, texts: seq<string>) {
    && (Says(r.status, "fail") ==> st.status == "fail")
    && (Says(r.status, "blocked") ==> st.status == "blocked")
    && (!Says(r.status, "fail") && !Says(r.status, "blocked") ==> st.status == "pass")
    && st.number == r.index
    && (if 1 <= r.index <= |texts| then st.text == texts[r.index - 1] else st.text == "Step " + Text.Decimal(r.index))
    && st.detail == Text.TrimSpace(r.note)
  }

  lemma StepTells(r: Body, texts: seq<string>, position: nat)
    ensures Tells(StepOf(r, texts, position), r, texts) && StepOf(r, texts, position).index == position
  {
    StatusStored(r.status);
  }

  function Appended(row: CaseRun, r: Body, texts: seq<string>): CaseRun {
    row.(steps := row.steps + [StepOf(r, texts, |row.steps|)])
  }

  function WithPhase(s: State, r: Rid, p: ReportPhase): State
    requires r < |s.reports|
  {
    s.(reports := s.reports[r := s.reports[r].(phase := p)])
  }

  function AfterReport(s: State, a: Action): State
    requires OfReport(a) && Enabled(s, a)
  {
    match a
    case Begin(issuer, body) => s.(reports := s.reports + [Report(issuer, body, Fresh)])
    case Resolve(r, sole) =>
      WithPhase(s, r, if s.active.Some? then Resolved(s.active.value)
                      else if sole.Some? then Resolved(sole.value) else Ignored)
    case Target(r) =>
      var d := s.reports[r].phase.device;
      WithPhase(s, r, if d in s.bound then Targeted(s.bound[d]) else Ignored)
    case ReadRow(r) =>
      var b := s.reports[r].phase.binding;
      WithPhase(s, r, Read(b, s.rows[b.cid]))
    case WriteRow(r) =>
      var p := s.reports[r].phase;
      WithPhase(s, r, Recorded(p.binding)).(rows := s.rows[p.binding.cid := Appended(p.snapshot, s.reports[r].body, p.binding.texts)])
  }

  function Next(s: State, a: Action): State
    requires Enabled(s, a)
  {
    if a.Start? then s.(threads := s.threads + [Thread(a.device, a.cases, Created, [], NO_TOTALS, NO_TOTALS, Running)])
    else if a.Select? then s.(active := Some(a.device))
    else if OfReport(a) then AfterReport(s, a)
    else AfterThread(s, a)
  }

  predicate IsRun(s: State, run: seq<Action>)
    decreases |run|
  {
    run == [] || (Enabled(s, run[0]) && IsRun(Next(s, run[0]), run[1..]))
  }

  function After(s: State, run: seq<Action>): State
    requires IsRun(s, run)
    decreases |run|
  {
    if run == [] then s else After(Next(s, run[0]), run[1..])
  }

  lemma {:induction false} RunFrom(s: State, a: Action, rest: seq<Action>)
    requires Enabled(s, a) && IsRun(Next(s, a), rest)
    ensures IsRun(s, [a] + rest) && After(s, [a] + rest) == After(Next(s, a), rest)
  {
  }

  // ---- Exclusion and binding ----

  /** A thread owns its device's flag exactly while it is past the guard. */
  predicate OwnerOk(running: map<Device, Tid>, threads: seq<Thread>, t: nat) {
    t < |threads| ==>
      (Holds(threads[t].phase) <==> threads[t].device in running && running[threads[t].device] == t)
  }

  predicate FlagOk(running: map<Device, Tid>, threads: seq<Thread>, d: Device) {
    d in running ==> running[d] < |threads| && threads[running[d]].device == d
  }

  predicate InCall(p: Phase) {
    p.Calling? || p.Returned?
  }

  /** A thread is bound exactly while its agent call is out or its return not yet cleaned up. */
  predicate BoundOk(bound: map<Device, Binding>, threads: seq<Thread>, t: nat) {
    t < |threads| && InCall(threads[t].phase) ==>
      threads[t].device in bound && bound[threads[t].device].cid == threads[t].phase.cid
  }

  predicate BindingOk(running: map<Device, Tid>, threads: seq<Thread>, bound: map<Device, Binding>, d: Device) {
    d in bound ==>
      d in running && running[d] < |threads| && InCall(threads[running[d]].phase)
      && bound[d].cid == threads[running[d]].phase.cid
  }

  ghost predicate Exclusive(s: State) {
    && (forall t: nat :: OwnerOk(s.running, s.threads, t))
    && (forall d: Device :: FlagOk(s.running, s.threads, d))
    && (forall t: nat :: BoundOk(s.bound, s.threads, t))
    && (forall d: Device :: BindingOk(s.running, s.threads, s.bound, d))
  }

  lemma OwnersAfterThread(s: State, a: Action, t: nat)
    requires OfThread(a) && Enabled(s, a)
    requires OwnerOk(s.running, s.threads, t) && OwnerOk(s.running, s.threads, a.tid)
    ensures OwnerOk(AfterThread(s, a).running, AfterThread(s, a).threads, t)
  {
  }

  lemma FlagsAfterThread(s: State, a: Action, d: Device)
    requires OfThread(a) && Enabled(s, a) && FlagOk(s.running, s.threads, d)
    ensures FlagOk(AfterThread(s, a).running, AfterThread(s, a).threads, d)
  {
  }

  lemma BoundAfterThread(s: State, a: Action, t: nat)
    requires OfThread(a) && Enabled(s, a)
    requires OwnerOk(s.running, s.threads, t) && OwnerOk(s.running, s.threads, a.tid)
    requires BoundOk(s.bound, s.threads, t)
    ensures BoundOk(AfterThread(s, a).bound, AfterThread(s, a).threads, t)
  {
  }

  lemma BindingsAfterThread(s: State, a: Action, d: Device)
    requires OfThread(a) && Enabled(s, a)
    requires OwnerOk(s.running, s.threads, a.tid) && FlagOk(s.running, s.threads, d)
    requires BindingOk(s.running, s.threads, s.bound, d)
    ensures BindingOk(AfterThread(s, a).running, AfterThread(s, a).threads, AfterThread(s, a).bound, d)
  {
  }

  lemma ExclusiveStep(s: State, a: Action)
    requires Exclusive(s) && Enabled(s, a)
    ensures Exclusive(Next(s, a))
  {
    var n := Next(s, a);
    forall t: nat ensures OwnerOk(n.running, n.threads, t) && BoundOk(n.bound, n.threads, t) {
      assert OwnerOk(s.running, s.threads, t) && BoundOk(s.bound, s.threads, t);
      if OfThread(a) {
        assert OwnerOk(s.running, s.threads, a.tid);
        OwnersAfterThread(s, a, t);
        BoundAfterThread(s, a, t);
      } else if t == |s.threads| && a.Start? {
        assert FlagOk(s.running, s.threads, a.device);
      }
    }
    forall d: Device ensures FlagOk(n.running, n.threads, d) && BindingOk(n.running, n.threads, n.bound, d) {
      assert FlagOk(s.running, s.threads, d) && BindingOk(s.running, s.threads, s.bound, d);
      if OfThread(a) {
        assert OwnerOk(s.running, s.threads, a.tid);
        FlagsAfterThread(s, a, d);
        BindingsAfterThread(s, a, d);
      }
    }
  }

  lemma {:induction false} ExclusiveAlways(s: State, run: seq<Action>)
    requires Exclusive(s) && IsRun(s, run)
    ensures Exclusive(After(s, run))
    decreases |run|
  {
    if run != [] {
      ExclusiveStep(s, run[0]);
      ExclusiveAlways(Next(s, run[0]), run[1..]);
    }
  }

  /** Device exclusion: in every interleaving at most one cycle run per device is past the guard,
      and a device's binding is absent or names the case run that this cycle run has at its agent. */
  lemma {:induction false} DeviceExclusion(run: seq<Action>, t: Tid, u: Tid)
    requires IsRun(INITIAL, run)
    requires t < |After(INITIAL, run).threads| && u < |After(INITIAL, run).threads|
    ensures var s := After(INITIAL, run);
            && (Holds(s.threads[t].phase) && Holds(s.threads[u].phase) && s.threads[t].device == s.threads[u].device ==> t == u)
            && (Holds(s.threads[t].phase) && s.threads[t].device in s.bound ==>
                  InCall(s.threads[t].phase) && s.bound[s.threads[t].device].cid == s.threads[t].phase.cid)
            && (forall d :: d in s.bound ==> d in s.running)
  {
    ExclusiveAlways(INITIAL, run);
    var s := After(INITIAL, run);
    assert OwnerOk(s.running, s.threads, t) && OwnerOk(s.running, s.threads, u);
    assert BindingOk(s.running, s.threads, s.bound, s.threads[t].device);
    forall d | d in s.bound ensures d in s.running {
      assert BindingOk(s.running, s.threads, s.bound, d);
    }
  }

  /** The flag a cycle run took stays until that run releases it: no rejected run, and no other
      run's cleanup, clears it. */
  lemma {:induction false} FlagClearedOnlyByHolder(run: seq<Action>, a: Action, d: Device)
    requires IsRun(INITIAL, run) && Enabled(After(INITIAL, run), a)
    ensures var s := After(INITIAL, run);
            var n := Next(s, a);
            d in s.running && !(d in n.running && n.running[d] == s.running[d]) ==> a == Release(s.running[d])
  {
    ExclusiveAlways(INITIAL, run);
    if d in After(INITIAL, run).running {
      FlagStep(After(INITIAL, run), a, d);
    }
  }

  lemma FlagStep(s: State, a: Action, d: Device)
    requires Exclusive(s) && Enabled(s, a) && d in s.running
    ensures (d in Next(s, a).running && Next(s, a).running[d] == s.running[d]) || a == Release(s.running[d])
  {
    if OfThread(a) {
      assert OwnerOk(s.running, s.threads, a.tid);
    }
  }

  // ---- Totals and status ----

  function Categories(done: seq<Outcome>): seq<Category> {
    seq(|done|, i requires 0 <= i < |done| => CategoryOf(done[i]))
  }

  function TotalsOf(cases: nat, cs: seq<Category>): Totals {
    Totals(cases, Count(cs, Pass), Count(cs, Fail), Count(cs, Blocked), Count(cs, NotRun))
  }

  lemma TotalsOfNext(cases: nat, cs: seq<Category>, c: Category)
    ensures TotalsOf(cases, cs + [c]) == Tallied(TotalsOf(cases, cs), c)
  {
    CountAppend(cs, c, Pass);
    CountAppend(cs, c, Fail);
    CountAppend(cs, c, Blocked);
    CountAppend(cs, c, NotRun);
  }

  function TotalsFor(cases: nat, done: seq<Outcome>): Totals {
    TotalsOf(cases, Categories(done))
  }

  function Sum(t: Totals): nat {
    t.pass + t.fail + t.blocked + t.notRun
  }

  predicate AtCase(p: Phase) {
    Holds(p) && !p.Between? && !p.Releasing?
  }

  predicate TallyOk(t: Thread) {
    && |t.done| <= |t.cases|
    && (AtCase(t.phase) ==> |t.done| < |t.cases|)
    && (t.phase.Created? || t.phase.Rejected? ==> t.done == [] && t.status == Running)
    && (Holds(t.phase) ==> t.totals == TotalsFor(|t.cases|, t.done))
    && (t.saved == TotalsFor(|t.cases|, t.done) || (t.saved == NO_TOTALS && t.done == []))
    && (t.status != Running <==> t.phase.Releasing? || t.phase.Ended?)
    && (t.status != Running && |t.done| == |t.cases| && t.cases != [] ==> t.status == Verdict(TotalsFor(|t.cases|, t.done)))
    && (t.status == Passed ==> |t.done| == |t.cases| && t.saved == TotalsFor(|t.cases|, t.done) && Verdict(t.saved) == Passed)
  }

  lemma TotalsGrow(cases: nat, done: seq<Outcome>, o: Outcome)
    ensures TotalsFor(cases, done + [o]) == Tallied(TotalsFor(cases, done), CategoryOf(o))
  {
    assert Categories(done + [o]) == Categories(done) + [CategoryOf(o)];
    TotalsOfNext(cases, Categories(done), CategoryOf(o));
  }

  lemma TallyAfterCase(t: Thread, o: Outcome)
    requires TallyOk(t) && Holds(t.phase) && |t.done| < |t.cases| && t.status == Running
    ensures TallyOk(Counted(t, o))
  {
    TotalsGrow(|t.cases|, t.done, o);
  }

  lemma TallyAfterMove(t: Thread, a: Action, busy: bool, rows: seq<CaseRun>)
    requires OfThread(a) && Fits(t, a, rows) && TallyOk(t)
    ensures TallyOk(Moved(t, a, busy, rows))
  {
    match a
    case Fetch(_, texts) => if texts.None? { TallyAfterCase(t, Unreadable); }
    case Open(_, ok) => if !ok { TallyAfterCase(t, NoRow); }
    case Record(_, _) =>
      TallyAfterCase(t, Ran(t.phase.cid, t.phase.row.steps, t.phase.expected, t.phase.agentErr, t.phase.terminal));
    case _ =>
  }

  lemma {:induction false} TalliesAlways(s: State, run: seq<Action>, t: Tid)
    requires IsRun(s, run) && forall u :: 0 <= u < |s.threads| ==> TallyOk(s.threads[u])
    requires t < |After(s, run).threads|
    ensures TallyOk(After(s, run).threads[t])
    decreases |run|
  {
    if run != [] {
      var n := Next(s, run[0]);
      forall u | 0 <= u < |n.threads| ensures TallyOk(n.threads[u]) {
        if OfThread(run[0]) && u == run[0].tid {
          TallyAfterMove(s.threads[u], run[0], s.threads[u].device in s.running, s.rows);
        }
      }
      TalliesAlways(n, run[1..], t);
    }
  }

  /** Conservation: the persisted counters never exceed the number of cases, and a finished cycle
      run accounts for every case unless it was cancelled part way. */
  lemma {:induction false} TotalsConserved(run: seq<Action>, t: Tid)
    requires IsRun(INITIAL, run) && t < |After(INITIAL, run).threads|
    ensures var th := After(INITIAL, run).threads[t];
            && Sum(th.saved) <= th.saved.cases
            && Sum(th.saved) == |th.done| <= |th.cases|
            && (th.status != Running ==> 
                  (Sum(th.saved) == th.saved.cases <==> th.saved == NO_TOTALS || |th.done| == |th.cases|))
  {
    TalliesAlways(INITIAL, run, t);
    var th := After(INITIAL, run).threads[t];
    CountsCover(Categories(th.done));
  }

  /** A case that does not stand in the way of a passed cycle run: it could not be read, or it was
      classified on an error-free agent call and a complete list of steps without a failed or
      blocked one. */
  predicate Green(o: Outcome) {
    o.Unreadable? || (o.Ran? && EvidenceComplete(o.evidence, o.expected, o.agentErr))
  }

  lemma GreenCategory(o: Outcome)
    ensures Green(o) <==> CategoryOf(o) != Fail && CategoryOf(o) != Blocked
  {
    if o.Ran? {
      PassNeedsEvidence(o.evidence, o.expected, o.agentErr, o.terminal);
    }
  }

  lemma {:induction false} PassedIffGreen(cases: nat, done: seq<Outcome>)
    ensures Verdict(TotalsFor(cases, done)) == Passed <==> forall k :: 0 <= k < |done| ==> Green(done[k])
  {
    var cs := Categories(done);
    CountZero(cs, Fail);
    CountZero(cs, Blocked);
    forall k | 0 <= k < |done| ensures Green(done[k]) <==> cs[k] != Fail && cs[k] != Blocked {
      GreenCategory(done[k]);
    }
  }

  /** No manufactured green: a cycle run ends passed only if every listed case was handled and each is
      green. */
  lemma {:induction false} GreenNeedsEvidence(run: seq<Action>, t: Tid)
    requires IsRun(INITIAL, run) && t < |After(INITIAL, run).threads|
    requires After(INITIAL, run).threads[t].status == Passed
    ensures var th := After(INITIAL, run).threads[t];
            |th.done| == |th.cases| && forall k :: 0 <= k < |th.done| ==> Green(th.done[k])
  {
    TalliesAlways(INITIAL, run, t);
    var th := After(INITIAL, run).threads[t];
    PassedIffGreen(|th.cases|, th.done);
  }

  /** How every cycle run ends: with a status exactly when it has let go of its device or never got it, and
      then, if it has cases, passed if and only if all were handled and each is green; one that was turned
      away, lost its device or was cancelled has failed. */
  lemma {:induction false} StatusIffGreen(run: seq<Action>, t: Tid)
    requires IsRun(INITIAL, run) && t < |After(INITIAL, run).threads|
    ensures var th := After(INITIAL, run).threads[t];
            && (th.status != Running <==> th.phase == Releasing || th.phase == Ended)
            && (th.status != Running && th.cases != [] ==>
                  (th.status == Passed <==> |th.done| == |th.cases| && forall k :: 0 <= k < |th.done| ==> Green(th.done[k]))
                  && (th.status == Failed <==> th.status != Passed))
  {
    TalliesAlways(INITIAL, run, t);
    var th := After(INITIAL, run).threads[t];
    PassedIffGreen(|th.cases|, th.done);
  }

  /** A row begins empty, running and without a verdict. */
  lemma NewRow(s: State, t: Tid, ok: bool)
    requires Enabled(s, Open(t, ok))
    ensures var n := Next(s, Open(t, ok));
            if ok then n.rows == s.rows + [CaseRun([], "running", false, "")] && n.owners == s.owners + [(t, |s.threads[t].done|)]
            else n.rows == s.rows && n.threads[t].done == s.threads[t].done + [NoRow]
  {
  }

  /** A cycle run can lose its device only before its first case, and be cancelled only with cases left. */
  lemma CutShort(s: State, t: Tid)
    requires t < |s.threads|
    ensures Enabled(s, LoseInstance(t)) <==> s.threads[t].phase == Between && s.threads[t].done == []
    ensures Enabled(s, Cancel(t)) <==> s.threads[t].phase == Between && |s.threads[t].done| < |s.threads[t].cases|
  {
  }

  /** Anybody may ask for a cycle run, report a step or choose the active device at any time; a report names
      no case run but one that exists. */
  lemma AnyoneMayAct(s: State, d: Device, cases: seq<string>, issuer: Option<Cid>, body: Body)
    ensures Enabled(s, Start(d, cases)) && Enabled(s, Select(d)) && Enabled(s, Begin(None, body))
    ensures Enabled(s, Begin(issuer, body)) <==> issuer.None? || issuer.value < |s.rows|
    ensures Next(s, Select(d)) == s.(active := Some(d))
    ensures Next(s, Start(d, cases)) == s.(threads := s.threads + [Thread(d, cases, Created, [], Totals(0, 0, 0, 0, 0), Totals(0, 0, 0, 0, 0), Running)])
  {
  }

  /** A cycle run that reaches its finish passes if and only if every case is green; one without cases
      passes too. */
  lemma {:induction false} FinishPassesIffGreen(run: seq<Action>, t: Tid)
    requires IsRun(INITIAL, run) && Enabled(After(INITIAL, run), Finish(t))
    ensures var th := After(INITIAL, run).threads[t];
            && |th.done| == |th.cases|
            && (Next(After(INITIAL, run), Finish(t)).threads[t].status == Passed <==> forall k :: 0 <= k < |th.done| ==> Green(th.done[k]))
  {
    TalliesAlways(INITIAL, run, t);
    var th := After(INITIAL, run).threads[t];
    PassedIffGreen(|th.cases|, th.done);
  }

  /** What a passed cycle run says about the single steps: in each case that was run, every step was
      reported if and only if the reports name as many different steps as the case has; with just as
      many reports as steps, if and only if they name each step once. */
  lemma {:induction false} GreenReportsAllIff(run: seq<Action>, t: Tid, k: nat)
    requires IsRun(INITIAL, run) && t < |After(INITIAL, run).threads|
    requires After(INITIAL, run).threads[t].status == Passed
    requires k < |After(INITIAL, run).threads[t].done| && After(INITIAL, run).threads[t].done[k].Ran?
    ensures var o := After(INITIAL, run).threads[t].done[k];
            && (AllReported(o.evidence, o.expected) <==> |Named(Numbers(o.evidence), o.expected)| == o.expected)
            && (|o.evidence| == o.expected ==> (AllReported(o.evidence, o.expected) <==> OneEach(Numbers(o.evidence), o.expected)))
            && o.expected <= |o.evidence|
  {
    GreenNeedsEvidence(run, t);
    var o := After(INITIAL, run).threads[t].done[k];
    assert Green(o);
    PassNeedsEvidence(o.evidence, o.expected, o.agentErr, o.terminal);
    PassReportsAllIff(o.evidence, o.expected, o.agentErr, o.terminal);
  }

  // ---- Stored evidence ----

  predicate HasRow(p: Phase) {
    AtCase(p) && !p.Fetched?
  }

  /** The row a thread works on is the one it opened for its current case, and each finished case
      keeps its own row. */
  predicate RowsFor(owners: seq<(Tid, nat)>, th: Thread, t: nat) {
    && (HasRow(th.phase) ==> th.phase.cid < |owners| && owners[th.phase.cid] == (t, |th.done|))
    && (forall k :: 0 <= k < |th.done| && th.done[k].Ran? ==> th.done[k].cid < |owners| && owners[th.done[k].cid] == (t, k))
  }

  predicate RowsOk(s: State, t: nat) {
    t < |s.threads| ==> RowsFor(s.owners, s.threads[t], t)
  }

  predicate OwnerThere(s: State, c: nat) {
    c < |s.owners| ==> s.owners[c].0 < |s.threads|
  }

  ghost predicate Owned(s: State) {
    |s.owners| == |s.rows| && (forall t: nat :: RowsOk(s, t)) && forall c: nat :: OwnerThere(s, c)
  }

  lemma CountedRows(owners: seq<(Tid, nat)>, th: Thread, o: Outcome, t: nat)
    requires RowsFor(owners, th, t) && (o.Ran? ==> HasRow(th.phase) && o.cid == th.phase.cid)
    ensures RowsFor(owners, Counted(th, o), t)
  {
  }

  lemma MovedRows(owners: seq<(Tid, nat)>, th: Thread, a: Action, busy: bool, rows: seq<CaseRun>, t: nat)
    requires OfThread(a) && Fits(th, a, rows) && |owners| == |rows| && RowsFor(owners, th, t)
    ensures RowsFor(if a.Open? && a.ok then owners + [(t, |th.done|)] else owners, Moved(th, a, busy, rows), t)
  {
    if a.Fetch? && a.texts.None? {
      CountedRows(owners, th, Unreadable, t);
    } else if a.Open? && !a.ok {
      CountedRows(owners, th, NoRow, t);
    } else if a.Record? {
      CountedRows(owners, th, Ran(th.phase.cid, th.phase.row.steps, th.phase.expected, th.phase.agentErr, th.phase.terminal), t);
    }
  }

  lemma RowsAfterThread(s: State, a: Action, t: nat)
    requires OfThread(a) && Enabled(s, a) && |s.owners| == |s.rows| && RowsOk(s, t)
    ensures RowsOk(AfterThread(s, a), t)
  {
    if t == a.tid {
      MovedRows(s.owners, s.threads[t], a, s.threads[t].device in s.running, s.rows, t);
    } else {
      assert t < |s.threads| ==> AfterThread(s, a).threads[t] == s.threads[t];
    }
  }

  lemma OwnedStep(s: State, a: Action)
    requires Owned(s) && Enabled(s, a)
    ensures Owned(Next(s, a))
  {
    var n := Next(s, a);
    forall t: nat ensures RowsOk(n, t) {
      assert RowsOk(s, t);
      if OfThread(a) {
        RowsAfterThread(s, a, t);
      }
    }
    forall c: nat ensures OwnerThere(n, c) {
      assert OwnerThere(s, c);
    }
  }

  /** A report that has picked up the binding of case run `c` and is not written yet. */
  predicate Targets(r: Report, c: Cid) {
    (r.phase.Targeted? || r.phase.Read?) && r.phase.binding.cid == c
  }

  /** No report is in flight when a case's binding is cleared: none that picked it up is unwritten. */
  predicate Settled(s: State, run: seq<Action>)
    requires IsRun(s, run)
    decreases |run|
  {
    run != [] ==>
      && (run[0].Unbind? ==> SettledAt(s, s.threads[run[0].tid].phase.cid))
      && Settled(Next(s, run[0]), run[1..])
  }

  predicate SettledAt(s: State, c: Cid) {
    forall r :: 0 <= r < |s.reports| ==> !Targets(s.reports[r], c)
  }

  /** A report in flight aims at the row of a case that is still at its agent. */
  predicate AimOk(s: State, r: nat) {
    r < |s.reports| && (s.reports[r].phase.Targeted? || s.reports[r].phase.Read?) ==>
      var c := s.reports[r].phase.binding.cid;
      && c < |s.owners| && s.owners[c].0 < |s.threads|
      && InCall(s.threads[s.owners[c].0].phase) && s.threads[s.owners[c].0].phase.cid == c
  }

  lemma AimAfterThread(s: State, a: Action, r: nat)
    requires OfThread(a) && Enabled(s, a) && AimOk(s, r)
    requires a.Unbind? ==> SettledAt(s, s.threads[a.tid].phase.cid)
    ensures AimOk(AfterThread(s, a), r)
  {
  }

  lemma AimAfterTarget(s: State, r: Rid)
    requires Exclusive(s) && Owned(s) && Enabled(s, Target(r))
    ensures AimOk(Next(s, Target(r)), r)
  {
    var d := s.reports[r].phase.device;
    assert BindingOk(s.running, s.threads, s.bound, d);
    if d in s.bound {
      assert RowsOk(s, s.running[d]);
    }
  }

  lemma AimAfterReport(s: State, a: Action, r: nat)
    requires OfReport(a) && Enabled(s, a) && AimOk(s, r) && a != Target(r)
    ensures AimOk(AfterReport(s, a), r)
  {
  }

  lemma AimsStep(s: State, a: Action)
    requires Exclusive(s) && Owned(s) && Enabled(s, a) && forall r: nat :: AimOk(s, r)
    requires a.Unbind? ==> SettledAt(s, s.threads[a.tid].phase.cid)
    ensures forall r: nat :: AimOk(Next(s, a), r)
  {
    forall r: nat ensures AimOk(Next(s, a), r) {
      assert AimOk(s, r);
      if a == Target(r) {
        AimAfterTarget(s, r);
      } else if OfReport(a) {
        AimAfterReport(s, a, r);
      } else if OfThread(a) {
        AimAfterThread(s, a, r);
      }
    }
  }

  /** Every finished case's row holds the steps it was classified on and the verdict it got. */
  predicate StoredOk(s: State, t: nat) {
    t < |s.threads| ==>
      forall k :: 0 <= k < |s.threads[t].done| && s.threads[t].done[k].Ran? ==>
        var o := s.threads[t].done[k];
        && o.cid < |s.rows| && s.rows[o.cid].steps == o.evidence
        && (s.rows[o.cid].passed <==> CategoryOf(o) == Pass)
  }

  lemma StoredAfterThread(s: State, a: Action, t: nat)
    requires OfThread(a) && Enabled(s, a) && Owned(s) && StoredOk(s, t)
    ensures StoredOk(AfterThread(s, a), t)
  {
    if a.Record? {
      StoredAfterRecord(s, a, t);
    }
  }

  lemma StoredAfterRecord(s: State, a: Action, t: nat)
    requires a.Record? && Enabled(s, a) && Owned(s) && StoredOk(s, t)
    ensures StoredOk(AfterThread(s, a), t)
  {
    assert RowsOk(s, t) && RowsOk(s, a.tid);
  }

  predicate FinishedElsewhere(s: State, t: nat, c: Cid) {
    t < |s.threads| ==>
      forall k :: 0 <= k < |s.threads[t].done| && s.threads[t].done[k].Ran? ==> s.threads[t].done[k].cid != c
  }

  lemma AimElsewhere(s: State, r: Rid, t: nat)
    requires Enabled(s, WriteRow(r)) && RowsOk(s, t) && AimOk(s, r)
    requires RowsOk(s, s.owners[s.reports[r].phase.binding.cid].0)
    ensures FinishedElsewhere(s, t, s.reports[r].phase.binding.cid)
  {
  }

  /** A report's write goes to a row whose case is at its agent, so to none that is finished. */
  lemma StoredAfterWrite(s: State, r: Rid, t: nat)
    requires Enabled(s, WriteRow(r)) && StoredOk(s, t)
    requires FinishedElsewhere(s, t, s.reports[r].phase.binding.cid)
    ensures StoredOk(AfterReport(s, WriteRow(r)), t)
  {
  }

  lemma StoredAfterReport(s: State, a: Action, t: nat)
    requires OfReport(a) && Enabled(s, a) && Owned(s) && StoredOk(s, t)
    requires a.WriteRow? ==> AimOk(s, a.rid)
    ensures StoredOk(AfterReport(s, a), t)
  {
    if a.WriteRow? {
      assert RowsOk(s, t);
      assert RowsOk(s, s.owners[s.reports[a.rid].phase.binding.cid].0);
      AimElsewhere(s, a.rid, t);
      StoredAfterWrite(s, a.rid, t);
    }
  }

  lemma {:induction false} StoredAlways(s: State, run: seq<Action>)
    requires IsRun(s, run) && Settled(s, run)
    requires Exclusive(s) && Owned(s) && (forall r: nat :: AimOk(s, r)) && (forall t: nat :: StoredOk(s, t))
    ensures forall t: nat :: StoredOk(After(s, run), t)
    decreases |run|
  {
    if run != [] {
      var a := run[0];
      ExclusiveStep(s, a);
      OwnedStep(s, a);
      AimsStep(s, a);
      forall t: nat ensures StoredOk(Next(s, a), t) {
        assert StoredOk(s, t);
        if OfThread(a) {
          StoredAfterThread(s, a, t);
        } else if OfReport(a) {
          assert a.WriteRow? ==> AimOk(s, a.rid);
          StoredAfterReport(s, a, t);
        }
      }
      StoredAlways(Next(s, a), run[1..]);
    }
  }

  /** No manufactured green, on what the store holds: with no report in flight when a binding is
      cleared, each case of a passed cycle run was unreadable, or has a stored run that is marked
      passed and whose stored steps are complete and without a failed or blocked one. */
  lemma {:induction false} GreenIsStored(run: seq<Action>, t: Tid)
    requires IsRun(INITIAL, run) && Settled(INITIAL, run) && t < |After(INITIAL, run).threads|
    requires After(INITIAL, run).threads[t].status == Passed
    ensures var s := After(INITIAL, run);
            var th := s.threads[t];
            && |th.done| == |th.cases|
            && forall k :: 0 <= k < |th.done| && !th.done[k].Unreadable? ==>
                 && th.done[k].Ran? && th.done[k].cid < |s.rows|
                 && s.rows[th.done[k].cid].passed
                 && EvidenceComplete(s.rows[th.done[k].cid].steps, th.done[k].expected, th.done[k].agentErr)
  {
    GreenNeedsEvidence(run, t);
    StoredAlways(INITIAL, run);
    var s := After(INITIAL, run);
    assert StoredOk(s, t);
    var th := s.threads[t];
    forall k | 0 <= k < |th.done| && !th.done[k].Unreadable?
      ensures th.done[k].Ran? && s.rows[th.done[k].cid].passed
    {
      assert Green(th.done[k]);
      PassNeedsEvidence(th.done[k].evidence, th.done[k].expected, th.done[k].agentErr, th.done[k].terminal);
    }
  }

  /** The counting loop and the final status: every case is counted once, under its own category, and
      the run passes exactly when none failed and none was blocked. */
  method CountCases(categories: seq<Category>) returns (totals: Totals, status: Status)
    ensures totals == TotalsOf(|categories|, categories) && Sum(totals) == totals.cases
    ensures status == Passed <==> Fail !in categories && Blocked !in categories
  {
    totals := NO_TOTALS.(cases := |categories|);
    for i := 0 to |categories|
      invariant totals == TotalsOf(|categories|, categories[..i])
    {
      assert categories[..i + 1] == categories[..i] + [categories[i]];
      TotalsOfNext(|categories|, categories[..i], categories[i]);
      totals := Tallied(totals, categories[i]);
    }
    assert categories[..|categories|] == categories;
    CountsCover(categories);
    CountZero(categories, Fail);
    CountZero(categories, Blocked);
    status := Passed;
    if totals.fail > 0 || totals.blocked > 0 {
      status := Failed;
    }
  }

  // ---- Every cycle run ends ----

  /** How far into a case, in steps. */
  function IntoCase(p: Phase): nat {
    if p.Fetched? then 1 else if p.Opened? then 2 else if p.Activated? then 3 else if p.Calling? then 4
    else if p.Returned? then 5 else if p.Unbound? then 6 else if p.Reloaded? then 7 else 0
  }

  /** How many steps a cycle run has left, at most. */
  function Left(t: Thread): int {
    if t.phase.Created? then 8 * |t.cases| + 3
    else if t.phase.Ended? then 0
    else if t.phase.Rejected? || t.phase.Releasing? then 1
    else 8 * (|t.cases| - |t.done|) + 2 - IntoCase(t.phase)
  }

  function OwnSteps(run: seq<Action>, t: Tid): nat {
    if run == [] then 0 else (if OfThread(run[0]) && run[0].tid == t then 1 else 0) + OwnSteps(run[1..], t)
  }

  lemma LeftAfterMove(t: Thread, a: Action, busy: bool, rows: seq<CaseRun>)
    requires OfThread(a) && Fits(t, a, rows) && TallyOk(t)
    ensures Left(Moved(t, a, busy, rows)) + 1 <= Left(t)
  {
  }

  lemma OthersStay(s: State, a: Action, t: Tid)
    requires Enabled(s, a) && t < |s.threads| && !(OfThread(a) && a.tid == t)
    ensures t < |Next(s, a).threads| && Next(s, a).threads[t] == s.threads[t]
  {
  }

  lemma OwnMoves(s: State, a: Action)
    requires OfThread(a) && Enabled(s, a)
    ensures a.tid < |Next(s, a).threads|
    ensures Next(s, a).threads[a.tid] == Moved(s.threads[a.tid], a, s.threads[a.tid].device in s.running, s.rows)
  {
  }

  lemma LeftStep(s: State, a: Action, t: Tid)
    requires Enabled(s, a) && t < |s.threads| && TallyOk(s.threads[t])
    ensures t < |Next(s, a).threads| && TallyOk(Next(s, a).threads[t])
    ensures Left(Next(s, a).threads[t]) + (if OfThread(a) && a.tid == t then 1 else 0) <= Left(s.threads[t])
  {
    if OfThread(a) && a.tid == t {
      OwnMoves(s, a);
      LeftAfterMove(s.threads[t], a, s.threads[t].device in s.running, s.rows);
      TallyAfterMove(s.threads[t], a, s.threads[t].device in s.running, s.rows);
    } else {
      OthersStay(s, a, t);
    }
  }

  lemma {:induction false} LeftShrinks(s: State, run: seq<Action>, t: Tid)
    requires IsRun(s, run) && t < |s.threads| && TallyOk(s.threads[t])
    ensures t < |After(s, run).threads| && OwnSteps(run, t) + Left(After(s, run).threads[t]) <= Left(s.threads[t])
    decreases |run|
  {
    if run != [] {
      LeftStep(s, run[0], t);
      LeftShrinks(Next(s, run[0]), run[1..], t);
    }
  }

  /** The step a cycle run is about to take, whatever the store and the agent answer. */
  function NextOwn(t: Thread, tid: Tid): Action
    requires !t.phase.Ended?
  {
    match t.phase
    case Created => Guard(tid)
    case Rejected => Reject(tid)
    case Between => if |t.done| == |t.cases| then Finish(tid) else Fetch(tid, None)
    case Fetched(_) => Open(tid, true)
    case Opened(_, _) => Activate(tid)
    case Activated(_, _) => Bind(tid)
    case Calling(_, _) => AgentReturns(tid, true, "")
    case Returned(_, _, _, _) => Unbind(tid)
    case Unbound(_, _, _, _) => Reload(tid, true)
    case Reloaded(_, _, _, _, _) => Record(tid, "")
    case Releasing => Release(tid)
  }

  /** No cycle run goes on for ever: from any point of any run, one that has not ended has a next step, and
      has ended after eight steps a case and three more. */
  lemma {:induction false} CycleRunsEnd(run: seq<Action>, rest: seq<Action>, t: Tid)
    requires IsRun(INITIAL, run) && IsRun(After(INITIAL, run), rest) && t < |After(INITIAL, run).threads|
    ensures var s, n := After(INITIAL, run), After(After(INITIAL, run), rest);
            && t < |n.threads| && OwnSteps(rest, t) <= 8 * |s.threads[t].cases| + 3
            && (OwnSteps(rest, t) == 8 * |s.threads[t].cases| + 3 ==> n.threads[t].phase == Ended)
    ensures var s := After(INITIAL, run);
            s.threads[t].phase != Ended ==> Enabled(s, NextOwn(s.threads[t], t)) && OfThread(NextOwn(s.threads[t], t))
  {
    TalliesAlways(INITIAL, run, t);
    ValidAfter(INITIAL, run);
    var s := After(INITIAL, run);
    assert RowsOk(s, t);
    LeftShrinks(s, rest, t);
    LeftPositive(s, rest, t);
  }

  lemma {:induction false} LeftPositive(s: State, run: seq<Action>, t: Tid)
    requires IsRun(s, run) && t < |s.threads| && TallyOk(s.threads[t])
    ensures t < |After(s, run).threads| && (After(s, run).threads[t].phase != Ended ==> Left(After(s, run).threads[t]) > 0)
    decreases |run|
  {
    if run != [] {
      LeftStep(s, run[0], t);
      LeftPositive(Next(s, run[0]), run[1..], t);
    }
  }

  // ---- The report handler, undisturbed ----

  ghost predicate Reaches(s: State, run: seq<Action>, n: State) {
    IsRun(s, run) && After(s, run) == n
  }

  lemma {:induction false} ReachesThen(s: State, first: seq<Action>, mid: State, then_: seq<Action>, end: State)
    requires Reaches(s, first, mid) && Reaches(mid, then_, end)
    ensures Reaches(s, first + then_, end)
    decreases |first|
  {
    if first == [] {
      assert first + then_ == then_;
    } else {
      assert (first + then_)[1..] == first[1..] + then_;
      ReachesThen(Next(s, first[0]), first[1..], mid, then_, end);
    }
  }

  lemma {:induction false} ReachesNext(s: State, run: seq<Action>, mid: State, a: Action)
    requires Reaches(s, run, mid) && Enabled(mid, a)
    ensures Reaches(s, run + [a], Next(mid, a))
  {
    RunFrom(mid, a, []);
    assert [a] + [] == [a];
    ReachesThen(s, run, mid, [a], Next(mid, a));
  }

  function Resolution(active: Option<Device>, sole: Option<Device>): Option<Device> {
    if active.Some? then active else sole
  }

  /** The state once a report has been handled from end to end. */
  function Handled(s: State, issuer: Option<Cid>, body: Body, sole: Option<Device>): State {
    var d := Resolution(s.active, sole);
    if d.None? || d.value !in s.bound || s.bound[d.value].cid >= |s.rows| then s.(reports := s.reports + [Report(issuer, body, Ignored)])
    else
      var b := s.bound[d.value];
      s.(reports := s.reports + [Report(issuer, body, Recorded(b))], rows := s.rows[b.cid := Appended(s.rows[b.cid], body, b.texts)])
  }

  lemma BoundRowThere(s: State, d: Device)
    requires Exclusive(s) && Owned(s) && d in s.bound
    ensures s.bound[d].cid < |s.rows|
  {
    assert BindingOk(s.running, s.threads, s.bound, d);
    assert RowsOk(s, s.running[d]);
  }

  lemma {:induction false} HandlerRun(s: State, issuer: Option<Cid>, body: Body, sole: Option<Device>) returns (run: seq<Action>)
    requires Exclusive(s) && Owned(s) && Enabled(s, Begin(issuer, body))
    ensures Reaches(s, run, Handled(s, issuer, body, sole))
  {
    var r := |s.reports|;
    var s1 := Next(s, Begin(issuer, body));
    var s2 := Next(s1, Resolve(r, sole));
    assert Reaches(s, [], s);
    ReachesNext(s, [], s, Begin(issuer, body));
    ReachesNext(s, [] + [Begin(issuer, body)], s1, Resolve(r, sole));
    run := [] + [Begin(issuer, body)] + [Resolve(r, sole)];
    var d := Resolution(s.active, sole);
    if d.Some? {
      var s3 := Next(s2, Target(r));
      ReachesNext(s, run, s2, Target(r));
      run := run + [Target(r)];
      if d.value in s.bound {
        BoundRowThere(s, d.value);
        run := WriteUndisturbed(s, run, s3, r);
        assert Handled(s, issuer, body, sole).reports == s3.reports[r := s3.reports[r].(phase := Recorded(s.bound[d.value]))];
      } else {
        assert s3.reports == s.reports + [Report(issuer, body, Ignored)];
      }
    } else {
      assert s2.reports == s.reports + [Report(issuer, body, Ignored)];
    }
  }

  lemma {:induction false} WriteUndisturbed(s: State, run: seq<Action>, mid: State, r: Rid) returns (more: seq<Action>)
    requires Reaches(s, run, mid) && Enabled(mid, ReadRow(r))
    ensures var b := mid.reports[r].phase.binding;
            Reaches(s, more, WithPhase(mid, r, Recorded(b)).(rows := mid.rows[b.cid := Appended(mid.rows[b.cid], mid.reports[r].body, b.texts)]))
  {
    var m1 := Next(mid, ReadRow(r));
    ReachesNext(s, run, mid, ReadRow(r));
    ReachesNext(s, run + [ReadRow(r)], m1, WriteRow(r));
    more := run + [ReadRow(r)] + [WriteRow(r)];
    var b := mid.reports[r].phase.binding;
    assert Next(m1, WriteRow(r)).reports == WithPhase(mid, r, Recorded(b)).reports;
  }

  lemma {:induction false} ValidAfter(s: State, run: seq<Action>)
    requires Exclusive(s) && Owned(s) && IsRun(s, run)
    ensures Exclusive(After(s, run)) && Owned(After(s, run))
    decreases |run|
  {
    if run != [] {
      ExclusiveStep(s, run[0]);
      OwnedStep(s, run[0]);
      ValidAfter(Next(s, run[0]), run[1..]);
    }
  }

  // ---- The process ----

  /** The memory and the rows that the executor and the tool service share. Each method is one lock
      region, or a handler that nothing interrupts, and takes the state through the step of the model
      it stands for. `owners` is bookkeeping of the model. */
  class Engine {
    var running: map<Device, Tid>
    var threads: seq<Thread>
    var active: Option<Device>
    var bound: map<Device, Binding>
    var rows: seq<CaseRun>
    ghost var owners: seq<(Tid, nat)>
    var reports: seq<Report>

    ghost function View(): State
      reads this
    {
      State(running, threads, active, bound, rows, owners, reports)
    }

    ghost predicate Valid()
      reads this
    {
      Exclusive(View()) && Owned(View())
    }

    constructor ()
      ensures Valid() && View() == INITIAL
    {
      running, threads, active, bound, rows, owners, reports := map[], [], None, map[], [], [], [];
    }

    /** The test-and-set of the device's flag. Whoever gets it is alone past the guard. */
    method Acquire(t: Tid) returns (busy: bool)
      requires Valid() && Enabled(View(), Guard(t))
      modifies this
      ensures Valid() && View() == Next(old(View()), Guard(t))
      ensures busy <==> exists u: Tid :: u < |old(threads)| && old(threads)[u].device == threads[t].device && Holds(old(threads)[u].phase)
      ensures !busy ==> forall u: Tid :: u < |threads| && u != t && threads[u].device == threads[t].device ==> !Holds(threads[u].phase)
    {
      ghost var was := View();
      ExclusiveStep(was, Guard(t));
      OwnedStep(was, Guard(t));
      var d := threads[t].device;
      busy := d in running;
      HolderOfFlag(was, d);
      if busy {
        threads := threads[t := threads[t].(phase := Rejected)];
      } else {
        running := running[d := t];
        threads := threads[t := threads[t].(phase := Between, totals := NO_TOTALS.(cases := |threads[t].cases|))];
      }
    }

    /** The deferred clearing of the flag. Nobody is past the guard of the device then. */
    method Release(t: Tid)
      requires Valid() && Enabled(View(), Action.Release(t))
      modifies this
      ensures Valid() && View() == Next(old(View()), Action.Release(t))
      ensures forall u: Tid :: u < |threads| && threads[u].device == threads[t].device ==> !Holds(threads[u].phase)
    {
      ghost var was := View();
      ExclusiveStep(was, Action.Release(t));
      OwnedStep(was, Action.Release(t));
      HolderOfFlag(Next(was, Action.Release(t)), threads[t].device);
      running := running - {threads[t].device};
      threads := threads[t := threads[t].(phase := Ended)];
    }

    /** A report that is resolved from now on goes by this run's device. */
    method SetActive(t: Tid)
      requires Valid() && Enabled(View(), Activate(t))
      modifies this
      ensures Valid() && View() == Next(old(View()), Activate(t))
      ensures forall r: Rid, sole :: Enabled(View(), Resolve(r, sole)) ==>
                Next(View(), Resolve(r, sole)).reports[r].phase == Resolved(threads[t].device)
    {
      ghost var was := View();
      ExclusiveStep(was, Activate(t));
      OwnedStep(was, Activate(t));
      active := Some(threads[t].device);
      threads := threads[t := threads[t].(phase := Activated(threads[t].phase.cid, threads[t].phase.texts))];
    }

    /** A report that looks up this device from now on is aimed at the case run being started. */
    method BindRun(t: Tid)
      requires Valid() && Enabled(View(), Bind(t))
      modifies this
      ensures Valid() && View() == Next(old(View()), Bind(t))
      ensures forall r: Rid :: Enabled(View(), Target(r)) && reports[r].phase.device == threads[t].device ==>
                Targets(Next(View(), Target(r)).reports[r], threads[t].phase.cid)
    {
      ghost var was := View();
      ExclusiveStep(was, Bind(t));
      OwnedStep(was, Bind(t));
      var p := threads[t].phase;
      bound := bound[threads[t].device := Binding(p.cid, p.texts)];
      threads := threads[t := threads[t].(phase := Calling(p.cid, |p.texts|))];
    }

    /** A report that looks up this device from now on is ignored, until the next binding. */
    method UnbindRun(t: Tid)
      requires Valid() && Enabled(View(), Unbind(t))
      modifies this
      ensures Valid() && View() == Next(old(View()), Unbind(t))
      ensures forall r: Rid :: Enabled(View(), Target(r)) && reports[r].phase.device == threads[t].device ==>
                Next(View(), Target(r)).reports[r].phase == Ignored
    {
      ghost var was := View();
      ExclusiveStep(was, Unbind(t));
      OwnedStep(was, Unbind(t));
      var p := threads[t].phase;
      bound := bound - {threads[t].device};
      threads := threads[t := threads[t].(phase := Unbound(p.cid, p.expected, p.agentErr, p.terminal))];
    }

    /** The report handler from end to end, with nothing in between: the step goes to the end of the
        run bound to the active device, or to the only reachable one, and no other run changes. */
    method ReportStep(issuer: Option<Cid>, body: Body, sole: Option<Device>) returns (recorded: bool, ghost run: seq<Action>)
      requires Valid() && Enabled(View(), Begin(issuer, body))
      modifies this
      ensures Valid() && Reaches(old(View()), run, View())
      ensures var device := Resolution(active, sole);
              && recorded == (device.Some? && device.value in bound)
              && (recorded ==> var b := bound[device.value];
                               b.cid < |old(rows)| && rows == old(rows)[b.cid := Appended(old(rows)[b.cid], body, b.texts)])
              && (!recorded ==> rows == old(rows))
      ensures recorded ==>
                var b := bound[Resolution(active, sole).value];
                var n := |old(rows)[b.cid].steps|;
                && |rows| == |old(rows)| && |rows[b.cid].steps| == n + 1 && rows[b.cid].steps[..n] == old(rows)[b.cid].steps
                && Tells(rows[b.cid].steps[n], body, b.texts) && rows[b.cid].steps[n].index == n
                && forall c :: 0 <= c < |rows| && c != b.cid ==> rows[c] == old(rows)[c]
    {
      ghost var was := View();
      run := HandlerRun(was, issuer, body, sole);
      ValidAfter(was, run);
      var device := if active.Some? then active else sole;
      if device.None? || device.value !in bound {
        reports := reports + [Report(issuer, body, Ignored)];
        return false, run;
      }
      var b := bound[device.value];
      BoundRowThere(was, device.value);
      var row := rows[b.cid];
      var step := StepOf(body, b.texts, |row.steps|);
      StepTells(body, b.texts, |row.steps|);
      row := row.(steps := row.steps + [step]);
      rows := rows[b.cid := row];
      reports := reports + [Report(issuer, body, Recorded(b))];
      return true, run;
    }
  }

  /** The flag is set exactly while some run is past the guard of the device, and that run set it. */
  lemma HolderOfFlag(s: State, d: Device)
    requires Exclusive(s)
    ensures d in s.running <==> exists u: Tid :: u < |s.threads| && s.threads[u].device == d && Holds(s.threads[u].phase)
    ensures forall u: Tid :: u < |s.threads| && s.threads[u].device == d && Holds(s.threads[u].phase) ==> d in s.running && s.running[d] == u
  {
    assert FlagOk(s.running, s.threads, d);
    if d in s.running {
      assert OwnerOk(s.running, s.threads, s.running[d]);
    }
    forall u: Tid | u < |s.threads| && s.threads[u].device == d && Holds(s.threads[u].phase) ensures d in s.running && s.running[d] == u {
      assert OwnerOk(s.running, s.threads, u);
    }
  }
}
