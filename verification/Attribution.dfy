/** Which case run a reported step lands in, and when it is lost: exact conditions, the discipline under
    which nothing goes wrong, and runs in which it does. */
module Attribution {
  import opened Wrappers
  import opened Verdicts
  import opened CycleEngine

  // ---- Where a report goes ----

  /** The agent call of case run `c` is out, or its return not yet cleaned up. */
  predicate AtAgent(s: State, c: Cid) {
    c < |s.owners| && s.owners[c].0 < |s.threads| && InCall(s.threads[s.owners[c].0].phase) && s.threads[s.owners[c].0].phase.cid == c
  }

  /** Attribution, exactly: in every reachable state, a report that looks up its target picks the case
      run whose agent sent it if and only if the device it was resolved to is that run's, and that
      run's agent call is still out or not yet cleaned up. */
  lemma {:induction false} ReportGoesHomeIff(run: seq<Action>, r: Rid, c: Cid)
    requires IsRun(INITIAL, run) && Enabled(After(INITIAL, run), Target(r))
    requires After(INITIAL, run).reports[r].issuer == Some(c)
    ensures var s := After(INITIAL, run);
            Targets(Next(s, Target(r)).reports[r], c) <==>
            AtAgent(s, c) && s.threads[s.owners[c].0].device == s.reports[r].phase.device
  {
    ValidAfter(INITIAL, run);
    var s := After(INITIAL, run);
    var d := s.reports[r].phase.device;
    assert BindingOk(s.running, s.threads, s.bound, d);
    if d in s.bound {
      assert RowsOk(s, s.running[d]) && FlagOk(s.running, s.threads, d);
    }
    if AtAgent(s, c) {
      assert BoundOk(s.bound, s.threads, s.owners[c].0);
    }
  }

  /** The action writes the row of case run `c`. */
  predicate Writes(s: State, a: Action, c: Cid)
    requires Enabled(s, a)
  {
    (a.WriteRow? && s.reports[a.rid].phase.binding.cid == c) || (a.Record? && s.threads[a.tid].phase.cid == c)
  }

  predicate NoWrite(s: State, run: seq<Action>, c: Cid)
    requires IsRun(s, run)
    decreases |run|
  {
    run != [] ==> !Writes(s, run[0], c) && NoWrite(Next(s, run[0]), run[1..], c)
  }

  lemma {:induction false} RowStays(s: State, run: seq<Action>, c: Cid)
    requires IsRun(s, run) && NoWrite(s, run, c) && c < |s.rows|
    ensures c < |After(s, run).rows| && After(s, run).rows[c] == s.rows[c]
    decreases |run|
  {
    if run != [] {
      RowStays(Next(s, run[0]), run[1..], c);
    }
  }

  /** What a report has read it keeps until it writes. */
  lemma {:induction false} SnapshotStays(s: State, run: seq<Action>, r: Rid)
    requires IsRun(s, run) && r < |s.reports| && (s.reports[r].phase.Read? || s.reports[r].phase.Recorded?)
    ensures r < |After(s, run).reports| && After(s, run).reports[r].body == s.reports[r].body
    ensures After(s, run).reports[r].phase == s.reports[r].phase || After(s, run).reports[r].phase.Recorded?
    decreases |run|
  {
    if run != [] {
      var n := Next(s, run[0]);
      assert r < |n.reports| && n.reports[r].body == s.reports[r].body;
      assert n.reports[r].phase == s.reports[r].phase || n.reports[r].phase.Recorded?;
      SnapshotStays(n, run[1..], r);
    }
  }

  /** The write adds its step behind all steps the row has. */
  predicate AddsOne(s: State, r: Rid)
    requires Enabled(s, WriteRow(r))
  {
    var b := s.reports[r].phase.binding;
    Next(s, WriteRow(r)).rows[b.cid].steps == s.rows[b.cid].steps + [StepOf(s.reports[r].body, b.texts, |s.rows[b.cid].steps|)]
  }

  lemma AddsOneIff(s: State, r: Rid)
    requires Enabled(s, WriteRow(r))
    ensures AddsOne(s, r) <==> s.reports[r].phase.snapshot.steps == s.rows[s.reports[r].phase.binding.cid].steps
  {
    var p := s.reports[r].phase;
    var was, read := s.rows[p.binding.cid].steps, p.snapshot.steps;
    var after := Next(s, WriteRow(r)).rows[p.binding.cid].steps;
    assert after == read + [StepOf(s.reports[r].body, p.binding.texts, |read|)];
    if AddsOne(s, r) {
      assert |read| == |was|;
      assert read == after[..|read|] == was;
    }
  }

  /** Lost steps, exactly: a report that read the row in state `s` and writes it after `mid` adds its
      step behind all others if and only if the row's steps are then what they were at the read. No
      write to the row in between is enough. */
  lemma {:induction false} NoStepLostIff(s: State, r: Rid, mid: seq<Action>)
    requires Enabled(s, ReadRow(r)) && IsRun(Next(s, ReadRow(r)), mid)
    requires Enabled(After(Next(s, ReadRow(r)), mid), WriteRow(r))
    ensures var c := s.reports[r].phase.binding.cid;
            var e := After(Next(s, ReadRow(r)), mid);
            && e.reports[r].phase.binding.cid == c
            && (AddsOne(e, r) <==> e.rows[c].steps == s.rows[c].steps)
            && (NoWrite(Next(s, ReadRow(r)), mid, c) ==> AddsOne(e, r))
  {
    var n := Next(s, ReadRow(r));
    SnapshotStays(n, mid, r);
    AddsOneIff(After(n, mid), r);
    var c := s.reports[r].phase.binding.cid;
    if NoWrite(n, mid, c) {
      RowStays(n, mid, c);
    }
  }

  /** What a thread has reloaded it keeps until it records. */
  lemma {:induction false} ReloadStays(s: State, run: seq<Action>, t: Tid)
    requires IsRun(s, run) && t < |s.threads| && s.threads[t].phase.Reloaded?
    requires forall i :: 0 <= i < |run| ==> run[i] != Record(t, if run[i].Record? then run[i].detail else "")
    ensures t < |After(s, run).threads| && After(s, run).threads[t] == s.threads[t]
    decreases |run|
  {
    if run != [] {
      var n := Next(s, run[0]);
      assert run[0] != Record(t, if run[0].Record? then run[0].detail else "");
      assert t < |n.threads| && n.threads[t] == s.threads[t];
      ReloadStays(n, run[1..], t);
    }
  }

  /** The executor's own last write keeps the steps the row holds. */
  predicate KeepsSteps(s: State, t: Tid, detail: string)
    requires Enabled(s, Record(t, detail))
  {
    var c := s.threads[t].phase.cid;
    Next(s, Record(t, detail)).rows[c].steps == s.rows[c].steps
  }

  /** Steps lost at the end of a case, exactly: an executor that reloads the row in state `s` and records
      the verdict after `mid` keeps the steps if and only if they are then what they were at the reload;
      after a failed reload, if and only if there are none. No write in between is enough. */
  lemma {:induction false} NoStepLostAtRecordIff(s: State, t: Tid, ok: bool, mid: seq<Action>, detail: string)
    requires Enabled(s, Reload(t, ok)) && IsRun(Next(s, Reload(t, ok)), mid)
    requires forall i :: 0 <= i < |mid| ==> mid[i] != Record(t, if mid[i].Record? then mid[i].detail else "")
    requires Enabled(After(Next(s, Reload(t, ok)), mid), Record(t, detail))
    ensures var c := s.threads[t].phase.cid;
            var e := After(Next(s, Reload(t, ok)), mid);
            && e.threads[t].phase.cid == c
            && (KeepsSteps(e, t, detail) <==> e.rows[c].steps == if ok then s.rows[c].steps else [])
            && (ok && NoWrite(Next(s, Reload(t, ok)), mid, c) ==> KeepsSteps(e, t, detail))
  {
    var n := Next(s, Reload(t, ok));
    ReloadStays(n, mid, t);
    var c := s.threads[t].phase.cid;
    if NoWrite(n, mid, c) {
      RowStays(n, mid, c);
    }
  }

  // ---- The discipline ----

  /** The agent call of case run `c` is out. */
  predicate Calls(s: State, c: Cid) {
    AtAgent(s, c) && s.threads[s.owners[c].0].phase.Calling?
  }

  predicate InFlight(r: Report) {
    !r.phase.Recorded? && !r.phase.Ignored?
  }

  predicate AllSettled(s: State) {
    forall r :: 0 <= r < |s.reports| ==> !InFlight(s.reports[r])
  }

  /** One executing device, and serialized reports: a run takes a flag only while no other device has
      one, nobody else picks the active device, an agent reports only while its call is out, and a
      report starts, and an agent call returns, only when no report is in flight. */
  predicate Orderly(s: State, a: Action)
    requires Enabled(s, a)
  {
    && !a.Select?
    && (a.Guard? ==> forall d :: d in s.running ==> d == s.threads[a.tid].device)
    && (a.Begin? ==> a.issuer.Some? && Calls(s, a.issuer.value))
    && (a.Begin? || a.AgentReturns? ==> AllSettled(s))
  }

  predicate OrderlyRun(s: State, run: seq<Action>)
    requires IsRun(s, run)
    decreases |run|
  {
    run != [] ==> Orderly(s, run[0]) && OrderlyRun(Next(s, run[0]), run[1..])
  }

  predicate SoleDevice(s: State) {
    forall d, e :: d in s.running && e in s.running ==> d == e
  }

  predicate ActiveOk(s: State, t: nat) {
    t < |s.threads| && (s.threads[t].phase.Activated? || InCall(s.threads[t].phase)) ==> s.active == Some(s.threads[t].device)
  }

  /** A report in flight comes from the case run at its agent, aims nowhere else, and has read the
      row as it still is. */
  predicate FlightOk(s: State, r: nat) {
    r < |s.reports| && InFlight(s.reports[r]) ==>
      && s.reports[r].issuer.Some?
      && var c := s.reports[r].issuer.value;
         && Calls(s, c) && c < |s.rows|
         && var p := s.reports[r].phase;
            && (p.Resolved? ==> p.device == s.threads[s.owners[c].0].device)
            && (p.Targeted? || p.Read? ==> p.binding.cid == c)
            && (p.Read? ==> p.snapshot == s.rows[c])
  }

  predicate OneInFlight(s: State, r: nat, q: nat) {
    r < q < |s.reports| ==> !InFlight(s.reports[r]) || !InFlight(s.reports[q])
  }

  ghost predicate Lone(s: State) {
    && SoleDevice(s)
    && (forall t: nat :: ActiveOk(s, t))
    && (forall r: nat :: FlightOk(s, r))
    && (forall r: nat, q: nat :: OneInFlight(s, r, q))
  }

  lemma SoleDeviceStep(s: State, a: Action)
    requires SoleDevice(s) && Enabled(s, a) && Orderly(s, a)
    ensures SoleDevice(Next(s, a))
  {
  }

  /** While one device executes, only its holder's actions touch the active device, and the
      holder's action on another thread's behalf does not exist. */
  lemma ActiveAfterThread(s: State, a: Action, t: nat)
    requires OfThread(a) && Enabled(s, a) && Exclusive(s) && SoleDevice(s) && ActiveOk(s, t)
    ensures ActiveOk(AfterThread(s, a), t)
  {
    assert OwnerOk(s.running, s.threads, t) && OwnerOk(s.running, s.threads, a.tid);
  }

  /** While a report is in flight no other thread gets past the guard, so nothing moves under it. */
  lemma FlightAfterThread(s: State, a: Action, r: nat)
    requires OfThread(a) && Enabled(s, a) && Orderly(s, a) && Exclusive(s) && SoleDevice(s) && FlightOk(s, r)
    ensures FlightOk(AfterThread(s, a), r)
  {
    if r < |s.reports| && InFlight(s.reports[r]) {
      var t := s.owners[s.reports[r].issuer.value].0;
      assert OwnerOk(s.running, s.threads, t) && OwnerOk(s.running, s.threads, a.tid);
      assert a.tid != t;
      assert !Holds(s.threads[a.tid].phase);
      assert AfterThread(s, a).threads[t] == s.threads[t];
    }
  }

  lemma FlightAfterOwnMove(s: State, a: Action, r: Rid)
    requires (a.Resolve? || a.Target? || a.ReadRow? || a.WriteRow?) && Enabled(s, a) && a.rid == r
    requires FlightOk(s, r) && Owned(s)
    requires r < |s.reports| && s.reports[r].issuer.Some? && s.reports[r].issuer.value < |s.owners| ==>
               var t := s.owners[s.reports[r].issuer.value].0; ActiveOk(s, t) && BoundOk(s.bound, s.threads, t)
    ensures FlightOk(AfterReport(s, a), r)
  {
  }

  lemma FlightAfterBegin(s: State, a: Action)
    requires a.Begin? && Enabled(s, a) && Owned(s) && Orderly(s, a)
    ensures FlightOk(AfterReport(s, a), |s.reports|)
  {
  }

  lemma FlightsStep(s: State, a: Action, r: nat)
    requires Lone(s) && Exclusive(s) && Owned(s) && Enabled(s, a) && Orderly(s, a)
    ensures FlightOk(Next(s, a), r)
  {
    assert FlightOk(s, r);
    if OfThread(a) {
      FlightAfterThread(s, a, r);
    } else if a.Begin? {
      if r == |s.reports| {
        FlightAfterBegin(s, a);
      }
    } else if OfReport(a) && a.rid == r {
      var t := s.owners[s.reports[r].issuer.value].0;
      assert ActiveOk(s, t) && BoundOk(s.bound, s.threads, t);
      FlightAfterOwnMove(s, a, r);
    } else if OfReport(a) && r < |s.reports| {
      assert OneInFlight(s, if r < a.rid then r else a.rid, if r < a.rid then a.rid else r);
      assert InFlight(s.reports[a.rid]);
    }
  }

  lemma OneInFlightStep(s: State, a: Action, r: nat, q: nat)
    requires OneInFlight(s, r, q) && Enabled(s, a) && Orderly(s, a)
    ensures OneInFlight(Next(s, a), r, q)
  {
  }

  lemma LoneStep(s: State, a: Action)
    requires Lone(s) && Exclusive(s) && Owned(s) && Enabled(s, a) && Orderly(s, a)
    ensures Lone(Next(s, a))
  {
    SoleDeviceStep(s, a);
    forall t: nat ensures ActiveOk(Next(s, a), t) {
      assert ActiveOk(s, t);
      if OfThread(a) {
        ActiveAfterThread(s, a, t);
      }
    }
    forall r: nat ensures FlightOk(Next(s, a), r) {
      FlightsStep(s, a, r);
    }
    forall r: nat, q: nat ensures OneInFlight(Next(s, a), r, q) {
      assert OneInFlight(s, r, q);
      OneInFlightStep(s, a, r, q);
    }
  }

  lemma {:induction false} LoneAlways(s: State, run: seq<Action>)
    requires IsRun(s, run) && OrderlyRun(s, run) && Lone(s) && Exclusive(s) && Owned(s)
    ensures Lone(After(s, run)) && Owned(After(s, run))
    decreases |run|
  {
    if run != [] {
      LoneStep(s, run[0]);
      ExclusiveStep(s, run[0]);
      OwnedStep(s, run[0]);
      LoneAlways(Next(s, run[0]), run[1..]);
    }
  }

  /** Attribution: with one executing device and serialized reports, a recorded step lands in the
      case run whose agent sent it, at the end of the steps stored there, and touches no other row. */
  lemma {:induction false} StepLandsInItsRun(run: seq<Action>, r: Rid)
    requires IsRun(INITIAL, run) && OrderlyRun(INITIAL, run)
    requires Enabled(After(INITIAL, run), WriteRow(r))
    ensures var s := After(INITIAL, run);
            var n := Next(s, WriteRow(r));
            var c := s.reports[r].phase.binding.cid;
            var was := s.rows[c];
            && s.reports[r].issuer == Some(c)
            && n.rows == s.rows[c := was.(steps := was.steps + [StepOf(s.reports[r].body, s.reports[r].phase.binding.texts, |was.steps|)])]
  {
    LoneAlways(INITIAL, run);
    assert FlightOk(After(INITIAL, run), r);
  }

  // ---- What a row holds in the end ----

  /** The steps that the recorded reports of a case run make, in order. */
  function StepsOf(reports: seq<Report>, c: Cid, n: nat): seq<Step>
    requires n <= |reports|
  {
    if n == 0 then []
    else
      var before, r := StepsOf(reports, c, n - 1), reports[n - 1];
      if r.phase.Recorded? && r.issuer == Some(c) then before + [StepOf(r.body, r.phase.binding.texts, |before|)] else before
  }

  lemma {:induction false} SameReports(rs: seq<Report>, qs: seq<Report>, c: Cid, n: nat)
    requires n <= |rs| && n <= |qs| && rs[..n] == qs[..n]
    ensures StepsOf(rs, c, n) == StepsOf(qs, c, n)
  {
    if n > 0 {
      assert rs[n - 1] == rs[..n][n - 1] == qs[..n][n - 1] == qs[n - 1];
      assert rs[..n - 1] == rs[..n][..n - 1] == qs[..n][..n - 1] == qs[..n - 1];
      SameReports(rs, qs, c, n - 1);
    }
  }

  lemma {:induction false} NoReportsYet(reports: seq<Report>, c: Cid, n: nat)
    requires n <= |reports| && forall r :: 0 <= r < n ==> reports[r].issuer != Some(c)
    ensures StepsOf(reports, c, n) == []
  {
    if n > 0 {
      NoReportsYet(reports, c, n - 1);
    }
  }

  predicate LastOk(s: State, r: nat) {
    r < |s.reports| && InFlight(s.reports[r]) ==> r == |s.reports| - 1
  }

  predicate IssuerOk(s: State, r: nat) {
    r < |s.reports| && s.reports[r].issuer.Some? ==> s.reports[r].issuer.value < |s.rows|
  }

  predicate ReloadedOk(s: State, t: nat) {
    t < |s.threads| && s.threads[t].phase.Reloaded? && s.threads[t].phase.cid < |s.rows| ==>
      s.threads[t].phase.row.steps == s.rows[s.threads[t].phase.cid].steps
  }

  predicate FiledOk(s: State, c: nat) {
    c < |s.rows| ==> s.rows[c].steps == StepsOf(s.reports, c, |s.reports|)
  }

  ghost predicate Filed(s: State) {
    && (forall r: nat :: LastOk(s, r) && IssuerOk(s, r))
    && (forall t: nat :: ReloadedOk(s, t))
    && (forall c: nat :: FiledOk(s, c))
  }

  lemma LastStep(s: State, a: Action, r: nat)
    requires Enabled(s, a) && Orderly(s, a) && LastOk(s, r) && IssuerOk(s, r)
    ensures LastOk(Next(s, a), r) && IssuerOk(Next(s, a), r)
  {
  }

  lemma ReloadedAfterOther(s: State, a: Action, t: nat)
    requires OfThread(a) && Enabled(s, a) && a.tid != t && RowsOk(s, t) && RowsOk(s, a.tid) && ReloadedOk(s, t) && |s.owners| == |s.rows|
    ensures ReloadedOk(AfterThread(s, a), t)
  {
    if t < |s.threads| && s.threads[t].phase.Reloaded? && a.Record? {
      assert s.owners[s.threads[t].phase.cid].0 == t && s.owners[s.threads[a.tid].phase.cid].0 == a.tid;
    }
  }

  lemma ReloadedAfterOwn(s: State, a: Action, t: nat)
    requires OfThread(a) && Enabled(s, a) && a.tid == t && (a.Reload? ==> a.ok)
    ensures ReloadedOk(AfterThread(s, a), t)
  {
  }

  /** A report in flight is of a case run at its agent, not of one being closed. */
  lemma ReloadedAfterReport(s: State, a: Action, t: nat)
    requires OfReport(a) && Enabled(s, a) && RowsOk(s, t) && ReloadedOk(s, t) && (a.WriteRow? ==> FlightOk(s, a.rid))
    ensures ReloadedOk(AfterReport(s, a), t)
  {
    if t < |s.threads| && s.threads[t].phase.Reloaded? && a.WriteRow? {
      var c := s.reports[a.rid].issuer.value;
      assert Calls(s, c);
      assert s.owners[s.threads[t].phase.cid].0 == t;
    }
  }

  lemma ReloadedStep(s: State, a: Action, t: nat)
    requires Enabled(s, a) && Owned(s) && (a.Reload? ==> a.ok) && ReloadedOk(s, t)
    requires a.WriteRow? ==> FlightOk(s, a.rid)
    ensures ReloadedOk(Next(s, a), t)
  {
    assert RowsOk(s, t);
    if OfThread(a) {
      assert RowsOk(s, a.tid);
      if a.tid == t {
        ReloadedAfterOwn(s, a, t);
      } else {
        ReloadedAfterOther(s, a, t);
      }
    } else if OfReport(a) {
      ReloadedAfterReport(s, a, t);
    }
  }

  lemma {:induction false} FiledAfterThread(s: State, a: Action, c: nat)
    requires OfThread(a) && Enabled(s, a) && FiledOk(s, c) && ReloadedOk(s, a.tid)
    requires forall r: nat :: IssuerOk(s, r)
    ensures FiledOk(AfterThread(s, a), c)
  {
    if a.Open? && a.ok && c == |s.rows| {
      forall r | 0 <= r < |s.reports| ensures s.reports[r].issuer != Some(c) {
        assert IssuerOk(s, r);
      }
      NoReportsYet(s.reports, c, |s.reports|);
    }
  }

  lemma {:induction false} FiledAfterWrite(s: State, r: Rid, c: nat)
    requires Enabled(s, WriteRow(r)) && FiledOk(s, c) && LastOk(s, r) && FlightOk(s, r)
    ensures FiledOk(AfterReport(s, WriteRow(r)), c)
  {
    var n := AfterReport(s, WriteRow(r));
    assert n.reports[..r] == s.reports[..r];
    SameReports(s.reports, n.reports, c, r);
  }

  lemma {:induction false} FiledAfterReport(s: State, a: Action, c: nat)
    requires OfReport(a) && Enabled(s, a) && FiledOk(s, c) && !a.WriteRow?
    requires !a.Begin? ==> LastOk(s, a.rid)
    ensures FiledOk(AfterReport(s, a), c)
  {
    var n := AfterReport(s, a);
    var k := |n.reports| - 1;
    assert n.rows == s.rows && n.reports[..k] == s.reports[..k];
    SameReports(s.reports, n.reports, c, k);
  }

  lemma FiledStep(s: State, a: Action)
    requires Filed(s) && Lone(s) && Owned(s) && Enabled(s, a) && Orderly(s, a) && (a.Reload? ==> a.ok)
    ensures Filed(Next(s, a))
  {
    var n := Next(s, a);
    forall r: nat ensures LastOk(n, r) && IssuerOk(n, r) {
      assert LastOk(s, r) && IssuerOk(s, r);
      LastStep(s, a, r);
    }
    forall t: nat ensures ReloadedOk(n, t) {
      assert ReloadedOk(s, t) && (a.WriteRow? ==> FlightOk(s, a.rid));
      ReloadedStep(s, a, t);
    }
    forall c: nat ensures FiledOk(n, c) {
      assert FiledOk(s, c);
      if OfThread(a) {
        assert ReloadedOk(s, a.tid);
        FiledAfterThread(s, a, c);
      } else if OfReport(a) {
        assert !a.Begin? ==> LastOk(s, a.rid) && FlightOk(s, a.rid);
        if a.WriteRow? {
          FiledAfterWrite(s, a.rid, c);
        } else {
          FiledAfterReport(s, a, c);
        }
      }
    }
  }

  lemma {:induction false} FiledAlways(s: State, run: seq<Action>)
    requires IsRun(s, run) && OrderlyRun(s, run) && Lone(s) && Exclusive(s) && Owned(s) && Filed(s)
    requires forall i :: 0 <= i < |run| && run[i].Reload? ==> run[i].ok
    ensures Filed(After(s, run))
    decreases |run|
  {
    if run != [] {
      assert run[0].Reload? ==> run[0].ok;
      FiledStep(s, run[0]);
      LoneStep(s, run[0]);
      ExclusiveStep(s, run[0]);
      OwnedStep(s, run[0]);
      FiledAlways(Next(s, run[0]), run[1..]);
    }
  }

  /** Nothing lost, nothing foreign: with one executing device, serialized reports and no failed reload,
      the steps of every case run are at all times those of the recorded reports of its own agent, in the
      order they were made, through the executor's own writes too. */
  lemma {:induction false} RowHoldsItsReports(run: seq<Action>, c: Cid)
    requires IsRun(INITIAL, run) && OrderlyRun(INITIAL, run)
    requires forall i :: 0 <= i < |run| && run[i].Reload? ==> run[i].ok
    requires c < |After(INITIAL, run).rows|
    ensures var s := After(INITIAL, run); s.rows[c].steps == StepsOf(s.reports, c, |s.reports|)
  {
    FiledAlways(INITIAL, run);
    assert FiledOk(After(INITIAL, run), c);
  }

  // ---- What the verdicts rest on ----

  lemma {:induction false} RecordedIsThere(reports: seq<Report>, c: Cid, n: nat, r: nat) returns (i: nat)
    requires r < n <= |reports| && reports[r].phase.Recorded? && reports[r].issuer == Some(c)
    ensures i < |StepsOf(reports, c, n)| && Tells(StepsOf(reports, c, n)[i], reports[r].body, reports[r].phase.binding.texts)
  {
    var before := StepsOf(reports, c, n - 1);
    if r == n - 1 {
      i := |before|;
      StepTells(reports[r].body, reports[r].phase.binding.texts, i);
    } else {
      i := RecordedIsThere(reports, c, n - 1, r);
      assert StepsOf(reports, c, n)[..|before|] == before;
    }
  }

  /** What was classified is what the row holds. */
  predicate EvidenceOk(s: State, t: nat) {
    t < |s.threads| ==>
      forall k :: 0 <= k < |s.threads[t].done| && s.threads[t].done[k].Ran? && s.threads[t].done[k].cid < |s.rows| ==>
        s.threads[t].done[k].evidence == s.rows[s.threads[t].done[k].cid].steps
  }

  /** A row belongs to the case its cycle run is at, or to the outcome in that place. */
  predicate PlacedOk(s: State, c: nat) {
    c < |s.owners| && s.owners[c].0 < |s.threads| ==>
      var th, k := s.threads[s.owners[c].0], s.owners[c].1;
      (HasRow(th.phase) && th.phase.cid == c) || (k < |th.done| && th.done[k].Ran? && th.done[k].cid == c)
  }

  lemma EvidenceAfterOwn(s: State, a: Action, t: nat)
    requires OfThread(a) && Enabled(s, a) && a.tid == t && RowsOk(s, t) && |s.owners| == |s.rows|
    requires EvidenceOk(s, t) && ReloadedOk(s, t)
    ensures EvidenceOk(AfterThread(s, a), t)
  {
    var n := AfterThread(s, a);
    var th, th' := s.threads[t], n.threads[t];
    forall k | 0 <= k < |th'.done| && th'.done[k].Ran? && th'.done[k].cid < |n.rows|
      ensures th'.done[k].evidence == n.rows[th'.done[k].cid].steps
    {
      assert k < |th.done| ==> th'.done[k] == th.done[k] && (th.done[k].Ran? ==> s.owners[th.done[k].cid] == (t, k));
    }
  }

  lemma EvidenceAfterOther(s: State, a: Action, t: nat)
    requires OfThread(a) && Enabled(s, a) && a.tid != t && RowsOk(s, t) && RowsOk(s, a.tid) && |s.owners| == |s.rows|
    requires EvidenceOk(s, t)
    ensures EvidenceOk(AfterThread(s, a), t)
  {
    var n := AfterThread(s, a);
    if t < |s.threads| {
      var th := s.threads[t];
      forall k | 0 <= k < |th.done| && th.done[k].Ran? && th.done[k].cid < |n.rows|
        ensures th.done[k].evidence == n.rows[th.done[k].cid].steps
      {
        assert s.owners[th.done[k].cid] == (t, k);
        assert a.Record? ==> s.owners[s.threads[a.tid].phase.cid].0 == a.tid;
      }
    }
  }

  lemma EvidenceAfterReport(s: State, a: Action, t: nat)
    requires OfReport(a) && Enabled(s, a) && RowsOk(s, t) && EvidenceOk(s, t) && |s.owners| == |s.rows|
    requires a.WriteRow? ==> FlightOk(s, a.rid) && forall u: nat :: RowsOk(s, u)
    ensures EvidenceOk(AfterReport(s, a), t)
  {
    if a.WriteRow? && t < |s.threads| {
      var c := s.reports[a.rid].issuer.value;
      assert Calls(s, c) && RowsOk(s, s.owners[c].0);
      var th := s.threads[t];
      forall k | 0 <= k < |th.done| && th.done[k].Ran? && th.done[k].cid < |s.rows| ensures th.done[k].cid != c {
        assert s.owners[th.done[k].cid] == (t, k);
      }
    }
  }

  lemma PlacedAfterRecord(s: State, a: Action, c: nat)
    requires a.Record? && Enabled(s, a) && PlacedOk(s, c) && RowsOk(s, a.tid)
    ensures PlacedOk(AfterThread(s, a), c)
  {
  }

  lemma PlacedAfterThread(s: State, a: Action, c: nat)
    requires OfThread(a) && Enabled(s, a) && |s.owners| == |s.rows| && PlacedOk(s, c) && RowsOk(s, a.tid)
    ensures PlacedOk(AfterThread(s, a), c)
  {
    if a.Record? {
      PlacedAfterRecord(s, a, c);
    }
  }

  ghost predicate Evident(s: State) {
    (forall t: nat :: EvidenceOk(s, t)) && forall c: nat :: PlacedOk(s, c)
  }

  lemma EvidentStep(s: State, a: Action)
    requires Evident(s) && Filed(s) && Lone(s) && Owned(s) && Enabled(s, a)
    ensures Evident(Next(s, a))
  {
    var n := Next(s, a);
    forall t: nat ensures EvidenceOk(n, t) {
      assert EvidenceOk(s, t) && RowsOk(s, t) && ReloadedOk(s, t);
      if OfThread(a) {
        assert RowsOk(s, a.tid);
        if a.tid == t {
          EvidenceAfterOwn(s, a, t);
        } else {
          EvidenceAfterOther(s, a, t);
        }
      } else if OfReport(a) {
        assert a.WriteRow? ==> FlightOk(s, a.rid);
        EvidenceAfterReport(s, a, t);
      }
    }
    forall c: nat ensures PlacedOk(n, c) {
      assert PlacedOk(s, c) && OwnerThere(s, c);
      if OfThread(a) {
        assert RowsOk(s, a.tid);
        PlacedAfterThread(s, a, c);
      }
    }
  }

  lemma {:induction false} EvidentAlways(s: State, run: seq<Action>)
    requires IsRun(s, run) && OrderlyRun(s, run) && Lone(s) && Exclusive(s) && Owned(s) && Filed(s) && Evident(s)
    requires forall i :: 0 <= i < |run| && run[i].Reload? ==> run[i].ok
    ensures Evident(After(s, run)) && Filed(After(s, run)) && Owned(After(s, run))
    decreases |run|
  {
    if run != [] {
      assert run[0].Reload? ==> run[0].ok;
      EvidentStep(s, run[0]);
      FiledStep(s, run[0]);
      LoneStep(s, run[0]);
      ExclusiveStep(s, run[0]);
      OwnedStep(s, run[0]);
      EvidentAlways(Next(s, run[0]), run[1..]);
    }
  }

  lemma {:induction false} EvidenceIsReports(run: seq<Action>, t: Tid, k: nat)
    requires IsRun(INITIAL, run) && OrderlyRun(INITIAL, run)
    requires forall i :: 0 <= i < |run| && run[i].Reload? ==> run[i].ok
    requires t < |After(INITIAL, run).threads| && k < |After(INITIAL, run).threads[t].done| && After(INITIAL, run).threads[t].done[k].Ran?
    ensures var s := After(INITIAL, run);
            var o := s.threads[t].done[k];
            o.cid < |s.rows| == |s.owners| && s.owners[o.cid] == (t, k) && o.evidence == StepsOf(s.reports, o.cid, |s.reports|)
  {
    EvidentAlways(INITIAL, run);
    var s := After(INITIAL, run);
    assert RowsOk(s, t) && EvidenceOk(s, t);
    assert FiledOk(s, s.threads[t].done[k].cid);
  }

  /** No green over a bad report: under the discipline, a cycle run for one of whose cases the agent
      recorded a report that says fail or blocked never ends passed. */
  lemma {:induction false} BadReportNeverPasses(run: seq<Action>, r: Rid, c: Cid)
    requires IsRun(INITIAL, run) && OrderlyRun(INITIAL, run)
    requires forall i :: 0 <= i < |run| && run[i].Reload? ==> run[i].ok
    requires var s := After(INITIAL, run);
             r < |s.reports| && s.reports[r].phase.Recorded? && s.reports[r].issuer == Some(c)
             && (Says(s.reports[r].body.status, "fail") || Says(s.reports[r].body.status, "blocked"))
    ensures var s := After(INITIAL, run);
            c < |s.owners| && s.owners[c].0 < |s.threads| && s.threads[s.owners[c].0].status != Passed
  {
    EvidentAlways(INITIAL, run);
    var s := After(INITIAL, run);
    assert IssuerOk(s, r) && OwnerThere(s, c) && PlacedOk(s, c);
    var t, k := s.owners[c].0, s.owners[c].1;
    if s.threads[t].status == Passed {
      GreenNeedsEvidence(run, t);
      NoCaseWhenPassed(run, t);
      assert Green(s.threads[t].done[k]);
      EvidenceIsReports(run, t, k);
      var i := RecordedIsThere(s.reports, c, |s.reports|, r);
      assert HasStatus(s.threads[t].done[k].evidence, s.threads[t].done[k].evidence[i].status);
    }
  }

  /** A cycle run that has passed is at none of its cases. */
  lemma {:induction false} NoCaseWhenPassed(run: seq<Action>, t: Tid)
    requires IsRun(INITIAL, run) && t < |After(INITIAL, run).threads| && After(INITIAL, run).threads[t].status == Passed
    ensures !HasRow(After(INITIAL, run).threads[t].phase)
  {
    TalliesAlways(INITIAL, run, t);
  }
}
