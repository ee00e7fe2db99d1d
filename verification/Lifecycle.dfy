/** The life of one virtual device: start, deploy, stop and delete run as background programs over
    its row, a crash can fall anywhere, and the next start of the service reconciles the row. */
module Lifecycle {
  import opened Wrappers

  datatype InstanceState = Provisioning | Starting | Booting | Running | Stopping | Stopped | Error | Deleting

  datatype Kind = Start | Deploy | Stop | Delete

  /** The operation row: not written yet, running, or finished. */
  datatype Status = Unwritten | InProgress | Succeeded | Failed

  /** What an operation does next. `Try` stands for a foreign call that may fail: fetching the image,
      launching, waiting for the boot, stopping. */
  datatype Step = Open | Set(state: InstanceState) | Read | Try | StopIfLive | Remove | Close

  function Program(k: Kind): seq<Step> {
    match k
    case Start => [Open, Set(Starting), Read, Try, Set(Booting), Try, Set(Running), Close]
    case Deploy => [Open, Set(Provisioning), Read, Try, Set(Starting), Try, Set(Booting), Try, Set(Running), Close]
    case Stop => [Open, Set(Stopping), Try, Set(Stopped), Close]
    case Delete => [Open, Set(Deleting), StopIfLive, Remove, Close]
  }

  predicate IsPossiblyLive(st: InstanceState) {
    st in {Starting, Booting, Running, Stopping, Error}
  }

  /** When a request is accepted. */
  predicate Accepts(k: Kind, st: InstanceState) {
    match k
    case Start => st == Stopped || st == Error
    case Deploy => st == Stopped || st == Error
    case Stop => IsPossiblyLive(st)
    case Delete => st != Deleting
  }

  /** Where an operation is: at a step, on its way out after a failure, finished, at its end with its
      operation row unfinished, refused by the store after it was accepted, or killed. */
  datatype Pc = At(n: nat) | FailSet | FailClose | Over | Lost | Dropped | Killed

  /** `seen` is the state in the record the operation was handed; `finishes` counts how often its
      operation row was finished. Every store call carries the operation's context: once that has
      expired, because a deadline passed or the caller went away, each of them fails. */
  datatype Thread = Thread(kind: Kind, pc: Pc, status: Status, finishes: nat, seen: Option<InstanceState>, expired: bool)

  /** `stops` counts the stop commands issued by delete operations. */
  datatype State = State(row: Option<InstanceState>, threads: seq<Thread>, up: bool, stops: nat)

  datatype Action = Request(kind: Kind) | Advance(i: nat, ok: bool) | Expire(i: nat) | Crash | Reconcile(ok: bool)

  predicate Active(t: Thread) {
    (t.pc.At? && t.pc.n < |Program(t.kind)|) || t.pc.FailSet? || t.pc.FailClose?
  }

  function StepOf(t: Thread): Step
    requires t.pc.At? && t.pc.n < |Program(t.kind)|
  {
    Program(t.kind)[t.pc.n]
  }

  /** The step is a statement that changes the row, if there is one. */
  predicate Writes(t: Thread)
    requires Active(t)
  {
    !t.expired && (t.pc.FailSet? || (t.pc.At? && (StepOf(t).Set? || StepOf(t).Remove?)))
  }

  /** The row after a step of the operation. */
  function RowAfter(t: Thread, row: Option<InstanceState>): Option<InstanceState>
    requires Active(t)
  {
    if row.None? || !Writes(t) then row
    else if t.pc.FailSet? then Some(Error)
    else if StepOf(t).Set? then Some(StepOf(t).state)
    else None
  }

  function Next(t: Thread): Thread
    requires t.pc.At?
  {
    t.(pc := At(t.pc.n + 1))
  }

  /** The operation after its step; `ok` is the outcome of a foreign call. */
  function ThreadAfter(t: Thread, row: Option<InstanceState>, ok: bool): Thread
    requires Active(t)
  {
    match t.pc
    case FailSet => t.(pc := FailClose)
    case FailClose => if t.expired then t.(pc := Lost) else t.(pc := Over, status := Failed, finishes := t.finishes + 1)
    case At(n) =>
      var found := row.Some? && !t.expired;
      match StepOf(t)
      case Open => if t.expired then t.(pc := Dropped) else Next(t).(status := InProgress)
      case Set(st) => if found then Next(t).(seen := Some(st)) else if n == 1 then t.(pc := Dropped) else t.(pc := FailClose)
      case Read => if found then Next(t) else t.(pc := FailClose)
      case Try => if ok then Next(t) else t.(pc := FailSet)
      case StopIfLive => if StopsNow(t) && !ok then t.(pc := FailSet) else Next(t)
      case Remove => if found then Next(t) else t.(pc := FailClose)
      case Close => if t.expired then t.(pc := Lost) else t.(pc := Over, status := Succeeded, finishes := t.finishes + 1)
  }

  /** The branch of a delete that stops a device which may be live. */
  predicate StopsNow(t: Thread) {
    Active(t) && t.pc.At? && StepOf(t).StopIfLive? && t.seen.Some? && IsPossiblyLive(t.seen.value)
  }

  function Reconciled(st: InstanceState, ok: bool): InstanceState {
    match st
    case Starting => if ok then Running else Error
    case Booting => if ok then Running else Error
    case Running => if ok then Running else Error
    case Stopping => Error
    case Deleting => Error
    case Provisioning => Provisioning
    case Stopped => Stopped
    case Error => Error
  }

  function KilledThreads(ts: seq<Thread>): (r: seq<Thread>)
    ensures |r| == |ts|
  {
    seq(|ts|, i requires 0 <= i < |ts| => if Active(ts[i]) then ts[i].(pc := Killed) else ts[i])
  }

  predicate Enabled(s: State, a: Action) {
    match a
    case Request(k) => s.up && s.row.Some? && Accepts(k, s.row.value)
    case Advance(i, _) => s.up && i < |s.threads| && Active(s.threads[i])
    case Expire(i) => s.up && i < |s.threads| && Active(s.threads[i])
    case Crash => s.up
    case Reconcile(_) => !s.up
  }

  function Apply(s: State, a: Action): State
    requires Enabled(s, a)
  {
    match a
    case Request(k) => s.(threads := s.threads + [Thread(k, At(0), Unwritten, 0, None, false)])
    case Advance(i, ok) =>
      var t := s.threads[i];
      s.(row := RowAfter(t, s.row), threads := s.threads[i := ThreadAfter(t, s.row, ok)],
         stops := s.stops + if StopsNow(t) then 1 else 0)
    case Expire(i) => s.(threads := s.threads[i := s.threads[i].(expired := true)])
    case Crash => s.(threads := KilledThreads(s.threads), up := false)
    case Reconcile(ok) => s.(row := if s.row.None? then None else Some(Reconciled(s.row.value, ok)), up := true)
  }

  ghost predicate IsRun(s: State, run: seq<Action>)
    decreases |run|
  {
    run == [] || (Enabled(s, run[0]) && IsRun(Apply(s, run[0]), run[1..]))
  }

  function After(s: State, run: seq<Action>): State
    requires IsRun(s, run)
    decreases |run|
  {
    if run == [] then s else After(Apply(s, run[0]), run[1..])
  }

  const FRESH := State(Some(Stopped), [], true, 0)

  // ---- Every operation finishes at most once ----

  predicate ThreadOk(t: Thread) {
    && (t.pc.Over? ==> !t.expired) && (t.pc.Lost? ==> t.expired)
    && t.finishes == (if t.pc.Over? then 1 else 0)
    && (t.status == Succeeded || t.status == Failed <==> t.pc.Over?)
    && (t.pc.At? ==> t.pc.n < |Program(t.kind)|)
    && (t.kind == Delete && t.pc.At? && t.pc.n >= 2 ==> t.seen == Some(Deleting))
  }

  predicate ThreadsOk(ts: seq<Thread>) {
    forall i :: 0 <= i < |ts| ==> ThreadOk(ts[i])
  }

  lemma StepKeepsThreads(s: State, a: Action)
    requires ThreadsOk(s.threads) && Enabled(s, a)
    ensures ThreadsOk(Apply(s, a).threads) && Apply(s, a).stops == s.stops
  {
  }

  lemma {:induction false} ThreadsAlwaysOk(s: State, run: seq<Action>)
    requires ThreadsOk(s.threads) && IsRun(s, run)
    ensures ThreadsOk(After(s, run).threads) && After(s, run).stops == s.stops
    decreases |run|
  {
    if run != [] {
      StepKeepsThreads(s, run[0]);
      ThreadsAlwaysOk(Apply(s, run[0]), run[1..]);
    }
  }

  /** In every run, overlapping or not, an operation row is finished at most once and not before its
      operation ends. At the end it is finished if and only if the operation's context has not
      expired. */
  lemma {:induction false} FinishesOnce(run: seq<Action>, i: nat)
    requires IsRun(FRESH, run) && i < |After(FRESH, run).threads|
    ensures var t := After(FRESH, run).threads[i];
            && t.finishes == (if t.pc.Over? then 1 else 0)
            && (t.status == Succeeded || t.status == Failed <==> t.pc.Over?)
            && (t.pc.Over? || t.pc.Lost? ==> (t.finishes == 1 <==> !t.expired))
  {
    ThreadsAlwaysOk(FRESH, run);
  }

  /** A background program runs only for a device that was marked. An operation that was accepted and then
      dropped has finished nothing. */
  predicate MarkedOk(t: Thread) {
    && ((t.pc.At? && t.pc.n >= 2) || t.pc.FailSet? || t.pc.FailClose? || t.pc.Over? || t.pc.Lost? ==> t.seen.Some?)
    && (t.pc.Dropped? ==> t.seen.None? && t.finishes == 0)
    && (t.pc.At? && t.pc.n <= 1 ==> t.seen.None? && t.finishes == 0)
  }

  lemma MarkedStepKeeps(s: State, a: Action)
    requires ThreadsOk(s.threads) && (forall i :: 0 <= i < |s.threads| ==> MarkedOk(s.threads[i])) && Enabled(s, a)
    ensures forall i :: 0 <= i < |Apply(s, a).threads| ==> MarkedOk(Apply(s, a).threads[i])
  {
    if a.Advance? {
      OpensFirst(s.threads[a.i].kind);
    }
  }

  lemma {:induction false} MarkedAlways(s: State, run: seq<Action>)
    requires ThreadsOk(s.threads) && (forall i :: 0 <= i < |s.threads| ==> MarkedOk(s.threads[i])) && IsRun(s, run)
    ensures forall i :: 0 <= i < |After(s, run).threads| ==> MarkedOk(After(s, run).threads[i])
    decreases |run|
  {
    if run != [] {
      MarkedStepKeeps(s, run[0]);
      StepKeepsThreads(s, run[0]);
      MarkedAlways(Apply(s, run[0]), run[1..]);
    }
  }

  /** In every run: an operation whose mark did not reach the row, because the row was gone or the
      caller went away, goes no further, and none that goes further is without one. */
  lemma {:induction false} NoMarkNoProgram(run: seq<Action>, i: nat)
    requires IsRun(FRESH, run) && i < |After(FRESH, run).threads|
    ensures var t := After(FRESH, run).threads[i];
            && (t.seen.None? ==> (t.pc.At? && t.pc.n <= 1) || t.pc.Dropped? || t.pc.Killed?)
            && (t.pc.Dropped? ==> t.seen.None? && t.finishes == 0)
  {
    MarkedAlways(FRESH, run);
  }

  // ---- An expired context, and the end of an operation ----

  lemma MuteStep(s: State, a: Action, i: nat)
    requires Enabled(s, a) && i < |s.threads| && s.threads[i].expired
    ensures i < |Apply(s, a).threads|
    ensures var t, t' := s.threads[i], Apply(s, a).threads[i];
            t'.expired && t'.status == t.status && t'.finishes == t.finishes && t'.seen == t.seen
    ensures a.Advance? && a.i == i ==> Apply(s, a).row == s.row
  {
  }

  /** Once its context has expired an operation changes nothing any more: neither its operation row nor
      the device's. */
  lemma {:induction false} ExpiredIsMute(s: State, run: seq<Action>, i: nat)
    requires IsRun(s, run) && i < |s.threads| && s.threads[i].expired
    ensures i < |After(s, run).threads|
    ensures var t, t' := s.threads[i], After(s, run).threads[i];
            t'.status == t.status && t'.finishes == t.finishes && t'.seen == t.seen
    ensures (forall k :: 0 <= k < |run| ==> run[k].Advance? && run[k].i == i) ==> After(s, run).row == s.row
    decreases |run|
  {
    if run != [] {
      MuteStep(s, run[0], i);
      ExpiredIsMute(Apply(s, run[0]), run[1..], i);
    }
  }

  /** How many steps an operation has left, at most. */
  function Left(t: Thread): nat {
    if t.pc.At? && t.pc.n <= |Program(t.kind)| then |Program(t.kind)| - t.pc.n + 2
    else if t.pc.FailSet? then 2
    else if t.pc.FailClose? then 1
    else 0
  }

  function OwnSteps(run: seq<Action>, i: nat): nat {
    if run == [] then 0 else (if run[0].Advance? && run[0].i == i then 1 else 0) + OwnSteps(run[1..], i)
  }

  lemma LeftStep(s: State, a: Action, i: nat)
    requires Enabled(s, a) && i < |s.threads| && ThreadOk(s.threads[i])
    ensures i < |Apply(s, a).threads|
    ensures Left(Apply(s, a).threads[i]) + (if a.Advance? && a.i == i then 1 else 0) <= Left(s.threads[i])
  {
    ClosesLast(s.threads[i].kind, |Program(s.threads[i].kind)| - 1);
  }

  lemma {:induction false} LeftShrinks(s: State, run: seq<Action>, i: nat)
    requires ThreadsOk(s.threads) && IsRun(s, run)
    requires i < |s.threads|
    ensures i < |After(s, run).threads| && OwnSteps(run, i) + Left(After(s, run).threads[i]) <= Left(s.threads[i])
    decreases |run|
  {
    if run != [] {
      LeftStep(s, run[0], i);
      StepKeepsThreads(s, run[0]);
      LeftShrinks(Apply(s, run[0]), run[1..], i);
    }
  }

  /** No operation goes on for ever: from any point of any run, one that is still under way has a next
      step while the service is up, and ends after its program's length and two more steps at most. */
  lemma {:induction false} OperationsEnd(run: seq<Action>, rest: seq<Action>, i: nat)
    requires IsRun(FRESH, run) && IsRun(After(FRESH, run), rest) && i < |After(FRESH, run).threads|
    ensures var s, t := After(FRESH, run), After(After(FRESH, run), rest);
            && i < |t.threads|
            && OwnSteps(rest, i) <= |Program(s.threads[i].kind)| + 2
            && (OwnSteps(rest, i) == |Program(s.threads[i].kind)| + 2 ==> !Active(t.threads[i]))
            && (Active(t.threads[i]) && t.up ==> Enabled(t, Advance(i, true)) && Enabled(t, Advance(i, false)))
  {
    ThreadsAlwaysOk(FRESH, run);
    LeftShrinks(After(FRESH, run), rest, i);
  }

  /** The stop branch of a delete never runs: the record it tests already says deleting. */
  lemma {:induction false} DeleteNeverStops(run: seq<Action>)
    requires IsRun(FRESH, run)
    ensures After(FRESH, run).stops == 0
  {
    ThreadsAlwaysOk(FRESH, run);
  }

  /** That branch stops a device which the record handed over calls live, and a stop that fails there
      sends the delete on its way out; no record ever does. */
  lemma DeleteWouldStop(s: State, i: nat, ok: bool)
    requires Enabled(s, Advance(i, ok)) && s.threads[i].kind == Delete && s.threads[i].pc == At(2)
    ensures var n := Apply(s, Advance(i, ok));
            var live := s.threads[i].seen.Some? && s.threads[i].seen.value in {Starting, Booting, Running, Stopping, Error};
            n.stops == s.stops + (if live then 1 else 0) && n.threads[i].pc == if live && !ok then FailSet else At(3)
  {
  }

  // ---- What an outcome says about the row ----

  /** The row an undisturbed operation sees at step `n`, once it has marked it. */
  function RowAt(k: Kind, n: nat): Option<InstanceState>
    requires 2 <= n <= |Program(k)|
  {
    var st := Program(k)[n - 1];
    if st.Set? then Some(st.state) else if st.Remove? || n == 2 then None else RowAt(k, n - 1)
  }

  /** Where success leaves the row. */
  function Goal(k: Kind): Option<InstanceState> {
    match k
    case Start => Some(Running)
    case Deploy => Some(Running)
    case Stop => Some(Stopped)
    case Delete => None
  }

  lemma {:induction false} GoalReached(k: Kind)
    ensures RowAt(k, |Program(k)| - 1) == Goal(k)
  {
  }

  /** Steps before the end find the row. */
  lemma {:induction false} RowThere(k: Kind, n: nat)
    requires 2 <= n < |Program(k)| - 1
    ensures RowAt(k, n).Some?
  {
    match k {
      case Start => StartRows(n);
      case Deploy => DeployRows(n);
      case Stop => assert RowAt(k, 2) == Some(Stopping) && RowAt(k, 3) == RowAt(k, 2);
      case Delete => assert RowAt(k, 2) == Some(Deleting) && RowAt(k, 3) == RowAt(k, 2);
    }
  }

  lemma {:induction false} StartRows(n: nat)
    requires 2 <= n < 7
    ensures RowAt(Start, n) == Some(if n < 5 then Starting else if n < 7 then Booting else Running)
  {
    assert RowAt(Start, 2) == Some(Starting) && RowAt(Start, 3) == RowAt(Start, 2) && RowAt(Start, 4) == RowAt(Start, 3);
    assert RowAt(Start, 5) == Some(Booting) && RowAt(Start, 6) == RowAt(Start, 5);
  }

  lemma {:induction false} DeployRows(n: nat)
    requires 2 <= n < 9
    ensures RowAt(Deploy, n) == Some(if n < 5 then Provisioning else if n < 7 then Starting else Booting)
  {
    assert RowAt(Deploy, 2) == Some(Provisioning) && RowAt(Deploy, 3) == RowAt(Deploy, 2) && RowAt(Deploy, 4) == RowAt(Deploy, 3);
    assert RowAt(Deploy, 5) == Some(Starting) && RowAt(Deploy, 6) == RowAt(Deploy, 5);
    assert RowAt(Deploy, 7) == Some(Booting) && RowAt(Deploy, 8) == RowAt(Deploy, 7);
  }

  lemma ClosesLast(k: Kind, n: nat)
    requires n < |Program(k)|
    ensures Program(k)[n].Close? <==> n == |Program(k)| - 1
  {
  }

  lemma OpensFirst(k: Kind)
    ensures Program(k)[0].Open? && Program(k)[1].Set? && forall n :: 2 <= n < |Program(k)| ==> !Program(k)[n].Open?
  {
  }

  /** What a finished operation promises about the row. */
  predicate Promised(t: Thread, row: Option<InstanceState>) {
    && t.pc.Over?
    && (t.status == Succeeded ==> row == Goal(t.kind)) && (t.status == Failed ==> row == Some(Error))
    && (t.status == Succeeded || t.status == Failed)
  }

  /** The operation is about to end. */
  predicate Closing(t: Thread) {
    t.pc.FailClose? || (t.pc.At? && t.pc.n == |Program(t.kind)| - 1)
  }

  /** What an operation at its end wrote last; a failed one that got to write anything wrote an error. */
  function LastWrote(t: Thread): Option<InstanceState>
    requires Closing(t)
  {
    if t.pc.FailClose? then Some(Error) else RowAt(t.kind, t.pc.n)
  }

  /** In every run, overlapping or not, an operation that ends is right about the row if and only if its
      context has not expired and the row is what the operation wrote last. */
  lemma {:induction false} RightIffOwnRow(run: seq<Action>, i: nat, ok: bool)
    requires IsRun(FRESH, run) && Enabled(After(FRESH, run), Advance(i, ok)) && Closing(After(FRESH, run).threads[i])
    ensures var s := After(FRESH, run);
            var s' := Apply(s, Advance(i, ok));
            Promised(s'.threads[i], s'.row) <==> !s.threads[i].expired && s.row == LastWrote(s.threads[i])
  {
    var t := After(FRESH, run).threads[i];
    if t.pc.At? {
      ClosesLast(t.kind, t.pc.n);
      GoalReached(t.kind);
    }
  }

  /** Who changed the row last, if it was an operation; `w` for the time before. */
  function WriterAfter(s: State, a: Action, w: Option<nat>): Option<nat>
    requires Enabled(s, a)
  {
    if a.Advance? && Writes(s.threads[a.i]) && s.row.Some? then Some(a.i) else if a.Reconcile? then None else w
  }

  function LastWriter(s: State, run: seq<Action>, w: Option<nat>): Option<nat>
    requires IsRun(s, run)
    decreases |run|
  {
    if run == [] then w else LastWriter(Apply(s, run[0]), run[1..], WriterAfter(s, run[0], w))
  }

  /** How the row and the operation that changed it last fit together. */
  predicate Fits(t: Thread, row: Option<InstanceState>)
    requires Active(t)
  {
    match t.pc
    case At(n) => n >= 2 && row == RowAt(t.kind, n)
    case FailSet => row.Some?
    case FailClose => row == Some(Error)
  }

  predicate FitsOrDone(t: Thread, row: Option<InstanceState>) {
    (Active(t) && !t.expired ==> Fits(t, row)) && (t.pc.Over? ==> Promised(t, row))
  }

  predicate WriterOk(s: State, w: Option<nat>) {
    w.Some? ==> w.value < |s.threads| && FitsOrDone(s.threads[w.value], s.row)
  }

  lemma {:induction false} MarkedStep(t: Thread, row: Option<InstanceState>, ok: bool)
    requires ThreadOk(t) && t.pc.At? && Fits(t, row) && !t.expired
    ensures FitsOrDone(ThreadAfter(t, row, ok), RowAfter(t, row))
  {
    var k, n := t.kind, t.pc.n;
    ClosesLast(k, n);
    OpensFirst(k);
    if n == |Program(k)| - 1 {
      GoalReached(k);
    } else {
      RowThere(k, n);
      assert n + 1 > 2;
    }
  }

  /** The step by which an operation becomes the last writer. */
  lemma {:induction false} WriteFits(t: Thread, row: Option<InstanceState>, ok: bool)
    requires ThreadOk(t) && Active(t) && Writes(t) && row.Some?
    ensures FitsOrDone(ThreadAfter(t, row, ok), RowAfter(t, row))
  {
    OpensFirst(t.kind);
    if t.pc.At? {
      ClosesLast(t.kind, t.pc.n);
      RowWritten(t.kind, t.pc.n);
    }
  }

  lemma {:induction false} RowWritten(k: Kind, n: nat)
    requires 1 <= n < |Program(k)|
    ensures Program(k)[n].Set? ==> RowAt(k, n + 1) == Some(Program(k)[n].state)
    ensures Program(k)[n].Remove? ==> RowAt(k, n + 1) == None
  {
  }

  lemma {:induction false} OwnStepFits(t: Thread, row: Option<InstanceState>, ok: bool)
    requires ThreadOk(t) && Active(t) && FitsOrDone(t, row)
    ensures FitsOrDone(ThreadAfter(t, row, ok), RowAfter(t, row))
  {
    if !t.expired && t.pc.At? {
      MarkedStep(t, row, ok);
    }
  }

  lemma {:induction false} WriterStep(s: State, a: Action, w: Option<nat>)
    requires WriterOk(s, w) && ThreadsOk(s.threads) && Enabled(s, a)
    ensures WriterOk(Apply(s, a), WriterAfter(s, a, w))
  {
    if a.Advance? {
      var t := s.threads[a.i];
      if Writes(t) && s.row.Some? {
        WriteFits(t, s.row, a.ok);
      } else if w == Some(a.i) {
        OwnStepFits(t, s.row, a.ok);
      }
    }
  }

  lemma {:induction false} WriterAlwaysOk(s: State, run: seq<Action>, w: Option<nat>)
    requires WriterOk(s, w) && ThreadsOk(s.threads) && IsRun(s, run)
    ensures WriterOk(After(s, run), LastWriter(s, run, w))
    decreases |run|
  {
    if run != [] {
      WriterStep(s, run[0], w);
      StepKeepsThreads(s, run[0]);
      WriterAlwaysOk(Apply(s, run[0]), run[1..], WriterAfter(s, run[0], w));
    }
  }

  /** In every run, overlapping or not: if the operation that changed the row last has finished, the row
      is as it reported. So no write of another operation after its own last one is enough. */
  lemma {:induction false} LastWriterIsRight(run: seq<Action>)
    requires IsRun(FRESH, run) && LastWriter(FRESH, run, None).Some?
    ensures var s, i := After(FRESH, run), LastWriter(FRESH, run, None).value;
            i < |s.threads| && (s.threads[i].pc.Over? ==> Promised(s.threads[i], s.row))
  {
    WriterAlwaysOk(FRESH, run, None);
  }

  // ---- Operations one after the other ----

  predicate Quiet(s: State) {
    forall i :: 0 <= i < |s.threads| ==> !Active(s.threads[i])
  }

  /** Requests come only when no operation is under way. */
  ghost predicate IsSerial(s: State, run: seq<Action>)
    requires IsRun(s, run)
    decreases |run|
  {
    run == [] || ((run[0].Request? ==> Quiet(s)) && IsSerial(Apply(s, run[0]), run[1..]))
  }

  predicate OthersDone(ts: seq<Thread>) {
    forall i :: 0 <= i < |ts| - 1 ==> !Active(ts[i])
  }

  /** The operation under way has marked the row, and nobody has changed it since. */
  predicate SerialInv(s: State, w: Option<nat>) {
    && OthersDone(s.threads)
    && var n := |s.threads| - 1;
       (n >= 0 && Active(s.threads[n]) && !s.threads[n].expired ==>
          if s.threads[n].pc.At? && s.threads[n].pc.n <= 1 then s.row.Some? else w == Some(n))
  }

  lemma OnlyLastActive(ts: seq<Thread>, i: nat)
    requires OthersDone(ts) && i < |ts| && Active(ts[i])
    ensures i == |ts| - 1
  {
  }

  lemma {:induction false} SerialAdvance(s: State, i: nat, ok: bool, w: Option<nat>)
    requires SerialInv(s, w) && ThreadsOk(s.threads) && Enabled(s, Advance(i, ok)) && WriterOk(s, w)
    ensures SerialInv(Apply(s, Advance(i, ok)), WriterAfter(s, Advance(i, ok), w))
  {
    OnlyLastActive(s.threads, i);
    OpensFirst(s.threads[i].kind);
  }

  lemma {:induction false} SerialStep(s: State, a: Action, w: Option<nat>)
    requires SerialInv(s, w) && ThreadsOk(s.threads) && Enabled(s, a) && (a.Request? ==> Quiet(s)) && WriterOk(s, w)
    requires !s.up ==> Quiet(s)
    ensures SerialInv(Apply(s, a), WriterAfter(s, a, w)) && (!Apply(s, a).up ==> Quiet(Apply(s, a)))
  {
    if a.Advance? {
      SerialAdvance(s, a.i, a.ok, w);
    }
  }

  lemma {:induction false} SerialAlways(s: State, run: seq<Action>, w: Option<nat>)
    requires SerialInv(s, w) && ThreadsOk(s.threads) && IsRun(s, run) && IsSerial(s, run) && WriterOk(s, w) && (!s.up ==> Quiet(s))
    ensures SerialInv(After(s, run), LastWriter(s, run, w)) && ThreadsOk(After(s, run).threads)
    decreases |run|
  {
    if run != [] {
      SerialStep(s, run[0], w);
      StepKeepsThreads(s, run[0]);
      WriterStep(s, run[0], w);
      SerialAlways(Apply(s, run[0]), run[1..], WriterAfter(s, run[0], w));
    }
  }

  /** What is known of the last step of an operation when nothing overlaps. */
  lemma {:induction false} LastStep(s: State, i: nat, ok: bool, w: Option<nat>)
    requires SerialInv(s, w) && WriterOk(s, w) && ThreadsOk(s.threads) && Enabled(s, Advance(i, ok))
    requires !Active(ThreadAfter(s.threads[i], s.row, ok)) && !s.threads[i].expired
    ensures w == Some(i) && ThreadAfter(s.threads[i], s.row, ok).pc.Over?
  {
    OnlyLastActive(s.threads, i);
    OpensFirst(s.threads[i].kind);
  }

  /** When the operations of a device do not overlap, the one that ends leaves the row as it reported if
      and only if its context has not expired: running after a start or deploy, stopped after a stop,
      gone after a delete, and error after a failure. */
  lemma {:induction false} OutcomeIsRow(run: seq<Action>, i: nat, ok: bool)
    requires IsRun(FRESH, run) && IsSerial(FRESH, run) && Enabled(After(FRESH, run), Advance(i, ok))
    ensures var s := After(FRESH, run);
            var s' := Apply(s, Advance(i, ok));
            !Active(s'.threads[i]) ==> (Promised(s'.threads[i], s'.row) <==> !s.threads[i].expired)
  {
    var s, w := After(FRESH, run), LastWriter(FRESH, run, None);
    SerialAlways(FRESH, run, None);
    WriterAlwaysOk(FRESH, run, None);
    StepKeepsThreads(s, Advance(i, ok));
    var t := s.threads[i];
    if !Active(ThreadAfter(t, s.row, ok)) && !t.expired {
      LastStep(s, i, ok, w);
      OwnStepFits(t, s.row, ok);
    }
  }

  // ---- Crashes ----

  /** A deploy that has marked the row and not got further. */
  predicate Provisions(t: Thread) {
    && t.kind == Deploy
    && match t.pc {
         case At(n) => 2 <= n <= 4
         case FailClose => t.expired
         case Over => false
         case Dropped => false
         case FailSet => true
         case Lost => true
         case Killed => true
       }
  }

  /** A row can only be provisioning because of a deploy that is still there or did not finish. */
  predicate ProvisioningExplained(s: State) {
    s.row == Some(Provisioning) ==> exists i :: 0 <= i < |s.threads| && Provisions(s.threads[i])
  }

  lemma {:induction false} AdvanceExplains(t: Thread, row: Option<InstanceState>, ok: bool)
    requires ThreadOk(t) && Active(t) && RowAfter(t, row) == Some(Provisioning)
    ensures row == Some(Provisioning) || Provisions(ThreadAfter(t, row, ok))
    ensures Provisions(t) ==> Provisions(ThreadAfter(t, row, ok))
  {
  }

  lemma {:induction false} ExplainedStep(s: State, a: Action)
    requires ProvisioningExplained(s) && ThreadsOk(s.threads) && Enabled(s, a)
    ensures ProvisioningExplained(Apply(s, a))
  {
    var s' := Apply(s, a);
    if s'.row == Some(Provisioning) {
      if a.Advance? {
        AdvanceExplains(s.threads[a.i], s.row, a.ok);
      }
      if s.row == Some(Provisioning) {
        var j :| 0 <= j < |s.threads| && Provisions(s.threads[j]);
        assert Provisions(s'.threads[j]);
      } else {
        assert Provisions(s'.threads[a.i]);
      }
    }
  }

  lemma {:induction false} ExplainedAlways(s: State, run: seq<Action>)
    requires ProvisioningExplained(s) && ThreadsOk(s.threads) && IsRun(s, run)
    ensures ProvisioningExplained(After(s, run)) && ThreadsOk(After(s, run).threads)
    decreases |run|
  {
    if run != [] {
      ExplainedStep(s, run[0]);
      StepKeepsThreads(s, run[0]);
      ExplainedAlways(Apply(s, run[0]), run[1..]);
    }
  }

  /** After a crash at any point of any run and the reconciliation that follows, the device is gone,
      running, stopped, in error, or provisioning, the last only because a deploy was killed or ran out
      of time. */
  lemma {:induction false} AfterCrashAndReconcile(run: seq<Action>, ok: bool)
    requires IsRun(FRESH, run) && Enabled(After(FRESH, run), Crash)
    ensures var s' := Apply(Apply(After(FRESH, run), Crash), Reconcile(ok));
            && (s'.row.None? || s'.row.value in {Running, Stopped, Error, Provisioning})
            && (s'.row == Some(Provisioning) ==>
                  exists i :: 0 <= i < |s'.threads| && s'.threads[i].kind == Deploy && (s'.threads[i].pc.Killed? || s'.threads[i].pc.Lost?))
            && Quiet(s')
  {
    var s := After(FRESH, run);
    ExplainedAlways(FRESH, run);
    if s.row == Some(Provisioning) {
      var j :| 0 <= j < |s.threads| && Provisions(s.threads[j]);
      var t := KilledThreads(s.threads)[j];
      assert t.kind == Deploy && (t.pc.Killed? || t.pc.Lost?);
    }
  }

  /** What a crash and the reconciliation after it make of each row: running exactly if the device was
      running or on its way up and is found up; settled rows and interrupted deploys as they were;
      everything else in error. */
  lemma {:induction false} RowAfterReconcile(run: seq<Action>, ok: bool)
    requires IsRun(FRESH, run) && Enabled(After(FRESH, run), Crash)
    ensures var was := After(FRESH, run).row;
            var now := Apply(Apply(After(FRESH, run), Crash), Reconcile(ok)).row;
            && (now == Some(Running) <==> ok && was.Some? && was.value in {Starting, Booting, Running})
            && (was.None? || was.value in {Stopped, Error, Provisioning} ==> now == was)
            && (was.Some? && was.value !in {Stopped, Error, Provisioning} && now != Some(Running) ==> now == Some(Error))
  {
  }

  /** A device left provisioning accepts nothing but a delete, so it stays so until one is asked
      for, through any number of crashes and reconciliations. */
  lemma {:induction false} ProvisioningStays(s: State, run: seq<Action>)
    requires s.row == Some(Provisioning) && Quiet(s) && IsRun(s, run)
    requires forall i :: 0 <= i < |run| ==> run[i] != Request(Delete)
    ensures After(s, run).row == Some(Provisioning)
    decreases |run|
  {
    if run != [] {
      assert run[0] != Request(Delete);
      ProvisioningStays(Apply(s, run[0]), run[1..]);
    }
  }

  /** Around a device left deleting nothing happens any more but a crash. */
  lemma OnlyCrashWhileDeleting(s: State, a: Action)
    requires s.row == Some(Deleting) && s.up && Quiet(s)
    ensures Enabled(s, a) ==> a.Crash?
  {
  }

  lemma {:induction false} DeleteRuns(s: State) returns (run: seq<Action>, t: State)
    requires s.up && s.row.Some? && s.row != Some(Deleting)
    ensures Reaches(s, run, t) && t.row == None && forall i :: 0 <= i < |run| ==> !run[i].Crash?
  {
    var n, gone := |s.threads|, Thread(Delete, At(0), Unwritten, 0, None, false);
    var s0 := s.(threads := s.threads + [gone]);
    assert Reaches(s, [], s);
    ReachesNext(s, [], s, Request(Delete));
    var s1 := s.(threads := s.threads + [gone.(pc := At(1), status := InProgress)]);
    assert Apply(s0, Advance(n, true)).threads == s1.threads;
    ReachesNext(s, [] + [Request(Delete)], s0, Advance(n, true));
    var marked := gone.(pc := At(2), status := InProgress, seen := Some(Deleting));
    var s2 := s.(row := Some(Deleting), threads := s.threads + [marked]);
    assert Apply(s1, Advance(n, true)).threads == s2.threads;
    run := [] + [Request(Delete)] + [Advance(n, true)];
    ReachesNext(s, run, s1, Advance(n, true));
    run, t := Removed(s, run + [Advance(n, true)], s2, marked);
  }

  lemma {:induction false} Removed(s: State, run: seq<Action>, s2: State, marked: Thread) returns (more: seq<Action>, t: State)
    requires marked == Thread(Delete, At(2), InProgress, 0, Some(Deleting), false) && s2.up && s2.row == Some(Deleting)
    requires s2.threads != [] && s2.threads[|s2.threads| - 1] == marked && Reaches(s, run, s2)
    requires forall i :: 0 <= i < |run| ==> !run[i].Crash?
    ensures Reaches(s, more, t) && t.row == None && forall i :: 0 <= i < |more| ==> !more[i].Crash?
  {
    var n := |s2.threads| - 1;
    var s3 := s2.(threads := s2.threads[n := marked.(pc := At(3))]);
    assert Apply(s2, Advance(n, true)) == s3;
    ReachesNext(s, run, s2, Advance(n, true));
    ReachesNext(s, run + [Advance(n, true)], s3, Advance(n, true));
    more := run + [Advance(n, true)] + [Advance(n, true)];
    t := Apply(s3, Advance(n, true));
  }

  /** Whatever state a device is left in with nothing under way, it can be got rid of without a restart
      unless it is left deleting. */
  lemma {:induction false} DeletableIff(s: State)
    requires s.up && s.row.Some? && Quiet(s)
    ensures (exists run: seq<Action>, t: State :: Reaches(s, run, t) && t.row == None && forall i :: 0 <= i < |run| ==> !run[i].Crash?)
            <==> s.row != Some(Deleting)
  {
    if s.row != Some(Deleting) {
      var run, t := DeleteRuns(s);
    } else {
      forall run: seq<Action>, t: State | Reaches(s, run, t) && forall i :: 0 <= i < |run| ==> !run[i].Crash? ensures t.row != None {
        if run != [] {
          OnlyCrashWhileDeleting(s, run[0]);
        }
      }
    }
  }

  // ---- Overlap ----

  lemma {:induction false} OneStep(s: State, a: Action, rest: seq<Action>)
    requires Enabled(s, a) && IsRun(Apply(s, a), rest)
    ensures IsRun(s, [a] + rest) && After(s, [a] + rest) == After(Apply(s, a), rest)
  {
  }

  ghost predicate Reaches(s: State, run: seq<Action>, n: State) {
    IsRun(s, run) && After(s, run) == n
  }

  lemma {:induction false} ReachesNext(s: State, run: seq<Action>, n: State, a: Action)
    requires Reaches(s, run, n) && Enabled(n, a)
    ensures Reaches(s, run + [a], Apply(n, a))
    decreases |run|
  {
    if run == [] {
      OneStep(n, a, []);
      assert run + [a] == [a] + [];
    } else {
      assert (run + [a])[1..] == run[1..] + [a];
      ReachesNext(Apply(s, run[0]), run[1..], n, a);
    }
  }

  /** A stop accepted while a start is under way can report success on a device that is booting. */
  lemma {:induction false} OverlapBreaksOutcome()
    ensures exists run, s: State :: && IsRun(FRESH, run) && s == After(FRESH, run) && |s.threads| == 2
                                    && s.threads[1].kind == Stop && s.threads[1].status == Succeeded && s.row == Some(Booting)
  {
    var a0 := Thread(Start, At(0), Unwritten, 0, None, false);
    var a1 := a0.(pc := At(1), status := InProgress);
    var a2 := a1.(pc := At(2), seen := Some(Starting));
    var a4 := a2.(pc := At(4));
    var b0 := Thread(Stop, At(0), Unwritten, 0, None, false);
    var b4 := b0.(pc := At(4), status := InProgress, seen := Some(Stopped));
    var s1 := State(Some(Starting), [a2], true, 0);
    var s2 := State(Some(Starting), [a4, b0], true, 0);
    var s3 := State(Some(Stopped), [a4, b4], true, 0);
    var r3, end := StopReports(s3, a4, b4);
    var r2 := StopsMeanwhile(s2, s3, a4, b0, r3);
    var r1 := StartLaunches(s1, s2, a2, r2);
    var run := StartBegins(s1, r1);
    assert end.threads[1].kind == Stop;
  }

  lemma {:induction false} StopReports(s: State, a4: Thread, b4: Thread) returns (run: seq<Action>, end: State)
    requires a4 == Thread(Start, At(4), InProgress, 0, Some(Starting), false) && b4 == Thread(Stop, At(4), InProgress, 0, Some(Stopped), false)
    requires s == State(Some(Stopped), [a4, b4], true, 0)
    ensures IsRun(s, run) && After(s, run) == end && |end.threads| == 2
    ensures end.threads[1].kind == Stop && end.threads[1].status == Succeeded && end.row == Some(Booting)
  {
    var t := Apply(s, Advance(0, true));
    assert t.row == Some(Booting) && t.threads[1] == b4;
    end := Apply(t, Advance(1, true));
    OneStep(t, Advance(1, true), []);
    OneStep(s, Advance(0, true), [Advance(1, true)] + []);
    run := [Advance(0, true)] + ([Advance(1, true)] + []);
  }

  lemma {:induction false} StopsMeanwhile(s: State, t: State, a4: Thread, b0: Thread, rest: seq<Action>) returns (run: seq<Action>)
    requires a4 == Thread(Start, At(4), InProgress, 0, Some(Starting), false) && b0 == Thread(Stop, At(0), Unwritten, 0, None, false)
    requires s == State(Some(Starting), [a4, b0], true, 0)
    requires t == State(Some(Stopped), [a4, Thread(Stop, At(4), InProgress, 0, Some(Stopped), false)], true, 0) && IsRun(t, rest)
    ensures IsRun(s, run) && After(s, run) == After(t, rest)
  {
    var halt := Advance(1, true);
    var s1 := State(Some(Starting), [a4, b0.(pc := At(1), status := InProgress)], true, 0);
    var s2 := State(Some(Stopping), [a4, Thread(Stop, At(2), InProgress, 0, Some(Stopping), false)], true, 0);
    var s3 := State(Some(Stopping), [a4, Thread(Stop, At(3), InProgress, 0, Some(Stopping), false)], true, 0);
    assert Apply(s, halt) == s1 && Apply(s1, halt) == s2;
    assert Apply(s2, halt) == s3 && Apply(s3, halt) == t;
    OneStep(s3, halt, rest);
    OneStep(s2, halt, [halt] + rest);
    OneStep(s1, halt, [halt] + ([halt] + rest));
    OneStep(s, halt, [halt] + ([halt] + ([halt] + rest)));
    run := [halt] + ([halt] + ([halt] + ([halt] + rest)));
  }

  lemma {:induction false} StartLaunches(s: State, t: State, a2: Thread, rest: seq<Action>) returns (run: seq<Action>)
    requires a2 == Thread(Start, At(2), InProgress, 0, Some(Starting), false) && s == State(Some(Starting), [a2], true, 0)
    requires t == State(Some(Starting), [a2.(pc := At(4)), Thread(Stop, At(0), Unwritten, 0, None, false)], true, 0) && IsRun(t, rest)
    ensures IsRun(s, run) && After(s, run) == After(t, rest)
  {
    var go := Advance(0, true);
    var s1 := State(Some(Starting), [a2.(pc := At(3))], true, 0);
    var s2 := State(Some(Starting), [a2.(pc := At(4))], true, 0);
    assert Apply(s, go) == s1 && Apply(s1, go) == s2 && Apply(s2, Request(Stop)) == t;
    OneStep(s2, Request(Stop), rest);
    OneStep(s1, go, [Request(Stop)] + rest);
    OneStep(s, go, [go] + ([Request(Stop)] + rest));
    run := [go] + ([go] + ([Request(Stop)] + rest));
  }

  lemma {:induction false} StartBegins(t: State, rest: seq<Action>) returns (run: seq<Action>)
    requires t == State(Some(Starting), [Thread(Start, At(2), InProgress, 0, Some(Starting), false)], true, 0) && IsRun(t, rest)
    ensures IsRun(FRESH, run) && After(FRESH, run) == After(t, rest)
  {
    var go := Advance(0, true);
    var s1 := State(Some(Stopped), [Thread(Start, At(0), Unwritten, 0, None, false)], true, 0);
    var s2 := State(Some(Stopped), [Thread(Start, At(1), InProgress, 0, None, false)], true, 0);
    assert Apply(FRESH, Request(Start)) == s1 && Apply(s1, go) == s2 && Apply(s2, go) == t;
    OneStep(s2, go, rest);
    OneStep(s1, go, [go] + rest);
    OneStep(FRESH, Request(Start), [go] + ([go] + rest));
    run := [Request(Start)] + ([go] + ([go] + rest));
  }

  // ---- Deadlines ----

  lemma {:induction false} Onward(run: seq<Action>, s: State, a: Action, t: State) returns (more: seq<Action>)
    requires Reaches(FRESH, run, s) && Enabled(s, a) && Apply(s, a) == t
    ensures Reaches(FRESH, more, t) && more == run + [a]
  {
    ReachesNext(FRESH, run, s, a);
    more := run + [a];
  }

  lemma {:induction false} StartMarks() returns (run: seq<Action>)
    ensures Reaches(FRESH, run, State(Some(Starting), [Thread(Start, At(3), InProgress, 0, Some(Starting), false)], true, 0))
  {
    var t := Thread(Start, At(0), Unwritten, 0, None, false);
    assert Reaches(FRESH, [], FRESH);
    var s0 := State(Some(Stopped), [t], true, 0);
    run := Onward([], FRESH, Request(Start), s0);
    t := t.(pc := At(1), status := InProgress);
    var s1 := State(Some(Stopped), [t], true, 0);
    run := Onward(run, s0, Advance(0, true), s1);
    t := t.(pc := At(2), seen := Some(Starting));
    var s2 := State(Some(Starting), [t], true, 0);
    run := Onward(run, s1, Advance(0, true), s2);
    run := Onward(run, s2, Advance(0, true), State(Some(Starting), [t.(pc := At(3))], true, 0));
  }

  /** A start that cannot launch the device. */
  lemma {:induction false} StartFails() returns (run: seq<Action>)
    ensures Reaches(FRESH, run, State(Some(Error), [Thread(Start, Over, Failed, 1, Some(Starting), false)], true, 0))
  {
    run := StartMarks();
    var t := Thread(Start, At(3), InProgress, 0, Some(Starting), false);
    var s0 := State(Some(Starting), [t], true, 0);
    var s1 := State(Some(Starting), [t.(pc := FailSet)], true, 0);
    run := Onward(run, s0, Advance(0, false), s1);
    var s2 := State(Some(Error), [t.(pc := FailClose)], true, 0);
    run := Onward(run, s1, Advance(0, true), s2);
    run := Onward(run, s2, Advance(0, true), State(Some(Error), [t.(pc := Over, status := Failed, finishes := 1)], true, 0));
  }

  lemma {:induction false} StopMarks(d: Thread) returns (run: seq<Action>)
    requires d == Thread(Start, Over, Failed, 1, Some(Starting), false)
    ensures Reaches(FRESH, run, State(Some(Stopping), [d, Thread(Stop, At(2), InProgress, 0, Some(Stopping), false)], true, 0))
  {
    run := StartFails();
    var t := Thread(Stop, At(0), Unwritten, 0, None, false);
    var s0 := State(Some(Error), [d, t], true, 0);
    run := Onward(run, State(Some(Error), [d], true, 0), Request(Stop), s0);
    t := t.(pc := At(1), status := InProgress);
    var s1 := State(Some(Error), [d, t], true, 0);
    run := Onward(run, s0, Advance(1, true), s1);
    t := t.(pc := At(2), seen := Some(Stopping));
    run := Onward(run, s1, Advance(1, true), State(Some(Stopping), [d, t], true, 0));
  }

  /** A stop command that hangs until the deadline takes the writes that should record its failure down
      with it: with nothing else under way the device stays stopping, its operation row running. */
  lemma {:induction false} HangingStopIsLost()
    ensures exists run, s :: && Reaches(FRESH, run, s) && s.row == Some(Stopping) && s.up && Quiet(s) && |s.threads| == 2
                             && s.threads[1].kind == Stop && s.threads[1].pc == Lost && s.threads[1].status == InProgress
  {
    var d := Thread(Start, Over, Failed, 1, Some(Starting), false);
    var run := StopMarks(d);
    var t := Thread(Stop, At(2), InProgress, 0, Some(Stopping), true);
    var s0 := State(Some(Stopping), [d, t], true, 0);
    run := Onward(run, State(Some(Stopping), [d, t.(expired := false)], true, 0), Expire(1), s0);
    var s1 := State(Some(Stopping), [d, t.(pc := FailSet)], true, 0);
    run := Onward(run, s0, Advance(1, false), s1);
    var s2 := State(Some(Stopping), [d, t.(pc := FailClose)], true, 0);
    run := Onward(run, s1, Advance(1, true), s2);
    run := Onward(run, s2, Advance(1, true), State(Some(Stopping), [d, t.(pc := Lost)], true, 0));
  }

  /** The way into provisioning: a deploy is asked for, writes its operation row and marks the device,
      and the service dies. */
  lemma {:induction false} DeployCrashLeavesProvisioning(ok: bool) returns (run: seq<Action>)
    ensures IsRun(FRESH, run) && After(FRESH, run).row == Some(Provisioning) && After(FRESH, run).up && Quiet(After(FRESH, run))
    ensures run == [Request(Deploy), Advance(0, true), Advance(0, true), Crash, Reconcile(ok)]
  {
    var t := Thread(Deploy, At(0), Unwritten, 0, None, false);
    assert Reaches(FRESH, [], FRESH);
    var s1 := State(Some(Stopped), [t], true, 0);
    run := Onward([], FRESH, Request(Deploy), s1);
    t := t.(pc := At(1), status := InProgress);
    var s2 := State(Some(Stopped), [t], true, 0);
    run := Onward(run, s1, Advance(0, true), s2);
    t := t.(pc := At(2), seen := Some(Provisioning));
    var s3 := State(Some(Provisioning), [t], true, 0);
    run := Onward(run, s2, Advance(0, true), s3);
    var s4 := State(Some(Provisioning), [t.(pc := Killed)], false, 0);
    assert KilledThreads(s3.threads) == s4.threads;
    run := Onward(run, s3, Crash, s4);
    run := Onward(run, s4, Reconcile(ok), s4.(up := true));
  }

  // ---- The programs as the service runs them ----

  /** How a foreign call comes back: with success or not, and within the deadline or late. */
  datatype Outcome = Outcome(ok: bool, late: bool)

  /** One device and the operation at work on it, with no other beside it. The methods are the
      statements of the four programs; each takes the state through one step of the model, and `run`
      collects the steps. Left alone, a row that was there does not vanish halfway. */
  class Device {
    var row: Option<InstanceState>
    var status: Status
    var finishes: nat
    var seen: Option<InstanceState>
    var expired: bool
    ghost var kind: Kind
    ghost var pc: Pc
    ghost var before: State
    ghost var run: seq<Action>

    ghost function View(): State
      reads this
    {
      State(row, [Thread(kind, pc, status, finishes, seen, expired)], true, 0)
    }

    /** The operation has come from `before` to here by the steps of `run`. */
    ghost predicate Valid()
      reads this
    {
      Reaches(before, run, View()) && ThreadOk(View().threads[0])
    }

    constructor (row: Option<InstanceState>, kind: Kind, seen: Option<InstanceState>)
      requires kind == Delete ==> seen == Some(Deleting)
      ensures Valid() && this.row == row && this.kind == kind && this.seen == seen && !expired
      ensures pc == At(2) && status == InProgress && finishes == 0 && before == View() && run == []
    {
      this.row, this.kind, this.seen, expired := row, kind, seen, false;
      status, finishes, pc, run := InProgress, 0, At(2), [];
      before := State(row, [Thread(kind, At(2), InProgress, 0, seen, false)], true, 0);
    }

    /** One step of the model with the outcome `ok`, carried out on the real fields by the caller. */
    ghost method Advance(ok: bool)
      requires Valid() && Enabled(View(), Action.Advance(0, ok))
      modifies this`pc, this`run
      ensures run == old(run) + [Action.Advance(0, ok)] && pc == ThreadAfter(old(View()).threads[0], old(row), ok).pc
    {
      run := run + [Action.Advance(0, ok)];
      pc := ThreadAfter(View().threads[0], row, ok).pc;
    }

    /** The same operation, from the same beginning. */
    twostate predicate Kept()
      reads this
    {
      before == old(before) && kind == old(kind)
    }

    /** The state has gone through one step of the model. */
    twostate predicate Stepped(ok: bool)
      reads this
    {
      Kept() && Enabled(old(View()), Action.Advance(0, ok)) && View() == Apply(old(View()), Action.Advance(0, ok))
    }

    /** `UpdateInstanceState`, which hands back the record as it then is. */
    method UpdateState(st: InstanceState) returns (found: bool)
      requires Valid() && Enabled(View(), Action.Advance(0, true)) && pc.At? && pc.n > 1 && Program(kind)[pc.n] == Set(st)
      modifies this
      ensures Valid() && Stepped(true) && status == old(status) && finishes == old(finishes) && expired == old(expired)
      ensures found == (old(row).Some? && !expired)
      ensures if found then pc == At(old(pc).n + 1) && row == Some(st) else pc == FailClose && row == old(row)
    {
      ghost var was := View();
      StepStays(was, true);
      ReachesNext(before, run, was, Action.Advance(0, true));
      Advance(true);
      found := row.Some? && !expired;
      if found {
        row, seen := Some(st), Some(st);
      }
    }

    /** The first look at the row, or a stop that is not tried. */
    ghost method Look()
      requires Valid() && Enabled(View(), Action.Advance(0, true)) && pc.At? && !expired
      requires Program(kind)[pc.n].Read? || Program(kind)[pc.n].StopIfLive?
      modifies this
      ensures Valid() && Stepped(true) && row == old(row) && status == old(status) && finishes == old(finishes) && !expired
      ensures pc == if Program(kind)[old(pc).n].Read? && row.None? then FailClose else At(old(pc).n + 1)
    {
      StepStays(View(), true);
      ReachesNext(before, run, View(), Action.Advance(0, true));
      Advance(true);
    }

    /** The deadline may pass, and nothing else changes. */
    method Wait(late: bool)
      requires Valid() && Active(View().threads[0])
      modifies this
      ensures Valid() && Kept() && row == old(row) && status == old(status) && finishes == old(finishes) && pc == old(pc)
      ensures expired == (old(expired) || late) && seen == old(seen)
    {
      if late {
        ReachesNext(before, run, View(), Action.Expire(0));
        run := run + [Action.Expire(0)];
        expired := true;
      }
    }

    /** A foreign call comes back. */
    method Call(o: Outcome)
      requires Valid() && Enabled(View(), Action.Advance(0, o.ok)) && pc.At? && Program(kind)[pc.n].Try? && !expired
      modifies this
      ensures Valid() && Kept() && row == old(row) && status == old(status) && finishes == old(finishes) && expired == o.late
      ensures pc == if o.ok then At(old(pc).n + 1) else FailSet
    {
      Wait(o.late);
      StepStays(View(), o.ok);
      ReachesNext(before, run, View(), Action.Advance(0, o.ok));
      Advance(o.ok);
    }

    /** `finishOp`, which gives up when the context has expired. */
    method Finish(succeeded: bool)
      requires Valid() && Enabled(View(), Action.Advance(0, true))
      requires if succeeded then pc.At? && Program(kind)[pc.n].Close? else pc.FailClose?
      modifies this
      ensures Valid() && Stepped(true) && row == old(row) && expired == old(expired)
      ensures if expired then pc.Lost? && status == old(status) && finishes == old(finishes)
              else pc.Over? && status == (if succeeded then Succeeded else Failed) && finishes == old(finishes) + 1
    {
      StepStays(View(), true);
      ReachesNext(before, run, View(), Action.Advance(0, true));
      Advance(true);
      if !expired {
        status := if succeeded then Succeeded else Failed;
        finishes := finishes + 1;
      }
    }

    method Fail()
      requires Valid() && pc.FailSet?
      modifies this
      ensures Valid() && Kept() && expired == old(expired)
      ensures if expired then pc.Lost? && row == old(row) && status == old(status) && finishes == old(finishes)
              else pc.Over? && status == Failed && finishes == old(finishes) + 1 && row == if old(row).Some? then Some(Error) else None
    {
      StepStays(View(), true);
      ReachesNext(before, run, View(), Action.Advance(0, true));
      Advance(true);
      if row.Some? && !expired {
        row := Some(Error);
      }
      Finish(false);
    }

    /** What a program that was left alone has done: it went through steps of the model to its end. In
        time, it finished its operation row once and left the device as it reports; late, it left the
        operation row running and the device as `left`. */
    ghost predicate Ended(k: Kind, found: bool, ok: bool, late: bool, left: Option<InstanceState>)
      reads this
    {
      && Valid() && kind == k
      && if late then pc.Lost? && finishes == 0 && status == InProgress && row == left
         else && pc.Over? && finishes == 1
              && if !found then row.None? && status == Failed
                 else if ok then row == Goal(k) && status == Succeeded
                 else row == Some(Error) && status == Failed
    }

    /** The part that start and deploy share: launch, boot, report running, look for the console. */
    method Boot(launched: Outcome, ready: Outcome, lateConsole: bool)
      requires Valid() && row.Some? && finishes == 0 && status == InProgress && !expired
      requires (kind == Start && pc == At(3)) || (kind == Deploy && pc == At(5))
      modifies this
      ensures Ended(kind, true, launched.ok && ready.ok, BootLate(launched, ready, lateConsole), BootLeft(old(row), launched, ready))
      ensures Kept()
    {
      Call(launched);
      if !launched.ok {
        Fail();
        return;
      }
      var found := UpdateState(Booting);
      if !found {
        Finish(false);
        return;
      }
      Call(ready);
      if !ready.ok {
        Fail();
        return;
      }
      found := UpdateState(Running);
      if !found {
        Finish(false);
        return;
      }
      Wait(lateConsole);
      Finish(true);
    }

    method RunStart(launched: Outcome, ready: Outcome, lateConsole: bool)
      requires Valid() && kind == Start && pc == At(2) && finishes == 0 && status == InProgress && !expired
      modifies this
      ensures var there := old(row).Some?;
              Ended(Start, there, launched.ok && ready.ok, there && BootLate(launched, ready, lateConsole), BootLeft(old(row), launched, ready))
      ensures Kept()
    {
      Look();
      if row.None? {
        Finish(false);
        return;
      }
      Boot(launched, ready, lateConsole);
    }

    method RunDeploy(image: Outcome, launched: Outcome, ready: Outcome, lateConsole: bool)
      requires Valid() && kind == Deploy && pc == At(2) && finishes == 0 && status == InProgress && !expired
      modifies this
      ensures var there := old(row).Some?;
              Ended(Deploy, there, image.ok && launched.ok && ready.ok,
                    there && (image.late || (image.ok && BootLate(launched, ready, lateConsole))),
                    if image.late then old(row) else BootLeft(Some(Starting), launched, ready))
      ensures Kept()
    {
      Look();
      if row.None? {
        Finish(false);
        return;
      }
      Call(image);
      if !image.ok {
        Fail();
        return;
      }
      var found := UpdateState(Starting);
      if !found {
        Finish(false);
        return;
      }
      Boot(launched, ready, lateConsole);
    }

    method RunStop(halted: Outcome)
      requires Valid() && kind == Stop && pc == At(2) && finishes == 0 && status == InProgress && !expired
      modifies this
      ensures Ended(Stop, old(row).Some?, halted.ok, halted.late, old(row)) && Kept()
    {
      Call(halted);
      if !halted.ok {
        Fail();
        return;
      }
      var found := UpdateState(Stopped);
      Finish(found);
    }

    /** The record handed over already says deleting, so the branch that stops a live device is not
        taken. Clearing the device's group can take until the deadline. */
    method RunDelete(lateGroup: bool)
      requires Valid() && kind == Delete && pc == At(2) && finishes == 0 && status == InProgress && !expired
      modifies this
      ensures Ended(Delete, old(row).Some?, true, lateGroup, old(row)) && Kept()
    {
      Look();
      Wait(lateGroup);
      ghost var was := View();
      StepStays(was, true);
      ReachesNext(before, run, was, Action.Advance(0, true));
      Advance(true);
      var found := row.Some? && !expired;
      if found {
        row := None;
      }
      Finish(found);
    }
  }

  /** The deadline passes before a launched device is reported running. */
  predicate BootLate(launched: Outcome, ready: Outcome, lateConsole: bool) {
    launched.late || (launched.ok && (ready.late || (ready.ok && lateConsole)))
  }

  /** The row at the deadline. */
  function BootLeft(row: Option<InstanceState>, launched: Outcome, ready: Outcome): Option<InstanceState> {
    if launched.late then row else if ready.late then Some(Booting) else Some(Running)
  }

  lemma StepStays(s: State, ok: bool)
    requires |s.threads| == 1 && ThreadOk(s.threads[0]) && Enabled(s, Action.Advance(0, ok))
    ensures ThreadOk(Apply(s, Action.Advance(0, ok)).threads[0]) && Apply(s, Action.Advance(0, ok)).stops == s.stops
  {
  }

  /** Whether reconciliation takes a launched device as up: in dry-run mode interrupted launches are
      errors and running devices are believed. */
  predicate FoundUp(live: bool, st: InstanceState, reachable: bool) {
    if st == Running then !live || reachable else live && reachable
  }

  /** All rows, as the service finds them at startup. */
  class Fleet {
    var rows: map<nat, InstanceState>

    method Reconcile(order: seq<nat>, live: bool, reachable: nat -> bool)
      requires (forall id :: id in order <==> id in rows) && forall i, j :: 0 <= i < j < |order| ==> order[i] != order[j]
      modifies this
      ensures rows.Keys == old(rows).Keys
      ensures forall id :: id in rows ==> rows[id] == Reconciled(old(rows)[id], FoundUp(live, old(rows)[id], reachable(id)))
      ensures forall id :: id in rows ==>
                (rows[id] == Running <==> if old(rows)[id] == Running then !live || reachable(id)
                                          else old(rows)[id] in {Starting, Booting} && live && reachable(id))
      ensures forall id :: id in rows && old(rows)[id] in {Stopped, Error, Provisioning} ==> rows[id] == old(rows)[id]
      ensures forall id :: id in rows && old(rows)[id] !in {Stopped, Error, Provisioning} && rows[id] != Running ==> rows[id] == Error
    {
      for k := 0 to |order|
        invariant rows.Keys == old(rows).Keys
        invariant forall i :: 0 <= i < k ==>
          rows[order[i]] == Reconciled(old(rows)[order[i]], FoundUp(live, old(rows)[order[i]], reachable(order[i])))
        invariant forall i :: k <= i < |order| ==> rows[order[i]] == old(rows)[order[i]]
      {
        var id := order[k];
        match rows[id] {
          case Starting => rows := rows[id := if live && reachable(id) then Running else Error];
          case Booting => rows := rows[id := if live && reachable(id) then Running else Error];
          case Running =>
            if live && !reachable(id) {
              rows := rows[id := Error];
            }
          case Stopping => rows := rows[id := Error];
          case Deleting => rows := rows[id := Error];
          case Provisioning =>
          case Stopped =>
          case Error =>
        }
      }
      forall id | id in rows
        ensures rows[id] == Reconciled(old(rows)[id], FoundUp(live, old(rows)[id], reachable(id)))
      {
        assert id in order;
        var i :| 0 <= i < |order| && order[i] == id;
      }
    }
  }
}
