/** The cron loop over test cycles: list what is due, move each schedule on, start the cycle. The
    steps interleave with manual starts, finishing runs, saved, created and deleted cycles, and
    restarts, which begin with a sweep over runs nobody will resume. */
module Scheduler {
  import opened Wrappers
  import opened TimeText

  type Id = nat

  /** A cron expression in its timezone. */
  type Spec = nat

  /** A row of `test_cycles`; `scheduled` says that it has a cron expression. */
  datatype Cycle = Cycle(enabled: bool, scheduled: bool, spec: Spec, next: Option<UtcTime>, last: Option<UtcTime>)

  datatype CycleRun = CycleRun(cycle: Id, running: bool)

  /** A cron start: `at` is the clock reading of its tick, `spec` the schedule it was listed with, and
      `overlapped` whether another run of the cycle was running. */
  datatype Start = Start(cycle: Id, spec: Spec, at: UtcTime, overlapped: bool)

  /** `pending` is what is left of the current tick's list, `listed` the rows as the tick read them,
      `advanced` whether the schedule of the head has been moved on, and `byHand` the places of the
      runs started by hand, or for a new build, since the listing. */
  datatype State = State(
    clock: UtcTime, cycles: map<Id, Cycle>, runs: seq<CycleRun>, listed: map<Id, Cycle>, pending: seq<Id>, advanced: bool,
    byHand: set<nat>, starts: seq<Start>)

  datatype Action =
    | Tick(now: UtcTime, due: seq<Id>)
    | Advance
    | Launch(started: bool)
    | Finish(run: nat)
    | StartByHand(cycle: Id)
    | Create(cycle: Id, row: Cycle)
    | Edit(cycle: Id, row: Cycle)
    | Delete(cycle: Id)
    | Restart(now: UtcTime)

  /** The next occurrence of a schedule after a time, if the schedule can be read. */
  type NextIn = (Spec, UtcTime) -> Option<UtcTime>

  /** What a cron library promises: whole seconds, strictly later. */
  ghost predicate Cron(next: NextIn) {
    forall c: Spec, t: UtcTime :: next(c, t).Some? ==> next(c, t).value.nano == 0 && Nanos(t) < Nanos(next(c, t).value)
  }

  /** `due <= now` on stored texts. */
  predicate DueText(due: UtcTime, now: UtcTime) {
    !Less(Format(now), Format(due))
  }

  predicate RowDue(row: Cycle, now: UtcTime) {
    row.enabled && row.scheduled && row.next.Some? && DueText(row.next.value, now)
  }

  predicate IsRunning(runs: seq<CycleRun>, c: Id) {
    exists i :: 0 <= i < |runs| && runs[i].cycle == c && runs[i].running
  }

  predicate Due(cycles: map<Id, Cycle>, runs: seq<CycleRun>, c: Id, now: UtcTime) {
    c in cycles && RowDue(cycles[c], now) && !IsRunning(runs, c)
  }

  predicate NoRepeats(ids: seq<Id>) {
    forall i, j :: 0 <= i < j < |ids| ==> ids[i] != ids[j]
  }

  /** The result of the listing query, in whatever order. */
  ghost predicate Lists(cycles: map<Id, Cycle>, runs: seq<CycleRun>, now: UtcTime, due: seq<Id>) {
    NoRepeats(due) && forall c: Id :: c in due <==> Due(cycles, runs, c, now)
  }

  /** Every run marked as ended, as the startup sweep does. */
  function Swept(runs: seq<CycleRun>): (r: seq<CycleRun>)
    ensures |r| == |runs|
  {
    seq(|runs|, i requires 0 <= i < |runs| => runs[i].(running := false))
  }

  function EndedOf(runs: seq<CycleRun>, c: Id): (r: seq<CycleRun>)
    ensures |r| == |runs|
  {
    seq(|runs|, i requires 0 <= i < |runs| => if runs[i].cycle == c then runs[i].(running := false) else runs[i])
  }

  /** Stored schedules are on whole seconds. */
  predicate RowOk(row: Cycle) {
    row.next.Some? ==> row.next.value.nano == 0
  }

  ghost predicate RowsOk(cycles: map<Id, Cycle>) {
    forall c :: c in cycles ==> RowOk(cycles[c])
  }

  /** The schedule a tick works by is the one it listed, whatever has been saved since. */
  function SpecOf(s: State, c: Id): Spec {
    if c in s.listed then s.listed[c].spec else 0
  }

  ghost predicate Enabled(s: State, a: Action) {
    match a
    case Tick(now, due) => s.pending == [] && Nanos(s.clock) <= Nanos(now) && Lists(s.cycles, s.runs, now, due)
    case Advance => s.pending != [] && !s.advanced
    case Launch(started) => s.pending != [] && s.advanced && (started ==> s.pending[0] in s.cycles)
    case Finish(r) => r < |s.runs|
    case StartByHand(c) => c in s.cycles
    case Create(c, row) =>
      && c !in s.cycles && c !in s.pending && (forall i :: 0 <= i < |s.starts| ==> s.starts[i].cycle != c)
      && RowOk(row)
    case Edit(c, row) => c in s.cycles && RowOk(row)
    case Delete(c) => true
    case Restart(now) => Nanos(s.clock) <= Nanos(now)
  }

  function Apply(next: NextIn, s: State, a: Action): State {
    match a
    case Tick(now, due) => s.(clock := now, listed := s.cycles, pending := due, advanced := false, byHand := {})
    case Advance =>
      if s.pending == [] then s
      else
        var c := s.pending[0];
        s.(advanced := true,
           cycles := if c in s.cycles then s.cycles[c := s.cycles[c].(next := next(SpecOf(s, c), s.clock), last := Some(s.clock))]
           else s.cycles)
    case Launch(started) =>
      if s.pending == [] then s
      else if !started then s.(pending := s.pending[1..], advanced := false)
      else
        var c := s.pending[0];
        s.(pending := s.pending[1..], advanced := false, runs := s.runs + [CycleRun(c, true)],
           starts := s.starts + [Start(c, SpecOf(s, c), s.clock, IsRunning(s.runs, c))])
    case Finish(r) => if r < |s.runs| then s.(runs := s.runs[r := s.runs[r].(running := false)]) else s
    case StartByHand(c) => s.(runs := s.runs + [CycleRun(c, true)], byHand := s.byHand + {|s.runs|})
    case Create(c, row) => s.(cycles := s.cycles[c := row])
    case Edit(c, row) => s.(cycles := s.cycles[c := row])
    case Delete(c) => s.(cycles := s.cycles - {c}, runs := EndedOf(s.runs, c))
    case Restart(now) => s.(clock := now, pending := [], advanced := false, byHand := {}, runs := Swept(s.runs))
  }

  ghost predicate IsRun(next: NextIn, s: State, actions: seq<Action>)
    decreases |actions|
  {
    actions == [] || (Enabled(s, actions[0]) && IsRun(next, Apply(next, s, actions[0]), actions[1..]))
  }

  function After(next: NextIn, s: State, actions: seq<Action>): State
    decreases |actions|
  {
    if actions == [] then s else After(next, Apply(next, s, actions[0]), actions[1..])
  }

  ghost predicate Initial(s: State) {
    s.pending == [] && !s.advanced && s.starts == [] && RowsOk(s.cycles)
  }

  // ---- Starts are separated by occurrences ----

  /** A later start of the same cycle, at `t`, comes after the occurrence that followed this one. */
  ghost predicate Precedes(next: NextIn, st: Start, t: UtcTime) {
    next(st.spec, st.at).Some? && Nanos(st.at) < Nanos(next(st.spec, st.at).value) <= Nanos(t)
  }

  ghost predicate Separated(next: NextIn, starts: seq<Start>) {
    forall i, j :: 0 <= i < j < |starts| && starts[i].cycle == starts[j].cycle ==> Precedes(next, starts[i], starts[j].at)
  }

  /** From the clock on, a schedule at `due` is due only when the occurrence after the start has come. */
  ghost predicate Spares(next: NextIn, st: Start, clock: UtcTime, due: UtcTime) {
    forall now: UtcTime :: Nanos(clock) <= Nanos(now) && DueText(due, now) ==> Precedes(next, st, now)
  }

  /** The starts so far, with the one about to be made if its schedule has been moved on. */
  function Begun(s: State): seq<Start> {
    if s.advanced && s.pending != [] && s.pending[0] in s.cycles then
      s.starts + [Start(s.pending[0], SpecOf(s, s.pending[0]), s.clock, false)]
    else s.starts
  }

  /** Saving this row puts the schedule where it can be due before the occurrence that follows a start
      of the cycle. */
  ghost predicate CanRepeat(next: NextIn, s: State, c: Id, row: Cycle) {
    row.next.Some? && exists i :: 0 <= i < |Begun(s)| && Begun(s)[i].cycle == c && !Spares(next, Begun(s)[i], s.clock, row.next.value)
  }

  /** Rows are saved only where they cannot repeat an occurrence. */
  ghost predicate CarefulStep(next: NextIn, s: State, a: Action) {
    a.Edit? ==> !CanRepeat(next, s, a.cycle, a.row)
  }

  ghost predicate Careful(next: NextIn, s: State, actions: seq<Action>)
    decreases |actions|
  {
    actions == [] || (CarefulStep(next, s, actions[0]) && Careful(next, Apply(next, s, actions[0]), actions[1..]))
  }

  /** The row is written with the time it holds at that moment, as saving a case list does. */
  predicate KeepsTime(s: State, a: Action) {
    a.Edit? && a.cycle in s.cycles ==> a.row.next == s.cycles[a.cycle].next
  }

  ghost predicate KeepsTimes(next: NextIn, s: State, actions: seq<Action>)
    decreases |actions|
  {
    actions == [] || (KeepsTime(s, actions[0]) && KeepsTimes(next, Apply(next, s, actions[0]), actions[1..]))
  }

  /** The row's time spares the start, if the row is still there and has one. */
  ghost predicate MovedOk(next: NextIn, st: Start, clock: UtcTime, cycles: map<Id, Cycle>) {
    st.cycle in cycles && cycles[st.cycle].next.Some? ==> Spares(next, st, clock, cycles[st.cycle].next.value)
  }

  /** The schedule has moved past every start of its cycle. */
  ghost predicate Moved(next: NextIn, s: State) {
    forall i :: 0 <= i < |Begun(s)| ==> MovedOk(next, Begun(s)[i], s.clock, s.cycles)
  }

  ghost predicate PastOk(next: NextIn, st: Start, clock: UtcTime, waiting: seq<Id>) {
    st.cycle in waiting ==> Precedes(next, st, clock)
  }

  /** The listed cycles whose schedule has not been moved on yet. */
  function Waiting(s: State): seq<Id> {
    if s.advanced && s.pending != [] then s.pending[1..] else s.pending
  }

  /** A listed cycle is past the occurrence after each of its starts. */
  ghost predicate Past(next: NextIn, s: State) {
    forall i :: 0 <= i < |s.starts| ==> PastOk(next, s.starts[i], s.clock, Waiting(s))
  }

  ghost predicate Inv(next: NextIn, s: State) {
    RowsOk(s.cycles) && NoRepeats(s.pending) && Separated(next, Begun(s)) && Moved(next, s) && Past(next, s)
  }

  lemma TickKeeps(next: NextIn, s: State, now: UtcTime, due: seq<Id>)
    requires Inv(next, s) && Enabled(s, Tick(now, due))
    ensures Inv(next, Apply(next, s, Tick(now, due)))
  {
    var t := Apply(next, s, Tick(now, due));
    assert Begun(t) == s.starts == Begun(s);
    forall i | 0 <= i < |s.starts| ensures MovedOk(next, s.starts[i], now, s.cycles) && PastOk(next, s.starts[i], now, due) {
      var c := Begun(s)[i].cycle;
      assert MovedOk(next, Begun(s)[i], s.clock, s.cycles);
      assert c in due <==> Due(s.cycles, s.runs, c, now);
    }
  }

  /** The occurrence after a start spares the start. */
  lemma OccurrenceSpares(next: NextIn, st: Start)
    requires Cron(next) && next(st.spec, st.at).Some?
    ensures Spares(next, st, st.at, next(st.spec, st.at).value)
  {
    var n := next(st.spec, st.at).value;
    forall now: UtcTime | DueText(n, now) ensures Precedes(next, st, now) {
      DueByText(n, now);
    }
  }

  /** A start that precedes the clock is spared by whatever comes due from then on. */
  lemma PastSpares(next: NextIn, st: Start, clock: UtcTime, due: UtcTime)
    requires Precedes(next, st, clock)
    ensures Spares(next, st, clock, due)
  {
  }

  lemma AdvanceMoves(next: NextIn, s: State)
    requires Cron(next) && Inv(next, s) && Enabled(s, Advance)
    ensures Moved(next, Apply(next, s, Advance))
  {
    var t := Apply(next, s, Advance);
    var c := s.pending[0];
    assert Begun(s) == s.starts;
    forall i | 0 <= i < |Begun(t)| ensures MovedOk(next, Begun(t)[i], t.clock, t.cycles) {
      var st := Begun(t)[i];
      if i == |s.starts| {
        if next(st.spec, st.at).Some? {
          OccurrenceSpares(next, st);
        }
      } else {
        assert MovedOk(next, Begun(s)[i], s.clock, s.cycles) && PastOk(next, s.starts[i], s.clock, s.pending);
        if st.cycle == c && c in t.cycles && t.cycles[c].next.Some? {
          PastSpares(next, st, s.clock, t.cycles[c].next.value);
        }
      }
    }
  }

  lemma AdvanceKeeps(next: NextIn, s: State)
    requires Cron(next) && Inv(next, s) && Enabled(s, Advance)
    ensures Inv(next, Apply(next, s, Advance))
  {
    var t := Apply(next, s, Advance);
    AdvanceMoves(next, s);
    assert Begun(s) == s.starts && |s.starts| <= |Begun(t)| && Begun(t)[..|s.starts|] == s.starts;
    forall i | 0 <= i < |s.starts|
      ensures PastOk(next, s.starts[i], s.clock, Waiting(t)) && PastOk(next, s.starts[i], s.clock, s.pending)
    {
      assert PastOk(next, s.starts[i], s.clock, Waiting(s));
    }
    forall i, j | 0 <= i < j < |Begun(t)| && Begun(t)[i].cycle == Begun(t)[j].cycle ensures Precedes(next, Begun(t)[i], Begun(t)[j].at) {
      assert Begun(t)[i] == s.starts[i];
      assert j < |s.starts| ==> Begun(t)[j] == s.starts[j];
    }
  }

  lemma LaunchKeeps(next: NextIn, s: State, started: bool)
    requires Inv(next, s) && Enabled(s, Launch(started))
    ensures Inv(next, Apply(next, s, Launch(started)))
  {
    var t := Apply(next, s, Launch(started));
    var c := s.pending[0];
    assert Begun(t) == t.starts && Waiting(t) == Waiting(s);
    assert c !in s.pending[1..];
    forall i | 0 <= i < |t.starts|
      ensures t.starts[i].cycle == Begun(s)[i].cycle && t.starts[i].spec == Begun(s)[i].spec && t.starts[i].at == Begun(s)[i].at
    {
    }
    forall i | 0 <= i < |t.starts| ensures MovedOk(next, t.starts[i], t.clock, t.cycles) && PastOk(next, t.starts[i], t.clock, Waiting(t)) {
      assert MovedOk(next, Begun(s)[i], s.clock, s.cycles);
      assert i < |s.starts| ==> PastOk(next, s.starts[i], s.clock, Waiting(s));
    }
  }

  /** A row written for a cycle, in a table that had it or for a cycle that has no starts. */
  lemma WrittenKeeps(next: NextIn, s: State, c: Id, row: Cycle)
    requires Inv(next, s) && RowOk(row) && !CanRepeat(next, s, c, row) && (c in s.cycles || c !in s.pending)
    ensures Inv(next, s.(cycles := s.cycles[c := row]))
  {
    var t := s.(cycles := s.cycles[c := row]);
    assert Begun(t) == Begun(s);
    forall i | 0 <= i < |Begun(s)| ensures MovedOk(next, Begun(s)[i], s.clock, t.cycles) {
      assert MovedOk(next, Begun(s)[i], s.clock, s.cycles);
    }
  }

  lemma DeleteKeeps(next: NextIn, s: State, c: Id)
    requires Inv(next, s)
    ensures Inv(next, Apply(next, s, Delete(c)))
  {
    var t := Apply(next, s, Delete(c));
    assert |Begun(t)| <= |Begun(s)| && Begun(t) == Begun(s)[..|Begun(t)|];
    forall i | 0 <= i < |Begun(t)| ensures MovedOk(next, Begun(t)[i], t.clock, t.cycles) {
      assert MovedOk(next, Begun(s)[i], s.clock, s.cycles);
    }
  }

  lemma RestartKeeps(next: NextIn, s: State, now: UtcTime)
    requires Inv(next, s) && Enabled(s, Restart(now))
    ensures Inv(next, Apply(next, s, Restart(now)))
  {
    var t := Apply(next, s, Restart(now));
    assert |s.starts| <= |Begun(s)| && Begun(t) == s.starts == Begun(s)[..|s.starts|];
    forall i | 0 <= i < |s.starts| ensures MovedOk(next, s.starts[i], now, s.cycles) {
      assert MovedOk(next, Begun(s)[i], s.clock, s.cycles);
    }
  }

  lemma StepKeeps(next: NextIn, s: State, a: Action)
    requires Cron(next) && Inv(next, s) && Enabled(s, a) && CarefulStep(next, s, a)
    ensures Inv(next, Apply(next, s, a))
  {
    match a {
      case Tick(now, due) => TickKeeps(next, s, now, due);
      case Advance => AdvanceKeeps(next, s);
      case Launch(started) => LaunchKeeps(next, s, started);
      case Create(c, row) => WrittenKeeps(next, s, c, row);
      case Edit(c, row) => WrittenKeeps(next, s, c, row);
      case Delete(c) => DeleteKeeps(next, s, c);
      case Finish(_) => assert Begun(Apply(next, s, a)) == Begun(s);
      case StartByHand(_) => assert Begun(Apply(next, s, a)) == Begun(s);
      case Restart(now) => RestartKeeps(next, s, now);
    }
  }

  lemma {:induction false} InvAlways(next: NextIn, s: State, actions: seq<Action>)
    requires Cron(next) && Inv(next, s) && IsRun(next, s, actions) && Careful(next, s, actions)
    ensures Inv(next, After(next, s, actions))
    decreases |actions|
  {
    if actions != [] {
      StepKeeps(next, s, actions[0]);
      InvAlways(next, Apply(next, s, actions[0]), actions[1..]);
    }
  }

  lemma FewerSeparated(next: NextIn, s: State)
    requires Inv(next, s)
    ensures Separated(next, s.starts)
  {
    assert s.starts == Begun(s)[..|s.starts|];
  }

  /** In every run in which no row is saved where it can repeat an occurrence, between two cron starts
      of a cycle lies the occurrence that follows the first. Occurrences missed before a start are
      therefore never made up for one by one. */
  lemma {:induction false} StartsAreSeparated(next: NextIn, s: State, actions: seq<Action>)
    requires Cron(next) && Initial(s) && IsRun(next, s, actions) && Careful(next, s, actions)
    ensures Separated(next, After(next, s, actions).starts)
  {
    InvAlways(next, s, actions);
    FewerSeparated(next, After(next, s, actions));
  }

  lemma {:induction false} KeepingIsCareful(next: NextIn, s: State, actions: seq<Action>)
    requires Cron(next) && Inv(next, s) && IsRun(next, s, actions) && KeepsTimes(next, s, actions)
    ensures Careful(next, s, actions)
    decreases |actions|
  {
    if actions != [] {
      var a := actions[0];
      if a.Edit? {
        forall i | 0 <= i < |Begun(s)| ensures MovedOk(next, Begun(s)[i], s.clock, s.cycles) {
        }
      }
      StepKeeps(next, s, a);
      KeepingIsCareful(next, Apply(next, s, a), actions[1..]);
    }
  }

  /** Saving a case list while ticks go on does no harm: rows written back with the time they hold, at
      whatever moment, keep the starts separated. */
  lemma {:induction false} SavedCasesAreHarmless(next: NextIn, s: State, actions: seq<Action>)
    requires Cron(next) && Initial(s) && IsRun(next, s, actions) && KeepsTimes(next, s, actions)
    ensures Separated(next, After(next, s, actions).starts)
  {
    KeepingIsCareful(next, s, actions);
    StartsAreSeparated(next, s, actions);
  }

  // ---- Saving with a fresh time ----

  /** A later time never has an earlier next occurrence. */
  ghost predicate Monotone(next: NextIn) {
    forall p: Spec, t: UtcTime, u: UtcTime :: Nanos(t) <= Nanos(u) && next(p, u).Some? ==>
      next(p, t).Some? && Nanos(next(p, t).value) <= Nanos(next(p, u).value)
  }

  ghost predicate NotAhead(s: State) {
    forall i :: 0 <= i < |s.starts| ==> Nanos(s.starts[i].at) <= Nanos(s.clock)
  }

  lemma AheadStep(next: NextIn, s: State, a: Action)
    requires NotAhead(s) && Enabled(s, a)
    ensures NotAhead(Apply(next, s, a))
  {
  }

  lemma {:induction false} NeverAhead(next: NextIn, s: State, actions: seq<Action>)
    requires NotAhead(s) && IsRun(next, s, actions)
    ensures NotAhead(After(next, s, actions))
    decreases |actions|
  {
    if actions != [] {
      AheadStep(next, s, actions[0]);
      NeverAhead(next, Apply(next, s, actions[0]), actions[1..]);
    }
  }

  /** Saving a cycle with the next occurrence computed anew does no harm either while its schedule is the
      one its starts were made by. */
  lemma {:induction false} FreshTimeIsHarmless(next: NextIn, s: State, actions: seq<Action>, c: Id, row: Cycle)
    requires Cron(next) && Monotone(next) && Initial(s) && IsRun(next, s, actions)
    requires var t := After(next, s, actions);
             && row.next == next(row.spec, t.clock)
             && forall i :: 0 <= i < |Begun(t)| && Begun(t)[i].cycle == c ==> Begun(t)[i].spec == row.spec
    ensures !CanRepeat(next, After(next, s, actions), c, row)
  {
    var t := After(next, s, actions);
    NeverAhead(next, s, actions);
    if row.next.Some? {
      forall i | 0 <= i < |Begun(t)| && Begun(t)[i].cycle == c ensures Spares(next, Begun(t)[i], t.clock, row.next.value) {
        var st := Begun(t)[i];
        assert Nanos(st.at) <= Nanos(t.clock) && next(st.spec, st.at).Some?;
        forall now: UtcTime | DueText(row.next.value, now) ensures Precedes(next, st, now) {
          DueByText(row.next.value, now);
        }
      }
    }
  }

  // ---- A save that breaks the separation ----

  /** A run that writes no other times back. */
  ghost predicate Continues(next: NextIn, s: State, rest: seq<Action>, end: State) {
    IsRun(next, s, rest) && KeepsTimes(next, s, rest) && After(next, s, rest) == end
  }

  lemma {:induction false} Prepend(next: NextIn, s: State, a: Action, rest: seq<Action>, end: State)
    requires Enabled(s, a) && KeepsTime(s, a) && Continues(next, Apply(next, s, a), rest, end)
    ensures Continues(next, s, [a] + rest, end)
  {
    assert ([a] + rest)[1..] == rest;
  }

  lemma {:induction false} Enumerate(ids: set<Id>) returns (list: seq<Id>)
    ensures NoRepeats(list) && forall c: Id :: c in list <==> c in ids
  {
    if ids == {} {
      list := [];
    } else {
      var c :| c in ids;
      var rest := Enumerate(ids - {c});
      list := [c] + rest;
    }
  }

  /** The list of a tick, with a given due cycle at its head. */
  lemma {:induction false} ListFrom(cycles: map<Id, Cycle>, runs: seq<CycleRun>, now: UtcTime, c: Id) returns (due: seq<Id>)
    requires Due(cycles, runs, c, now)
    ensures Lists(cycles, runs, now, due) && due != [] && due[0] == c
  {
    var others := Enumerate(set d | d in cycles && d != c && Due(cycles, runs, d, now));
    due := [c] + others;
    forall i | 0 <= i < |others| ensures others[i] != c {
      assert others[i] in others;
    }
  }

  /** A restart, a tick and a start of a cycle that is due at the tick. */
  lemma {:induction false} RestartAndStart(next: NextIn, s: State, now: UtcTime, c: Id) returns (rest: seq<Action>, end: State)
    requires Nanos(s.clock) <= Nanos(now) && c in s.cycles && RowDue(s.cycles[c], now)
    ensures Continues(next, s, rest, end) && |end.starts| == |s.starts| + 1 && end.starts[..|s.starts|] == s.starts
    ensures end.starts[|s.starts|].cycle == c && end.starts[|s.starts|].at == now
  {
    var s1 := Apply(next, s, Restart(now));
    assert !IsRunning(s1.runs, c);
    var due := ListFrom(s1.cycles, s1.runs, now, c);
    var s2 := Apply(next, s1, Tick(now, due));
    var s3 := Apply(next, s2, Advance);
    end := Apply(next, s3, Launch(true));
    Prepend(next, s3, Launch(true), [], end);
    Prepend(next, s2, Advance, [Launch(true)] + [], end);
    Prepend(next, s1, Tick(now, due), [Advance] + ([Launch(true)] + []), end);
    rest := [Restart(now)] + ([Tick(now, due)] + ([Advance] + ([Launch(true)] + [])));
    Prepend(next, s, Restart(now), [Tick(now, due)] + ([Advance] + ([Launch(true)] + [])), end);
  }

  /** If a start is under way, let it be made. */
  lemma {:induction false} LetStart(next: NextIn, s: State) returns (first: seq<Action>, t: State)
    ensures Continues(next, s, first, t) && t.clock == s.clock && t.cycles == s.cycles && |t.starts| == |Begun(s)|
    ensures forall i :: 0 <= i < |Begun(s)| ==>
              t.starts[i].cycle == Begun(s)[i].cycle && t.starts[i].spec == Begun(s)[i].spec && t.starts[i].at == Begun(s)[i].at
  {
    if s.advanced && s.pending != [] && s.pending[0] in s.cycles {
      t := Apply(next, s, Launch(true));
      Prepend(next, s, Launch(true), [], t);
      first := [Launch(true)] + [];
    } else {
      first, t := [], s;
    }
  }

  lemma {:induction false} ContinueFurther(next: NextIn, s: State, a: seq<Action>, mid: State, b: seq<Action>, end: State)
    requires Continues(next, s, a, mid) && Continues(next, mid, b, end)
    ensures Continues(next, s, a + b, end)
    decreases |a|
  {
    if a == [] {
      assert a + b == b;
    } else {
      ContinueFurther(next, Apply(next, s, a[0]), a[1..], mid, b, end);
      Prepend(next, s, a[0], a[1..] + b, end);
      assert a + b == [a[0]] + (a[1..] + b);
    }
  }

  /** The row is switched on, if need be, and the cycle starts at its next tick. */
  lemma {:induction false} StartsAgain(next: NextIn, s: State, now: UtcTime, c: Id) returns (rest: seq<Action>, end: State)
    requires Nanos(s.clock) <= Nanos(now) && c in s.cycles && RowOk(s.cycles[c])
    requires s.cycles[c].next.Some? && DueText(s.cycles[c].next.value, now)
    ensures Continues(next, s, rest, end) && |end.starts| == |s.starts| + 1 && end.starts[..|s.starts|] == s.starts
    ensures end.starts[|s.starts|].cycle == c && end.starts[|s.starts|].at == now
  {
    var on := s.cycles[c].(enabled := true, scheduled := true);
    rest, end := RestartAndStart(next, Apply(next, s, Edit(c, on)), now, c);
    Prepend(next, s, Edit(c, on), rest, end);
    rest := [Edit(c, on)] + rest;
  }

  lemma NotSeparated(next: NextIn, begun: seq<Start>, made: seq<Start>, starts: seq<Start>, i: nat)
    requires i < |begun| == |made| && |starts| == |made| + 1 && starts[..|made|] == made && starts[|made|].cycle == begun[i].cycle
    requires made[i].cycle == begun[i].cycle && made[i].spec == begun[i].spec && made[i].at == begun[i].at
    requires !Precedes(next, begun[i], starts[|made|].at)
    ensures !Separated(next, starts)
  {
    assert starts[i] == starts[..|made|][i] == made[i];
    assert !Precedes(next, starts[i], starts[|made|].at);
  }

  /** From a row that can repeat an occurrence a run leads to two starts with none between them. */
  lemma {:induction false} RepeatedStart(next: NextIn, s: State, c: Id) returns (rest: seq<Action>, end: State)
    requires c in s.cycles && RowOk(s.cycles[c]) && CanRepeat(next, s, c, s.cycles[c])
    ensures Continues(next, s, rest, end) && !Separated(next, end.starts)
  {
    var i: nat :| i < |Begun(s)| && Begun(s)[i].cycle == c && !Spares(next, Begun(s)[i], s.clock, s.cycles[c].next.value);
    var due := s.cycles[c].next.value;
    var now: UtcTime :| Nanos(s.clock) <= Nanos(now) && DueText(due, now) && !Precedes(next, Begun(s)[i], now);
    var first, t := LetStart(next, s);
    var second;
    second, end := StartsAgain(next, t, now, c);
    ContinueFurther(next, s, first, t, second, end);
    rest := first + second;
    NotSeparated(next, Begun(s), t.starts, end.starts, i);
  }

  /** From every state that careful steps lead to, also in the middle of a tick: saving a row breaks the
      separation in some continuation without other changed times if and only if the row's time can be
      due before the occurrence that follows a start of the cycle. */
  lemma {:induction false} EditBreaksIff(next: NextIn, s: State, actions: seq<Action>, c: Id, row: Cycle)
    requires Cron(next) && Initial(s) && IsRun(next, s, actions) && Careful(next, s, actions)
    requires Enabled(After(next, s, actions), Edit(c, row))
    ensures var t := After(next, s, actions);
            (exists rest, end :: Continues(next, Apply(next, t, Edit(c, row)), rest, end) && !Separated(next, end.starts))
            <==> CanRepeat(next, t, c, row)
  {
    var t := After(next, s, actions);
    var u := Apply(next, t, Edit(c, row));
    InvAlways(next, s, actions);
    assert Begun(u) == Begun(t);
    if CanRepeat(next, t, c, row) {
      assert CanRepeat(next, u, c, u.cycles[c]);
      var rest, end := RepeatedStart(next, u, c);
    } else {
      StepKeeps(next, t, Edit(c, row));
      forall rest, end | Continues(next, u, rest, end) ensures Separated(next, end.starts) {
        KeepingIsCareful(next, u, rest);
        InvAlways(next, u, rest);
        FewerSeparated(next, end);
      }
    }
  }

  // ---- Overlap ----

  /** One of the runs started by hand since the listing is of this cycle and still running. */
  ghost predicate ByHandRunning(s: State, c: Id) {
    exists i :: i in s.byHand && i < |s.runs| && s.runs[i].cycle == c && s.runs[i].running
  }

  ghost predicate QuietOk(s: State, i: nat) {
    i < |s.runs| && s.runs[i].running && s.runs[i].cycle in s.pending ==> i in s.byHand
  }

  /** A running run of a cycle still on the list was started by hand since the listing. */
  ghost predicate Quiet(s: State) {
    NoRepeats(s.pending) && forall i: nat :: QuietOk(s, i)
  }

  lemma QuietStep(next: NextIn, s: State, a: Action)
    requires Quiet(s) && Enabled(s, a)
    ensures Quiet(Apply(next, s, a))
  {
    var t := Apply(next, s, a);
    forall i: nat ensures QuietOk(t, i) {
      assert QuietOk(s, i);
      if a.Tick? {
        assert i < |s.runs| ==> (s.runs[i].cycle in a.due <==> Due(s.cycles, s.runs, s.runs[i].cycle, a.now));
      }
    }
  }

  lemma {:induction false} QuietAlways(next: NextIn, s: State, actions: seq<Action>)
    requires Quiet(s) && IsRun(next, s, actions)
    ensures Quiet(After(next, s, actions))
    decreases |actions|
  {
    if actions != [] {
      QuietStep(next, s, actions[0]);
      QuietAlways(next, Apply(next, s, actions[0]), actions[1..]);
    }
  }

  /** In every run, a tick starts a cycle beside a running run of it if and only if a run of it that
      was started by hand after the listing is still running. */
  lemma {:induction false} NoOverlapByCron(next: NextIn, s: State, actions: seq<Action>)
    requires Initial(s) && IsRun(next, s, actions) && Enabled(After(next, s, actions), Launch(true))
    ensures var t := After(next, s, actions);
            var st := Apply(next, t, Launch(true)).starts[|t.starts|];
            st.cycle == t.pending[0] && (st.overlapped <==> ByHandRunning(t, st.cycle))
  {
    QuietAlways(next, s, actions);
    var t := After(next, s, actions);
    var c := t.pending[0];
    if IsRunning(t.runs, c) {
      var i: nat :| i < |t.runs| && t.runs[i].cycle == c && t.runs[i].running;
      assert QuietOk(t, i);
    }
  }

  /** A new cycle has an id of its own. */
  lemma CreatedIsNew(s: State, c: Id, row: Cycle)
    requires Enabled(s, Create(c, row))
    ensures c !in s.cycles && c !in s.pending && forall i :: 0 <= i < |s.starts| ==> s.starts[i].cycle != c
  {
  }

  /** A deleted cycle is gone with its runs, and nothing else is touched. */
  lemma DeleteEndsItsRuns(next: NextIn, s: State, c: Id)
    ensures Enabled(s, Delete(c))
    ensures var t := Apply(next, s, Delete(c));
            && c !in t.cycles && !IsRunning(t.runs, c)
            && (forall d :: d in s.cycles && d != c ==> d in t.cycles && t.cycles[d] == s.cycles[d])
            && |t.runs| == |s.runs| && (forall i :: 0 <= i < |s.runs| && s.runs[i].cycle != c ==> t.runs[i] == s.runs[i])
  {
  }

  // ---- Restarts ----

  lemma {:induction false} RowsAlways(next: NextIn, s: State, actions: seq<Action>)
    requires Cron(next) && RowsOk(s.cycles) && IsRun(next, s, actions)
    ensures RowsOk(After(next, s, actions).cycles)
    decreases |actions|
  {
    if actions != [] {
      RowsAlways(next, Apply(next, s, actions[0]), actions[1..]);
    }
  }

  /** Wherever a process dies, the first listing after the sweep holds exactly the enabled scheduled
      cycles whose time lies in an earlier second or is the clock's, in-flight runs or not. */
  lemma {:induction false} AfterSweepAllDueListed(
    next: NextIn, s: State, actions: seq<Action>, up: UtcTime, now: UtcTime, due: seq<Id>, c: Id)
    requires Cron(next) && Initial(s) && IsRun(next, s, actions) && Enabled(After(next, s, actions), Restart(up))
    requires Enabled(Apply(next, After(next, s, actions), Restart(up)), Tick(now, due))
    ensures var cycles := After(next, s, actions).cycles;
            c in due <==>
            && c in cycles && cycles[c].enabled && cycles[c].scheduled && cycles[c].next.Some?
            && (Seconds(cycles[c].next.value) < Seconds(now) || cycles[c].next.value == now)
    ensures Nanos(up) <= Nanos(now)
  {
    var t := After(next, s, actions);
    RowsAlways(next, s, actions);
    assert !IsRunning(Swept(t.runs), c);
    assert c in due <==> Due(t.cycles, Swept(t.runs), c, now);
    if c in t.cycles && t.cycles[c].next.Some? {
      DueByText(t.cycles[c].next.value, now);
    }
  }

  /** And a due time a full second past is due as text. */
  lemma OverdueIsDue(row: Cycle, now: UtcTime)
    requires row.enabled && row.scheduled && row.next.Some? && Nanos(row.next.value) + BILLION <= Nanos(now)
    ensures RowDue(row, now)
  {
    if Less(Format(now), Format(row.next.value)) {
      TextOrderOffBySecond(now, row.next.value);
    }
  }

  /** Without the sweep a run left running keeps its cycle off every list for good. */
  lemma {:induction false} StrandedRunBlocks(next: NextIn, s: State, actions: seq<Action>, r: nat)
    requires r < |s.runs| && s.runs[r].running && IsRun(next, s, actions)
    requires forall i :: 0 <= i < |actions| ==> actions[i] != Finish(r) && actions[i] != Delete(s.runs[r].cycle) && !actions[i].Restart?
    ensures var t := After(next, s, actions);
            forall now, due :: Enabled(t, Tick(now, due)) ==> s.runs[r].cycle !in due
    decreases |actions|
  {
    var c := s.runs[r].cycle;
    if actions == [] {
      assert IsRunning(s.runs, c);
      forall now, due | Enabled(s, Tick(now, due)) ensures c !in due {
        assert c in due <==> Due(s.cycles, s.runs, c, now);
      }
    } else {
      var t := Apply(next, s, actions[0]);
      assert actions[0] != Finish(r);
      assert r < |t.runs| && t.runs[r] == s.runs[r];
      StrandedRunBlocks(next, t, actions[1..], r);
    }
  }

  // ---- What can go wrong ----

  const MORNING: UtcTime := Time(2024, 5, 6, 8, 59, 0, 0)
  const NINE: UtcTime := Time(2024, 5, 6, 9, 0, 0, 0)

  /** What the schedule library answers when no occurrence is left. */
  const ZERO_TIME: UtcTime := Time(1, 1, 1, 0, 0, 0, 0)

  /** Nothing in the tables yet. */
  const EMPTY := State(MORNING, map[], [], map[], [], false, {}, [])

  /** A cycle with a schedule, next due at nine. */
  const NIGHTLY := Cycle(true, true, 0, Some(NINE), None)

  /** One cycle, due at nine, no run of it under way. */
  ghost predicate AtNine(s: State) {
    && s.pending == [] && !s.advanced && Nanos(s.clock) <= Nanos(NINE) && s.cycles.Keys == {0} && RowDue(s.cycles[0], NINE)
    && forall i :: 0 <= i < |s.runs| ==> !s.runs[i].running
  }

  lemma CycleCreated(next: NextIn) returns (s: State)
    ensures s == Apply(next, EMPTY, Create(0, NIGHTLY)) && Initial(EMPTY) && Enabled(EMPTY, Create(0, NIGHTLY))
    ensures AtNine(s) && s.starts == [] && s.runs == []
  {
    s := Apply(next, EMPTY, Create(0, NIGHTLY));
    FieldsOrderInstants(MORNING, NINE);
    DueByText(NINE, NINE);
  }

  lemma ListedAtNine(s: State)
    requires AtNine(s)
    ensures Enabled(s, Tick(NINE, [0]))
  {
    forall c: Id ensures c in [0] <==> Due(s.cycles, s.runs, c, NINE) {
    }
  }

  /** A tick that starts the cycle. */
  lemma {:induction false} StartedAtNine(next: NextIn, s: State) returns (run: seq<Action>, t: State)
    requires AtNine(s)
    ensures Continues(next, s, run, t) && t.starts == s.starts + [Start(0, s.cycles[0].spec, NINE, false)]
    ensures t.clock == NINE && t.pending == [] && !t.advanced && t.runs == s.runs + [CycleRun(0, true)]
    ensures t.cycles == map[0 := s.cycles[0].(next := next(s.cycles[0].spec, NINE), last := Some(NINE))]
  {
    ListedAtNine(s);
    var s1 := Apply(next, s, Tick(NINE, [0]));
    var s2 := Apply(next, s1, Advance);
    t := Apply(next, s2, Launch(true));
    Prepend(next, s2, Launch(true), [], t);
    Prepend(next, s1, Advance, [Launch(true)] + [], t);
    Prepend(next, s, Tick(NINE, [0]), [Advance] + ([Launch(true)] + []), t);
    run := [Tick(NINE, [0])] + ([Advance] + ([Launch(true)] + []));
  }

  lemma {:induction false} StartedBeside(next: NextIn, s: State) returns (run: seq<Action>, t: State)
    requires s.pending == [0] && !s.advanced && 0 in s.cycles && s.runs == [CycleRun(0, true)]
    ensures Continues(next, s, run, t) && t.starts == s.starts + [Start(0, SpecOf(s, 0), s.clock, true)]
  {
    var s1 := Apply(next, s, Advance);
    t := Apply(next, s1, Launch(true));
    assert s1.runs[0] == CycleRun(0, true);
    Prepend(next, s1, Launch(true), [], t);
    run := [Advance] + ([Launch(true)] + []);
    Prepend(next, s, Advance, [Launch(true)] + [], t);
  }

  lemma {:induction false} ListedThenByHand(next: NextIn, s: State) returns (run: seq<Action>, t: State)
    requires AtNine(s) && s.runs == []
    ensures Continues(next, s, run, t) && t.starts == s.starts + [Start(0, s.cycles[0].spec, NINE, true)]
  {
    ListedAtNine(s);
    var s1 := Apply(next, s, Tick(NINE, [0]));
    var s2 := Apply(next, s1, StartByHand(0));
    var rest;
    rest, t := StartedBeside(next, s2);
    Prepend(next, s1, StartByHand(0), rest, t);
    run := [Tick(NINE, [0])] + ([StartByHand(0)] + rest);
    Prepend(next, s, Tick(NINE, [0]), [StartByHand(0)] + rest, t);
  }

  /** A cycle started by hand between the listing and the start runs twice. */
  lemma {:induction false} StartByHandOverlaps(next: NextIn)
    ensures Initial(EMPTY)
    ensures exists run, end :: Continues(next, EMPTY, run, end) && end.starts == [Start(0, 0, NINE, true)]
  {
    var s := CycleCreated(next);
    var run, end := ListedThenByHand(next, s);
    Prepend(next, EMPTY, Create(0, NIGHTLY), run, end);
  }

  lemma {:induction false} StartedAndEnded(next: NextIn, s: State) returns (run: seq<Action>, t: State)
    requires AtNine(s) && s.runs == []
    ensures Continues(next, s, run, t) && t.starts == s.starts + [Start(0, s.cycles[0].spec, NINE, false)]
    ensures t.clock == NINE && t.pending == [] && !t.advanced && t.runs == [CycleRun(0, false)]
    ensures t.cycles == map[0 := s.cycles[0].(next := next(s.cycles[0].spec, NINE), last := Some(NINE))]
  {
    var start, u := StartedAtNine(next, s);
    t := Apply(next, u, Finish(0));
    Prepend(next, u, Finish(0), [], t);
    ContinueFurther(next, s, start, u, [Finish(0)] + [], t);
    run := start + ([Finish(0)] + []);
  }

  /** The cycle is created, starts at nine, and its run ends. */
  lemma {:induction false} FirstStart(next: NextIn) returns (run: seq<Action>, t: State)
    ensures Initial(EMPTY) && Continues(next, EMPTY, run, t)
    ensures t.starts == [Start(0, 0, NINE, false)] && t.clock == NINE && t.pending == [] && !t.advanced && t.runs == [CycleRun(0, false)]
    ensures t.cycles == map[0 := NIGHTLY.(next := next(0, NINE), last := Some(NINE))]
  {
    var s := CycleCreated(next);
    run, t := StartedAndEnded(next, s);
    Prepend(next, EMPTY, Create(0, NIGHTLY), run, t);
    run := [Create(0, NIGHTLY)] + run;
  }

  /** The time of the start that was made is put back. */
  lemma OldTimeCanRepeat(next: NextIn, t: State, row: Cycle)
    requires t.starts == [Start(0, 0, NINE, false)] && !t.advanced && t.clock == NINE && row.next == Some(NINE)
    ensures CanRepeat(next, t, 0, row)
  {
    DueByText(NINE, NINE);
    assert !Precedes(next, t.starts[0], NINE);
    assert Begun(t)[0].cycle == 0 && !Spares(next, Begun(t)[0], NINE, NINE);
  }

  /** Whoever saves a cycle writes all of its row back, next run time included. One that was read before
      a tick moved the schedule on puts the old time back, and the cycle starts twice with no occurrence
      in between. */
  lemma {:induction false} StaleEditStartsTwice(next: NextIn)
    ensures Initial(EMPTY)
    ensures exists run, t, rest, end :: && Continues(next, EMPTY, run, t) && Enabled(t, Edit(0, NIGHTLY))
                                        && Continues(next, Apply(next, t, Edit(0, NIGHTLY)), rest, end) && !Separated(next, end.starts)
  {
    var run, t := FirstStart(next);
    var u := Apply(next, t, Edit(0, NIGHTLY));
    OldTimeCanRepeat(next, u, NIGHTLY);
    var rest, end := RepeatedStart(next, u, 0);
  }

  /** A schedule with no occurrence left gets the zero time as its next one. It lies in the past, so the
      cycle is due again at once, and starts twice without any save. */
  lemma {:induction false} NoOccurrenceIsAlwaysDue(next: NextIn)
    requires next(0, NINE) == Some(ZERO_TIME)
    ensures Initial(EMPTY)
    ensures exists run, end :: Continues(next, EMPTY, run, end) && end.starts == [Start(0, 0, NINE, false), Start(0, 0, NINE, false)]
  {
    var run, t := FirstStart(next);
    ZeroTimeIsDue(t);
    var again, end := StartedAtNine(next, t);
    ContinueFurther(next, EMPTY, run, t, again, end);
  }

  lemma ZeroTimeIsDue(t: State)
    requires t.pending == [] && !t.advanced && t.clock == NINE && t.runs == [CycleRun(0, false)]
    requires t.cycles == map[0 := NIGHTLY.(next := Some(ZERO_TIME), last := Some(NINE))]
    ensures AtNine(t)
  {
    FieldsOrderInstants(ZERO_TIME, NINE);
    DueByText(ZERO_TIME, NINE);
  }

  // ---- The loops ----

  datatype Instance = Instance(id: string, platform: string, state: string)

  predicate Suits(inst: Instance, platform: string) {
    && (if inst.platform == "" then "android" else inst.platform) == platform
    && (inst.state == "running" || inst.state == "online")
  }

  /** A device without a platform is an Android one; up is running or online. */
  lemma SuitsIff(inst: Instance, platform: string)
    ensures Suits(inst, platform) <==>
            && ((inst.platform == platform && platform != "") || (inst.platform == "" && platform == "android"))
            && (inst.state == "running" || inst.state == "online")
  {
  }

  /** The first listed device that has the platform and is up. */
  method ResolveTarget(instances: seq<Instance>, platform: string) returns (target: Option<string>)
    ensures target.None? ==> forall i :: 0 <= i < |instances| ==> !Suits(instances[i], platform)
    ensures target.Some? ==> exists i :: && 0 <= i < |instances| && Suits(instances[i], platform) && instances[i].id == target.value
                                         && forall j :: 0 <= j < i ==> !Suits(instances[j], platform)
  {
    for i := 0 to |instances|
      invariant forall j :: 0 <= j < i ==> !Suits(instances[j], platform)
    {
      var p := if instances[i].platform == "" then "android" else instances[i].platform;
      if p != platform {
        continue;
      }
      if instances[i].state == "running" || instances[i].state == "online" {
        return Some(instances[i].id);
      }
    }
    return None;
  }

  function CountRunning(runs: seq<CycleRun>): nat {
    if runs == [] then 0 else CountRunning(runs[..|runs| - 1]) + if runs[|runs| - 1].running then 1 else 0
  }

  lemma {:induction false} CountIsNumber(runs: seq<CycleRun>)
    ensures CountRunning(runs) == |set r | 0 <= r < |runs| && runs[r].running|
  {
    if runs != [] {
      var init, n := runs[..|runs| - 1], |runs| - 1;
      CountIsNumber(init);
      var before, all := set r | 0 <= r < |init| && init[r].running, set r | 0 <= r < |runs| && runs[r].running;
      assert all == before + if runs[n].running then {n} else {};
      assert n !in before;
    }
  }

  /** What one tick does when nothing comes between its steps. */
  function TickSteps(due: seq<Id>, launches: Id -> bool): seq<Action> {
    if due == [] then [] else [Advance, Launch(launches(due[0]))] + TickSteps(due[1..], launches)
  }

  lemma {:induction false} TwoSteps(next: NextIn, s: State, a: Action, b: Action, rest: seq<Action>)
    ensures After(next, s, [a, b] + rest) == After(next, Apply(next, Apply(next, s, a), b), rest)
    ensures IsRun(next, s, [a, b] + rest) <==>
            Enabled(s, a) && Enabled(Apply(next, s, a), b) && IsRun(next, Apply(next, Apply(next, s, a), b), rest)
  {
  }

  /** The steps of a tick are steps of the protocol. */
  lemma {:induction false} TickIsRun(next: NextIn, s: State, launches: Id -> bool)
    requires !s.advanced && forall i :: 0 <= i < |s.pending| ==> s.pending[i] in s.cycles
    ensures IsRun(next, s, TickSteps(s.pending, launches))
    decreases |s.pending|
  {
    if s.pending != [] {
      var c := s.pending[0];
      var s1 := Apply(next, s, Advance);
      var s2 := Apply(next, s1, Launch(launches(c)));
      assert s1.cycles.Keys == s.cycles.Keys;
      assert s2.pending == s.pending[1..];
      TickIsRun(next, s2, launches);
      TwoSteps(next, s, Advance, Launch(launches(c)), TickSteps(s.pending[1..], launches));
    }
  }

  /** A row of `test_runs`: the cycle run it belongs to, if any, by its place. */
  datatype CaseRow = CaseRow(cycleRun: Option<nat>, running: bool)

  /** The case run is still running, under a cycle run that is. */
  predicate Stranded(runs: seq<CycleRun>, row: CaseRow) {
    row.running && row.cycleRun.Some? && row.cycleRun.value < |runs| && runs[row.cycleRun.value].running
  }

  function SweptCases(runs: seq<CycleRun>, cases: seq<CaseRow>): (r: seq<CaseRow>)
    ensures |r| == |cases|
  {
    seq(|cases|, i requires 0 <= i < |cases| => if Stranded(runs, cases[i]) then cases[i].(running := false) else cases[i])
  }

  /** The tables the scheduler works on. */
  class Tables {
    var cycles: map<Id, Cycle>
    var runs: seq<CycleRun>
    var cases: seq<CaseRow>

    /** The query for due cycles, over the rows in table order. */
    method ListDueCycles(now: UtcTime, order: seq<Id>) returns (due: seq<Id>)
      requires NoRepeats(order) && forall c: Id :: c in order <==> c in cycles
      ensures Lists(cycles, runs, now, due)
    {
      due := [];
      for k := 0 to |order|
        invariant NoRepeats(due)
        invariant forall c: Id :: c in due <==> c in order[..k] && Due(cycles, runs, c, now)
      {
        assert order[..k + 1] == order[..k] + [order[k]];
        assert order[k] !in order[..k];
        if Due(cycles, runs, order[k], now) {
          due := due + [order[k]];
        }
      }
      assert order[..|order|] == order;
    }

    /** One tick: list, then per cycle move the schedule on before trying to start it. `launches`
        tells which starts find a device and succeed. */
    method Tick(next: NextIn, now: UtcTime, order: seq<Id>, launches: Id -> bool) returns (due: seq<Id>)
      requires NoRepeats(order) && forall c: Id :: c in order <==> c in cycles
      modifies this
      ensures Lists(old(cycles), old(runs), now, due)
      ensures var end := After(next, State(now, old(cycles), old(runs), old(cycles), due, false, {}, []), TickSteps(due, launches));
              cycles == end.cycles && runs == end.runs
      ensures IsRun(next, State(now, old(cycles), old(runs), old(cycles), due, false, {}, []), TickSteps(due, launches))
    {
      due := ListDueCycles(now, order);
      var listed := cycles;
      ghost var s := State(now, cycles, runs, listed, due, false, {}, []);
      forall i | 0 <= i < |due| ensures due[i] in cycles {
        assert due[i] in due;
      }
      TickIsRun(next, s, launches);
      ghost var begun := s;
      for k := 0 to |due|
        invariant s.pending == due[k..] && !s.advanced && s.clock == now && s.cycles == cycles && s.runs == runs
        invariant s.listed == listed && cycles.Keys == listed.Keys
        invariant forall i :: k <= i < |due| ==> due[i] in cycles
        invariant After(next, s, TickSteps(due[k..], launches)) == After(next, begun, TickSteps(due, launches))
      {
        var c := due[k];
        assert due[k..][0] == c && due[k..][1..] == due[k + 1..];
        TwoSteps(next, s, Advance, Launch(launches(c)), TickSteps(due[k + 1..], launches));
        s := Apply(next, Apply(next, s, Advance), Launch(launches(c)));
        cycles := cycles[c := cycles[c].(next := next(listed[c].spec, now), last := Some(now))];
        if launches(c) {
          runs := runs + [CycleRun(c, true)];
        }
      }
      assert due[|due|..] == [];
    }

    /** The startup sweep: the case runs of running cycle runs first, then the cycle runs. Nothing else
        changes, and no case run is left running under a cycle run that was swept. */
    method FailStrandedCycleRuns() returns (swept: nat)
      modifies this`runs, this`cases
      ensures runs == Swept(old(runs)) && swept == CountRunning(old(runs)) && cases == SweptCases(old(runs), old(cases))
      ensures forall i :: 0 <= i < |cases| && cases[i].running ==> !Stranded(old(runs), cases[i])
      ensures forall i :: 0 <= i < |cases| ==> !Stranded(runs, cases[i])
      ensures |runs| == |old(runs)| && forall r :: 0 <= r < |runs| ==> !runs[r].running && runs[r].cycle == old(runs)[r].cycle
      ensures swept == |set r | 0 <= r < |old(runs)| && old(runs)[r].running| && |cases| == |old(cases)|
      ensures forall i :: 0 <= i < |cases| ==>
                var was := old(cases)[i];
                && cases[i].cycleRun == was.cycleRun
                && (cases[i].running <==> was.running && !(was.cycleRun.Some? && was.cycleRun.value < |old(runs)| && old(runs)[was.cycleRun.value].running))
    {
      for i := 0 to |cases|
        invariant |cases| == |old(cases)| && runs == old(runs)
        invariant forall j :: 0 <= j < i ==> cases[j] == SweptCases(runs, old(cases))[j]
        invariant forall j :: i <= j < |cases| ==> cases[j] == old(cases)[j]
      {
        if Stranded(runs, cases[i]) {
          cases := cases[i := cases[i].(running := false)];
        }
      }
      swept := 0;
      for i := 0 to |runs|
        invariant |runs| == |old(runs)| && cases == SweptCases(old(runs), old(cases))
        invariant forall j :: 0 <= j < i ==> runs[j] == old(runs)[j].(running := false)
        invariant forall j :: i <= j < |runs| ==> runs[j] == old(runs)[j]
        invariant swept == CountRunning(old(runs)[..i])
      {
        assert old(runs)[..i + 1][..i] == old(runs)[..i];
        if runs[i].running {
          runs := runs[i := runs[i].(running := false)];
          swept := swept + 1;
        }
      }
      assert old(runs)[..|runs|] == old(runs);
      CountIsNumber(old(runs));
    }
  }
}
