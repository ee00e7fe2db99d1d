/** The sign-in limiter: ten attempts per key in any five minutes. Old attempts are filtered out in
    place, in the backing array of the key's list. */
module RateLimiter {

  /** Clock readings in nanoseconds. */
  type Instant = int

  const WINDOW := 300_000_000_000
  const LIMIT := 10

  /** The instants after `start`, in order. */
  function Since(s: seq<Instant>, start: Instant): seq<Instant> {
    if s == [] then []
    else if s[|s| - 1] > start then Since(s[..|s| - 1], start) + [s[|s| - 1]]
    else Since(s[..|s| - 1], start)
  }

  lemma {:induction false} SinceNext(a: seq<Instant>, i: nat, start: Instant)
    requires i < |a|
    ensures Since(a[..i + 1], start) == if a[i] > start then Since(a[..i], start) + [a[i]] else Since(a[..i], start)
  {
    assert a[..i + 1][..i] == a[..i];
  }

  /** The filter loop: kept entries move to the front of the array that is being read. No entry is
      overwritten before it has been read. */
  method FilterInPlace(a: array<Instant>, size: nat, start: Instant) returns (kept: nat)
    requires size <= a.Length
    modifies a
    ensures kept <= size && a[..kept] == Since(old(a[..size]), start)
    ensures forall i :: size <= i < a.Length ==> a[i] == old(a[i])
  {
    kept := 0;
    ghost var was := a[..size];
    for i := 0 to size
      invariant kept <= i
      invariant a[..kept] == Since(was[..i], start)
      invariant forall j :: i <= j < size ==> a[j] == was[j]
      invariant forall j :: size <= j < a.Length ==> a[j] == old(a[j])
    {
      SinceNext(was, i, start);
      if a[i] > start {
        a[kept] := a[i];
        kept := kept + 1;
      }
    }
    assert was[..size] == was;
  }

  /** What one call makes of a key's list. */
  function Pruned(attempts: seq<Instant>, now: Instant): seq<Instant> {
    Since(attempts, now - WINDOW)
  }

  predicate Allows(attempts: seq<Instant>, now: Instant) {
    |Pruned(attempts, now)| < LIMIT
  }

  function AfterCall(attempts: seq<Instant>, now: Instant): seq<Instant> {
    if Allows(attempts, now) then Pruned(attempts, now) + [now] else Pruned(attempts, now)
  }

  /** Put `x` behind the first `size` entries: in place if the array has room, else in a larger
      copy. */
  method Append(a: array<Instant>, size: nat, x: Instant) returns (b: array<Instant>)
    requires size <= a.Length
    modifies a
    ensures b == a || fresh(b)
    ensures size < b.Length && b[..size + 1] == old(a[..size]) + [x]
  {
    b := a;
    if size == a.Length {
      b := new Instant[2 * size + 1](i reads a => if 0 <= i < a.Length then a[i] else 0);
    }
    b[size] := x;
  }

  /** The key's list, pruned and, if there is room below the limit, with the new attempt. */
  method Record(a: array<Instant>, size: nat, now: Instant) returns (ok: bool, b: array<Instant>, n: nat)
    requires size <= a.Length
    modifies a
    ensures b == a || fresh(b)
    ensures n <= b.Length && b[..n] == AfterCall(old(a[..size]), now) && ok == Allows(old(a[..size]), now)
  {
    var kept := FilterInPlace(a, size, now - WINDOW);
    if kept >= LIMIT {
      return false, a, kept;
    }
    b := Append(a, kept, now);
    return true, b, kept + 1;
  }

  class Limiter {
    /** Per key: the backing array and how much of it is the list. */
    var buffers: map<string, array<Instant>>
    var sizes: map<string, nat>

    ghost predicate Valid()
      reads this
    {
      && buffers.Keys == sizes.Keys
      && (forall k :: k in buffers ==> sizes[k] <= buffers[k].Length)
      && forall k, l :: k in buffers && l in buffers && k != l ==> buffers[k] != buffers[l]
    }

    ghost function Attempts(key: string): seq<Instant>
      requires Valid()
      reads this, if key in buffers then {buffers[key]} else {}
    {
      if key in buffers then buffers[key][..sizes[key]] else []
    }

    constructor ()
      ensures Valid() && forall key :: Attempts(key) == []
    {
      buffers, sizes := map[], map[];
    }

    /** One attempt. */
    method Allow(key: string, now: Instant) returns (ok: bool)
      requires Valid()
      modifies this, if key in buffers then {buffers[key]} else {}
      ensures Valid()
      ensures ok == Allows(old(Attempts(key)), now)
      ensures Attempts(key) == AfterCall(old(Attempts(key)), now)
      ensures forall k :: k != key ==> Attempts(k) == old(Attempts(k))
    {
      var a, size;
      if key in buffers {
        a, size := buffers[key], sizes[key];
      } else {
        a, size := new Instant[0], 0;
      }
      assert a[..size] == old(Attempts(key));
      ok, a, size := Record(a, size, now);
      buffers, sizes := buffers[key := a], sizes[key := size];
    }
  }

  // ---- Whole call sequences ----

  datatype Call = Call(key: string, now: Instant)

  predicate ClockRuns(calls: seq<Call>) {
    forall i, j :: 0 <= i < j < |calls| ==> calls[i].now <= calls[j].now
  }

  /** The key's list after all calls. */
  function ListAfter(calls: seq<Call>, key: string): seq<Instant> {
    if calls == [] then []
    else
      var before, last := ListAfter(calls[..|calls| - 1], key), calls[|calls| - 1];
      if last.key == key then AfterCall(before, last.now) else before
  }

  /** The history: every attempt that was ever allowed for the key. */
  function Allowed(calls: seq<Call>, key: string): seq<Instant> {
    if calls == [] then []
    else
      var before, last := calls[..|calls| - 1], calls[|calls| - 1];
      if last.key == key && Allows(ListAfter(before, key), last.now) then Allowed(before, key) + [last.now]
      else Allowed(before, key)
  }

  lemma {:induction false} SinceConcat(s: seq<Instant>, x: Instant, start: Instant)
    ensures Since(s + [x], start) == if x > start then Since(s, start) + [x] else Since(s, start)
  {
  }

  lemma {:induction false} SinceAgain(s: seq<Instant>, early: Instant, late: Instant)
    requires early <= late
    ensures Since(Since(s, early), late) == Since(s, late)
  {
    if s != [] {
      var init, x := s[..|s| - 1], s[|s| - 1];
      SinceAgain(init, early, late);
      if x > early {
        SinceConcat(Since(init, early), x, late);
      }
    }
  }

  lemma {:induction false} CallKeepsLater(list: seq<Instant>, history: seq<Instant>, now: Instant, start: Instant)
    requires Since(list, start) == Since(history, start) && now - WINDOW <= start
    ensures Since(AfterCall(list, now), start) == Since(if Allows(list, now) then history + [now] else history, start)
  {
    SinceAgain(list, now - WINDOW, start);
    SinceConcat(Pruned(list, now), now, start);
    SinceConcat(history, now, start);
  }

  /** Filtering the list is filtering the whole history: what was dropped is out of every later
      window. */
  lemma {:induction false} ListIsHistory(calls: seq<Call>, key: string, start: Instant)
    requires ClockRuns(calls) && (calls != [] ==> calls[|calls| - 1].now - WINDOW <= start)
    ensures Since(ListAfter(calls, key), start) == Since(Allowed(calls, key), start)
  {
    if calls != [] {
      var init, last := calls[..|calls| - 1], calls[|calls| - 1];
      ListIsHistory(init, key, start);
      CallKeepsLater(ListAfter(init, key), Allowed(init, key), last.now, start);
    }
  }

  /** The list kept after a call for the key is exactly the part of the history in the window. */
  lemma {:induction false} ListIsWindow(calls: seq<Call>, key: string)
    requires ClockRuns(calls) && calls != [] && calls[|calls| - 1].key == key
    ensures ListAfter(calls, key) == Since(Allowed(calls, key), calls[|calls| - 1].now - WINDOW)
  {
    var init, last := calls[..|calls| - 1], calls[|calls| - 1];
    var start := last.now - WINDOW;
    ListIsHistory(init, key, start);
    if Allows(ListAfter(init, key), last.now) {
      SinceConcat(Allowed(init, key), last.now, start);
    }
  }

  /** An attempt is allowed exactly when fewer than ten allowed ones lie in the last five minutes. */
  lemma {:induction false} AllowedIffBelowLimit(calls: seq<Call>, key: string, now: Instant)
    requires ClockRuns(calls) && (calls != [] ==> calls[|calls| - 1].now <= now)
    ensures Allows(ListAfter(calls, key), now) <==> |Since(Allowed(calls, key), now - 300_000_000_000)| < 10
  {
    ListIsHistory(calls, key, now - WINDOW);
  }

  /** How many of the instants lie in the half-open five minutes (x, x + 300 s]. */
  function InWindow(s: seq<Instant>, x: Instant): nat {
    if s == [] then 0 else InWindow(s[..|s| - 1], x) + if x < s[|s| - 1] <= x + 300_000_000_000 then 1 else 0
  }

  lemma {:induction false} WindowWithin(s: seq<Instant>, x: Instant, start: Instant)
    requires start <= x
    ensures InWindow(s, x) <= |Since(s, start)|
  {
    if s != [] {
      WindowWithin(s[..|s| - 1], x, start);
    }
  }

  /** No five minutes, wherever they begin, hold more than ten allowed attempts of a key. */
  lemma {:induction false} NoWindowOverLimit(calls: seq<Call>, key: string, x: Instant)
    requires ClockRuns(calls)
    ensures InWindow(Allowed(calls, key), x) <= 10
    decreases |calls|
  {
    if calls != [] {
      var init, last := calls[..|calls| - 1], calls[|calls| - 1];
      NoWindowOverLimit(init, key, x);
      if last.key == key && Allows(ListAfter(init, key), last.now) {
        var h := Allowed(init, key);
        assert (h + [last.now])[..|h|] == h;
        if x < last.now <= x + WINDOW {
          AllowedIffBelowLimit(init, key, last.now);
          WindowWithin(h, x, last.now - WINDOW);
        }
      }
    }
  }
}
