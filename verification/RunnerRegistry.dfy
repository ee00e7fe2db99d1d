/** The hub's table of connected runners: which stream of a device is registered, and what the
    stored online flag says about it.

    Streams are numbered in the order in which runners dial in; the number stands for the session
    pointer. Every lock region of the hub and every `OnOnline` call is one atomic step, so a run is
    any list of steps that are enabled one after the other. */
module RunnerRegistry {

  type Device = string
  type Sid = nat

  /** A stream handler: registered but `OnOnline(true)` not yet called, in its select loop, past
      the deferred cleanup with `OnOnline(false)` not yet called, returned. */
  datatype Phase = Opening | Serving | Exiting | Gone

  datatype Stream = Stream(device: Device, phase: Phase, closed: bool)

  datatype Registry = Registry(
    streams: seq<Stream>,
    registered: map<Device, Sid>,
    disconnected: set<Sid>,                  // taken out of the map by Disconnect
    lastCallback: map<Device, (Sid, bool)>   // the latest OnOnline call for a device
  )

  datatype Step =
    | Connect(device: Device)
    | FireOnline(sid: Sid)
    | Exit(sid: Sid)
    | FireOffline(sid: Sid)
    | Disconnect(device: Device)
    | Close(sid: Sid)

  const EMPTY := Registry([], map[], {}, map[])

  predicate Enabled(r: Registry, a: Step) {
    match a
    case Connect(_) => true
    case FireOnline(i) => i < |r.streams| && r.streams[i].phase == Opening
    case Exit(i) => i < |r.streams| && r.streams[i].phase == Serving
    case FireOffline(i) => i < |r.streams| && r.streams[i].phase == Exiting
    case Disconnect(_) => true
    case Close(i) => i < |r.streams| && i in r.disconnected
  }

  /** A fresh stream supersedes, and so closes, whatever is registered for its device. */
  function AfterConnect(r: Registry, d: Device): Registry {
    var streams := if d in r.registered && r.registered[d] < |r.streams|
                   then r.streams[r.registered[d] := r.streams[r.registered[d]].(closed := true)]
                   else r.streams;
    r.(streams := streams + [Stream(d, Opening, false)], registered := r.registered[d := |r.streams|])
  }

  /** The deferred cleanup: the map entry goes only if it still names this stream. */
  function AfterExit(r: Registry, i: Sid): Registry
    requires i < |r.streams|
  {
    var d := r.streams[i].device;
    r.(streams := r.streams[i := r.streams[i].(phase := Exiting)],
       registered := if d in r.registered && r.registered[d] == i then r.registered - {d} else r.registered)
  }

  function AfterDisconnect(r: Registry, d: Device): Registry {
    if d in r.registered
    then r.(registered := r.registered - {d}, disconnected := r.disconnected + {r.registered[d]})
    else r
  }

  function AfterCallback(r: Registry, i: Sid, online: bool): Registry
    requires i < |r.streams|
  {
    r.(streams := r.streams[i := r.streams[i].(phase := if online then Serving else Gone)],
       lastCallback := r.lastCallback[r.streams[i].device := (i, online)])
  }

  function Next(r: Registry, a: Step): Registry
    requires Enabled(r, a)
  {
    match a
    case Connect(d) => AfterConnect(r, d)
    case FireOnline(i) => AfterCallback(r, i, true)
    case Exit(i) => AfterExit(r, i)
    case FireOffline(i) => AfterCallback(r, i, false)
    case Disconnect(d) => AfterDisconnect(r, d)
    case Close(i) => r.(streams := r.streams[i := r.streams[i].(closed := true)])
  }

  predicate IsRun(r: Registry, run: seq<Step>)
    decreases |run|
  {
    run == [] || (Enabled(r, run[0]) && IsRun(Next(r, run[0]), run[1..]))
  }

  function After(r: Registry, run: seq<Step>): Registry
    requires IsRun(r, run)
    decreases |run|
  {
    if run == [] then r else After(Next(r, run[0]), run[1..])
  }

  lemma {:induction false} RunFrom(r: Registry, a: Step, rest: seq<Step>)
    requires Enabled(r, a) && IsRun(Next(r, a), rest)
    ensures IsRun(r, [a] + rest) && After(r, [a] + rest) == After(Next(r, a), rest)
  {
  }

  predicate Online(r: Registry, d: Device) {
    d in r.registered
  }

  /** The device state the store holds: the latest callback wins, offline before the first. */
  predicate StoredOnline(r: Registry, d: Device) {
    d in r.lastCallback && r.lastCallback[d].1
  }

  // ---- What the map holds, in every interleaving ----

  predicate Newest(r: Registry, i: Sid) {
    && i < |r.streams|
    && forall k :: i < k < |r.streams| ==> r.streams[k].device != r.streams[i].device
  }

  predicate Open(r: Registry, i: Sid) {
    i < |r.streams| && (r.streams[i].phase == Opening || r.streams[i].phase == Serving)
  }

  predicate Registered(r: Registry, i: Sid) {
    i < |r.streams| && r.streams[i].device in r.registered && r.registered[r.streams[i].device] == i
  }

  /** A stream is registered exactly when it is the newest of its device, has not left its loop and
      was not taken out by Disconnect; and a registered stream is never a closed one. */
  predicate Exact(r: Registry) {
    && (forall d :: d in r.registered ==> r.registered[d] < |r.streams| && r.streams[r.registered[d]].device == d)
    && (forall i :: 0 <= i < |r.streams| ==> (Registered(r, i) <==> Newest(r, i) && Open(r, i) && i !in r.disconnected))
    && (forall i :: 0 <= i < |r.streams| && Registered(r, i) ==> !r.streams[i].closed)
    && (forall i :: i in r.disconnected ==> i < |r.streams|)
  }

  lemma ExactAfterConnect(r: Registry, d: Device)
    requires Exact(r)
    ensures Exact(AfterConnect(r, d))
  {
    var n := AfterConnect(r, d);
    var last := |r.streams|;
    assert forall k :: 0 <= k < last ==> n.streams[k].device == r.streams[k].device && n.streams[k].phase == r.streams[k].phase;
    forall i | 0 <= i < |n.streams|
      ensures Registered(n, i) <==> Newest(n, i) && Open(n, i) && i !in n.disconnected
      ensures Registered(n, i) ==> !n.streams[i].closed
    {
      if i < last {
        assert Registered(r, i) <==> Newest(r, i) && Open(r, i) && i !in r.disconnected;
        if r.streams[i].device == d {
          assert n.streams[last].device == n.streams[i].device;
        } else {
          assert Newest(n, i) <==> Newest(r, i);
        }
      }
    }
  }

  /** Steps that keep every stream's device keep which streams are newest. */
  lemma NewestKept(r: Registry, n: Registry, i: Sid)
    requires |n.streams| == |r.streams|
    requires forall k :: 0 <= k < |r.streams| ==> n.streams[k].device == r.streams[k].device
    ensures Newest(n, i) <==> Newest(r, i)
  {
  }

  lemma DevicesKept(r: Registry, a: Step)
    requires Enabled(r, a)
    ensures |Next(r, a).streams| == |r.streams| + (if a.Connect? then 1 else 0)
    ensures forall k :: 0 <= k < |r.streams| ==> Next(r, a).streams[k].device == r.streams[k].device
  {
  }

  lemma ExactStep(r: Registry, a: Step)
    requires Exact(r) && Enabled(r, a)
    ensures Exact(Next(r, a))
  {
    if a.Connect? {
      ExactAfterConnect(r, a.device);
    } else {
      var n := Next(r, a);
      forall i | 0 <= i < |n.streams|
        ensures Registered(n, i) <==> Newest(n, i) && Open(n, i) && i !in n.disconnected
        ensures Registered(n, i) ==> !n.streams[i].closed
      {
        ExactElsewhere(r, a, i);
      }
    }
  }

  lemma ExactElsewhere(r: Registry, a: Step, i: Sid)
    requires Exact(r) && Enabled(r, a) && !a.Connect? && i < |r.streams|
    ensures Registered(Next(r, a), i) <==> Newest(Next(r, a), i) && Open(Next(r, a), i) && i !in Next(r, a).disconnected
    ensures Registered(Next(r, a), i) ==> !Next(r, a).streams[i].closed
  {
    DevicesKept(r, a);
    NewestKept(r, Next(r, a), i);
    assert Registered(r, i) <==> Newest(r, i) && Open(r, i) && i !in r.disconnected;
  }

  lemma {:induction false} ExactAlways(r: Registry, run: seq<Step>)
    requires Exact(r) && IsRun(r, run)
    ensures Exact(After(r, run))
    decreases |run|
  {
    if run != [] {
      ExactStep(r, run[0]);
      ExactAlways(Next(r, run[0]), run[1..]);
    }
  }

  /** Session map invariant: in every reachable state a device has a registered session exactly
      when its latest stream is open and not disconnected, and that session is the latest one. */
  lemma {:induction false} OnlineMeansLatestStreamOpen(run: seq<Step>, d: Device)
    requires IsRun(EMPTY, run)
    ensures var r := After(EMPTY, run);
            && (Online(r, d) <==> exists i: Sid :: Newest(r, i) && r.streams[i].device == d && Open(r, i) && i !in r.disconnected)
            && (Online(r, d) ==> Newest(r, r.registered[d]) && r.streams[r.registered[d]].device == d && !r.streams[r.registered[d]].closed)
  {
    ExactAlways(EMPTY, run);
    var r := After(EMPTY, run);
    if Online(r, d) {
      assert Registered(r, r.registered[d]);
    }
    if i: Sid :| Newest(r, i) && r.streams[i].device == d && Open(r, i) && i !in r.disconnected {
      assert Registered(r, i);
    }
  }

  // ---- Which streams are closed ----

  /** A stream of the same device dials in while this one is registered. */
  predicate Supersedes(r: Registry, a: Step, i: Sid) {
    a.Connect? && Registered(r, i) && r.streams[i].device == a.device
  }

  predicate Superseded(r: Registry, run: seq<Step>, i: Sid)
    requires IsRun(r, run)
    decreases |run|
  {
    run != [] && (Supersedes(r, run[0], i) || Superseded(Next(r, run[0]), run[1..], i))
  }

  predicate Closed(r: Registry, i: Sid) {
    i < |r.streams| && r.streams[i].closed
  }

  lemma ClosedStep(r: Registry, a: Step, i: Sid)
    requires Exact(r) && Enabled(r, a)
    ensures Closed(Next(r, a), i) <==> Closed(r, i) || a == Close(i) || Supersedes(r, a, i)
  {
  }

  lemma {:induction false} ClosedAlong(r: Registry, run: seq<Step>, i: Sid)
    requires Exact(r) && IsRun(r, run)
    ensures Closed(After(r, run), i) <==> Closed(r, i) || Close(i) in run || Superseded(r, run, i)
    decreases |run|
  {
    if run != [] {
      ClosedStep(r, run[0], i);
      ExactStep(r, run[0]);
      ClosedAlong(Next(r, run[0]), run[1..], i);
      assert Close(i) in run <==> run[0] == Close(i) || Close(i) in run[1..];
    }
  }

  /** Exactly which tunnels are cut, for good: those of which a later stream of the device has taken the
      place, and those whose disconnect has come to its close. */
  lemma {:induction false} ClosedIff(run: seq<Step>, i: Sid)
    requires IsRun(EMPTY, run) && i < |After(EMPTY, run).streams|
    ensures After(EMPTY, run).streams[i].closed <==> Close(i) in run || Superseded(EMPTY, run, i)
  {
    ClosedAlong(EMPTY, run, i);
  }

  /** An open stream is registered, closed, or about to be closed by the disconnect that took it out. */
  predicate NoneForgotten(r: Registry) {
    forall i :: 0 <= i < |r.streams| && Open(r, i) && !Registered(r, i) && i !in r.disconnected ==> r.streams[i].closed
  }

  lemma NoneForgottenStep(r: Registry, a: Step)
    requires Exact(r) && NoneForgotten(r) && Enabled(r, a)
    ensures NoneForgotten(Next(r, a))
  {
    var n := Next(r, a);
    forall i | 0 <= i < |n.streams| && Open(n, i) && !Registered(n, i) && i !in n.disconnected ensures n.streams[i].closed {
      if i < |r.streams| {
        ClosedStep(r, a, i);
        assert Open(r, i) && i !in r.disconnected;
      }
    }
  }

  lemma {:induction false} NoneForgottenAlong(r: Registry, run: seq<Step>)
    requires Exact(r) && NoneForgotten(r) && IsRun(r, run)
    ensures NoneForgotten(After(r, run))
    decreases |run|
  {
    if run != [] {
      NoneForgottenStep(r, run[0]);
      ExactStep(r, run[0]);
      NoneForgottenAlong(Next(r, run[0]), run[1..]);
    }
  }

  /** No tunnel outlives its place in the map: in every run, a stream still in its loop is registered, or
      closed, or was taken out by a disconnect whose close is still to come. */
  lemma {:induction false} OpenStreamsAccounted(run: seq<Step>, i: Sid)
    requires IsRun(EMPTY, run) && Open(After(EMPTY, run), i)
    ensures var r := After(EMPTY, run);
            Registered(r, i) || r.streams[i].closed || (i in r.disconnected && Close(i) !in run)
  {
    NoneForgottenAlong(EMPTY, run);
    ClosedAlong(EMPTY, run, i);
  }

  // ---- The stored online flag ----

  /** The latest callback of a device comes from one of its streams: `true` from one that has not
      reported offline yet, `false` from one that has returned; and a stream that got past its
      first callback has left a record for its device. */
  predicate CallbacksTracked(r: Registry) {
    && (forall d :: d in r.lastCallback ==>
          var i := r.lastCallback[d].0;
          && i < |r.streams| && r.streams[i].device == d
          && (if r.lastCallback[d].1 then r.streams[i].phase == Serving || r.streams[i].phase == Exiting
              else r.streams[i].phase == Gone))
    && (forall i :: 0 <= i < |r.streams| && r.streams[i].phase != Opening ==> r.streams[i].device in r.lastCallback)
  }

  lemma CallbacksStep(r: Registry, a: Step)
    requires CallbacksTracked(r) && Enabled(r, a)
    ensures CallbacksTracked(Next(r, a))
  {
  }

  lemma {:induction false} CallbacksAlways(r: Registry, run: seq<Step>)
    requires CallbacksTracked(r) && IsRun(r, run)
    ensures CallbacksTracked(After(r, run))
    decreases |run|
  {
    if run != [] {
      CallbacksStep(r, run[0]);
      CallbacksAlways(Next(r, run[0]), run[1..]);
    }
  }

  /** Nothing is on its way for `d`: every stream of the device has returned, or is registered and
      in its loop. */
  predicate Quiet(r: Registry, d: Device) {
    forall i :: 0 <= i < |r.streams| && r.streams[i].device == d ==>
      r.streams[i].phase == Gone || (r.streams[i].phase == Serving && Registered(r, i))
  }

  // ---- Callbacks of a run ----

  lemma {:induction false} DevicesAlways(r: Registry, run: seq<Step>)
    requires IsRun(r, run)
    ensures |r.streams| <= |After(r, run).streams|
    ensures forall k :: 0 <= k < |r.streams| ==> After(r, run).streams[k].device == r.streams[k].device
    decreases |run|
  {
    if run != [] {
      DevicesKept(r, run[0]);
      DevicesAlways(Next(r, run[0]), run[1..]);
    }
  }

  /** The step is a callback of a stream of `d`, in a table that has all streams of the run. */
  predicate Calls(r: Registry, a: Step, d: Device) {
    (a.FireOnline? || a.FireOffline?) && a.sid < |r.streams| && r.streams[a.sid].device == d
  }

  lemma CallbackOf(r: Registry, a: Step, end: Registry, d: Device)
    requires Enabled(r, a) && |r.streams| <= |end.streams|
    requires forall k :: 0 <= k < |r.streams| ==> end.streams[k].device == r.streams[k].device
    ensures Calls(end, a, d) ==> d in Next(r, a).lastCallback && Next(r, a).lastCallback[d] == (a.sid, a.FireOnline?)
    ensures !Calls(end, a, d) ==> (d in Next(r, a).lastCallback <==> d in r.lastCallback)
    ensures !Calls(end, a, d) && d in r.lastCallback ==> Next(r, a).lastCallback[d] == r.lastCallback[d]
  {
  }

  lemma {:induction false} NoCallback(r: Registry, run: seq<Step>, d: Device)
    requires IsRun(r, run) && forall k :: 0 <= k < |run| ==> !Calls(After(r, run), run[k], d)
    ensures d in After(r, run).lastCallback <==> d in r.lastCallback
    ensures d in r.lastCallback ==> After(r, run).lastCallback[d] == r.lastCallback[d]
    decreases |run|
  {
    if run != [] {
      DevicesAlways(r, run);
      CallbackOf(r, run[0], After(r, run), d);
      NoCallback(Next(r, run[0]), run[1..], d);
    }
  }

  /** The last callback of a run is the one the store holds. */
  lemma {:induction false} LastCallback(r: Registry, run: seq<Step>, d: Device, n: nat)
    requires IsRun(r, run) && n < |run| && Calls(After(r, run), run[n], d)
    requires forall k :: n < k < |run| ==> !Calls(After(r, run), run[k], d)
    ensures d in After(r, run).lastCallback && After(r, run).lastCallback[d] == (run[n].sid, run[n].FireOnline?)
    decreases |run|
  {
    var rest := run[1..];
    if n == 0 {
      DevicesAlways(r, run);
      CallbackOf(r, run[0], After(r, run), d);
      NoCallback(Next(r, run[0]), rest, d);
    } else {
      assert rest[n - 1] == run[n];
      LastCallback(Next(r, run[0]), rest, d, n - 1);
    }
  }

  /** A run with a callback of `d` at `m` has a last one, no earlier. */
  lemma {:induction false} FindLast(r: Registry, run: seq<Step>, d: Device, m: nat) returns (n: nat)
    requires m < |run| && Calls(r, run[m], d)
    ensures m <= n < |run| && Calls(r, run[n], d) && forall k :: n < k < |run| ==> !Calls(r, run[k], d)
    decreases |run| - m
  {
    n := m;
    if k :| m < k < |run| && Calls(r, run[k], d) {
      n := FindLast(r, run, d, k);
    }
  }

  /** A stream greets once. */
  lemma {:induction false} NeverGreetsAgain(r: Registry, run: seq<Step>, i: Sid, k: nat)
    requires IsRun(r, run) && i < |r.streams| && r.streams[i].phase != Opening && k < |run|
    ensures run[k] != FireOnline(i)
    decreases |run|
  {
    if k > 0 {
      NeverGreetsAgain(Next(r, run[0]), run[1..], i, k - 1);
    }
  }

  lemma {:induction false} GreetsOnce(r: Registry, run: seq<Step>, i: Sid, m: nat, n: nat)
    requires IsRun(r, run) && m < n < |run| && run[m] == FireOnline(i)
    ensures run[n] != FireOnline(i)
    decreases |run|
  {
    if m == 0 {
      NeverGreetsAgain(Next(r, run[0]), run[1..], i, n - 1);
    } else {
      GreetsOnce(Next(r, run[0]), run[1..], i, m - 1, n - 1);
    }
  }

  /** A stream in its loop has greeted. */
  lemma {:induction false} ServingHasGreeted(r: Registry, run: seq<Step>, i: Sid) returns (m: nat)
    requires IsRun(r, run) && i < |After(r, run).streams| && After(r, run).streams[i].phase == Serving
    requires i < |r.streams| ==> r.streams[i].phase == Opening
    ensures m < |run| && run[m] == FireOnline(i)
    decreases |run|
  {
    if run[0] == FireOnline(i) {
      return 0;
    }
    m := ServingHasGreeted(Next(r, run[0]), run[1..], i);
    m := m + 1;
  }

  /** In the run, an older stream of the device says farewell after the registered one has greeted. */
  ghost predicate LateFarewell(run: seq<Step>, r: Registry, d: Device) {
    d in r.registered
    && exists m, n :: 0 <= m < n < |run| && run[m] == FireOnline(r.registered[d])
                      && run[n].FireOffline? && Calls(r, run[n], d) && run[n].sid < r.registered[d]
  }

  lemma {:induction false} FarewellHides(run: seq<Step>, d: Device)
    requires IsRun(EMPTY, run) && Quiet(After(EMPTY, run), d) && LateFarewell(run, After(EMPTY, run), d)
    ensures !StoredOnline(After(EMPTY, run), d)
  {
    var r := After(EMPTY, run);
    CallbacksAlways(EMPTY, run);
    var m, n :| 0 <= m < n < |run| && run[m] == FireOnline(r.registered[d])
                && run[n].FireOffline? && Calls(r, run[n], d) && run[n].sid < r.registered[d];
    var last := FindLast(r, run, d, n);
    LastCallback(EMPTY, run, d, last);
    GreetsOnce(EMPTY, run, r.registered[d], m, last);
  }

  lemma {:induction false} HiddenByFarewell(run: seq<Step>, d: Device)
    requires IsRun(EMPTY, run) && Quiet(After(EMPTY, run), d)
    requires Online(After(EMPTY, run), d) && !StoredOnline(After(EMPTY, run), d)
    ensures LateFarewell(run, After(EMPTY, run), d)
  {
    var r := After(EMPTY, run);
    ExactAlways(EMPTY, run);
    CallbacksAlways(EMPTY, run);
    var i := r.registered[d];
    assert Registered(r, i);
    var m := ServingHasGreeted(EMPTY, run, i);
    var last := FindLast(r, run, d, m);
    LastCallback(EMPTY, run, d, last);
    assert run[last].FireOffline? && r.streams[run[last].sid].phase == Gone;
    assert Newest(r, i);
  }

  /** Exactly when the stored flag is right at quiescence: unless, in the run, an older stream of the
      device said farewell after the registered one had greeted. */
  lemma {:induction false} StoredFlagAtQuiescence(run: seq<Step>, d: Device)
    requires IsRun(EMPTY, run) && Quiet(After(EMPTY, run), d)
    ensures StoredOnline(After(EMPTY, run), d) == Online(After(EMPTY, run), d) <==> !LateFarewell(run, After(EMPTY, run), d)
  {
    var r := After(EMPTY, run);
    if LateFarewell(run, r, d) {
      FarewellHides(run, d);
    } else if Online(r, d) && !StoredOnline(r, d) {
      HiddenByFarewell(run, d);
    } else if StoredOnline(r, d) {
      CallbacksAlways(EMPTY, run);
      assert Registered(r, r.lastCallback[d].0);
    }
  }

  /** The streams of `d` do not overlap in `run`: a runner dials in only after its earlier handlers
      have returned. */
  predicate NoOverlap(r: Registry, run: seq<Step>, d: Device)
    requires IsRun(r, run)
    decreases |run|
  {
    run != [] ==>
      && (run[0] == Connect(d) ==> AllGone(r, d))
      && NoOverlap(Next(r, run[0]), run[1..], d)
  }

  predicate AllGone(r: Registry, d: Device) {
    forall i :: 0 <= i < |r.streams| && r.streams[i].device == d ==> r.streams[i].phase == Gone
  }

  /** Without overlap at most one stream of the device is alive, and once it has reported online
      its report stays the latest. */
  predicate Alone(r: Registry, d: Device) {
    && (forall i, j :: 0 <= i < j < |r.streams| && r.streams[i].device == d && r.streams[j].device == d ==>
          r.streams[i].phase == Gone)
    && (forall i :: 0 <= i < |r.streams| && r.streams[i].device == d
                    && (r.streams[i].phase == Serving || r.streams[i].phase == Exiting) ==>
          d in r.lastCallback && r.lastCallback[d] == (i, true))
  }

  lemma {:induction false} AloneAlways(r: Registry, run: seq<Step>, d: Device)
    requires Exact(r) && Alone(r, d) && IsRun(r, run) && NoOverlap(r, run, d)
    ensures Alone(After(r, run), d)
    decreases |run|
  {
    if run != [] {
      AloneStep(r, run[0], d);
      ExactStep(r, run[0]);
      AloneAlways(Next(r, run[0]), run[1..], d);
    }
  }

  lemma AloneStep(r: Registry, a: Step, d: Device)
    requires Exact(r) && Alone(r, d) && Enabled(r, a)
    requires a == Connect(d) ==> AllGone(r, d)
    ensures Alone(Next(r, a), d)
  {
  }

  /** When a device's streams never overlap, the stored flag equals `Online` at quiescence. */
  lemma {:induction false} StoredFlagWithoutOverlap(run: seq<Step>, d: Device)
    requires IsRun(EMPTY, run) && NoOverlap(EMPTY, run, d)
    requires Quiet(After(EMPTY, run), d)
    ensures StoredOnline(After(EMPTY, run), d) == Online(After(EMPTY, run), d)
  {
    ExactAlways(EMPTY, run);
    AloneAlways(EMPTY, run, d);
    StoredFlagAtQuiescence(run, d);
    var r := After(EMPTY, run);
    if d in r.registered {
      assert Registered(r, r.registered[d]);
    }
  }

  /** A superseded stream's farewell leaves a connected device stored as offline. */
  lemma SupersededStreamHidesSuccessor(d: Device)
    ensures var run := [Connect(d), FireOnline(0), Connect(d), FireOnline(1), Exit(0), FireOffline(0)];
            && IsRun(EMPTY, run)
            && Quiet(After(EMPTY, run), d)
            && Online(After(EMPTY, run), d) && !StoredOnline(After(EMPTY, run), d)
  {
    var r1 := Next(EMPTY, Connect(d));
    var r2 := Next(r1, FireOnline(0));
    var r3 := Next(r2, Connect(d));
    var r4 := Next(r3, FireOnline(1));
    var r5 := Next(r4, Exit(0));
    var r6 := Next(r5, FireOffline(0));
    assert r6.streams == [Stream(d, Gone, true), Stream(d, Serving, false)];
    RunFrom(r5, FireOffline(0), []);
    RunFrom(r4, Exit(0), [FireOffline(0)]);
    RunFrom(r3, FireOnline(1), [Exit(0), FireOffline(0)]);
    RunFrom(r2, Connect(d), [FireOnline(1), Exit(0), FireOffline(0)]);
    RunFrom(r1, FireOnline(0), [Connect(d), FireOnline(1), Exit(0), FireOffline(0)]);
    RunFrom(EMPTY, Connect(d), [FireOnline(0), Connect(d), FireOnline(1), Exit(0), FireOffline(0)]);
  }

  /** The hub object. Each method is one lock region, or one callback, and takes the table through
      the step of the same name. */
  class Hub {
    var streams: seq<Stream>
    var registered: map<Device, Sid>
    ghost var disconnected: set<Sid>
    var lastCallback: map<Device, (Sid, bool)>

    ghost function View(): Registry
      reads this
    {
      Registry(streams, registered, disconnected, lastCallback)
    }

    ghost predicate Valid()
      reads this
    {
      Exact(View()) && CallbacksTracked(View())
    }

    constructor ()
      ensures Valid() && View() == EMPTY
    {
      streams, registered, disconnected, lastCallback := [], map[], {}, map[];
    }

    method Register(d: Device) returns (sid: Sid)
      requires Valid()
      modifies this
      ensures Valid() && View() == Next(old(View()), Connect(d))
      ensures sid < |streams| && registered[d] == sid && Newest(View(), sid) && !streams[sid].closed
      ensures d in old(registered) ==> old(registered[d]) < sid && streams[old(registered[d])].closed
    {
      ghost var was := View();
      sid := |streams|;
      if d in registered {
        var prev := registered[d];
        streams := streams[prev := streams[prev].(closed := true)];
      }
      streams := streams + [Stream(d, Opening, false)];
      registered := registered[d := sid];
      ExactStep(was, Connect(d));
      CallbacksStep(was, Connect(d));
      assert Registered(View(), sid);
    }

    method Deregister(sid: Sid)
      requires Valid() && Enabled(View(), Exit(sid))
      modifies this
      ensures Valid() && View() == Next(old(View()), Exit(sid))
      ensures forall j :: 0 <= j < |streams| && j != sid && Registered(old(View()), j) ==> Registered(View(), j)
    {
      ghost var was := View();
      var d := streams[sid].device;
      if d in registered && registered[d] == sid {
        registered := registered - {d};
      }
      streams := streams[sid := streams[sid].(phase := Exiting)];
      ExactStep(was, Exit(sid));
      CallbacksStep(was, Exit(sid));
    }

    method Report(sid: Sid, online: bool)
      requires Valid() && Enabled(View(), if online then FireOnline(sid) else FireOffline(sid))
      modifies this
      ensures Valid() && View() == Next(old(View()), if online then FireOnline(sid) else FireOffline(sid))
    {
      ghost var was := View();
      ghost var step := if online then FireOnline(sid) else FireOffline(sid);
      lastCallback := lastCallback[streams[sid].device := (sid, online)];
      streams := streams[sid := streams[sid].(phase := if online then Serving else Gone)];
      ExactStep(was, step);
      CallbacksStep(was, step);
    }

    /** Drop a device's session, if one is registered, and say whether there was one. The close
        comes after the lock is released; no other step looks at the closed mark of a stream that
        is out of the map. */
    method Drop(d: Device) returns (dropped: bool)
      requires Valid()
      modifies this
      ensures Valid() && !Online(View(), d)
      ensures dropped == Online(old(View()), d)
      ensures dropped ==> old(registered[d]) < |streams| && streams[old(registered[d])].closed
      ensures var mid := Next(old(View()), Disconnect(d));
              View() == if dropped then Next(mid, Close(old(registered[d]))) else mid
    {
      ghost var was := View();
      dropped := d in registered;
      ExactStep(was, Disconnect(d));
      CallbacksStep(was, Disconnect(d));
      if dropped {
        var sid := registered[d];
        registered := registered - {d};
        disconnected := disconnected + {sid};
        ghost var mid := View();
        streams := streams[sid := streams[sid].(closed := true)];
        ExactStep(mid, Close(sid));
        CallbacksStep(mid, Close(sid));
      }
    }
  }
}
