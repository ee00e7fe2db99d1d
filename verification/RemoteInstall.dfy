/** Installing a build over the tunnel: the two calls of the appliance, the tunnel that carries them,
    and the runner that answers. A run interleaves any number of devices, calls, redials, installers
    and restarts of runners. */
module RemoteInstall {
  import opened Wrappers
  import R = RunnerRegistry
  import T = Tunnel
  import I = Install

  const INSTALL := "install_app"
  const STATUS := "install_status"
  const DONE := "done"

  /** The tunnel, and what each device's runner keeps. */
  datatype State = State(tunnel: T.State, runners: map<R.Device, I.State>)

  /** A step of the tunnel, or something the runner of a device does by itself. */
  datatype Action = OverTunnel(step: T.Action) | AtRunner(device: R.Device, act: I.Action)

  const INITIAL := State(T.INITIAL, map[])

  function RunnerOf(s: State, d: R.Device): I.State {
    if d in s.runners then s.runners[d] else I.IDLE
  }

  /** How a status is written in a reply; details are left out. */
  function Shown(st: I.Status): string {
    match st
    case Unknown => "unknown"
    case Installing => "installing"
    case Done => DONE
    case Failed(_) => "error"
  }

  /** How the appliance reads it back. */
  function Read(result: string): I.Status {
    if result == DONE then I.Done
    else if result == "error" then I.Failed("")
    else if result == "installing" then I.Installing
    else I.Unknown
  }

  /** What the runner answers: to the two install commands as the controller does, to any other
      something that does not read as done. */
  predicate Answers(runner: I.State, cmd: T.Command, reply: T.Reply) {
    if cmd.verb == STATUS then reply == T.Reply(Shown(I.StatusOf(runner.installs, cmd.params)), "")
    else if cmd.verb == INSTALL then
      if cmd.params == "" then reply.error != "" else reply == T.Reply("installing", "")
    else reply.result != DONE
  }

  predicate Enabled(s: State, a: Action) {
    if a.OverTunnel? then
      && T.Enabled(s.tunnel, a.step)
      && (a.step.Handle? ==> Answers(RunnerOf(s, s.tunnel.hub.streams[a.step.sid].device), s.tunnel.pipes[a.step.sid].tasks[a.step.task], a.step.reply))
    else !a.act.InstallApp? && I.Enabled(RunnerOf(s, a.device), a.act)
  }

  /** The runner after it has handled a command. */
  function RunnerAfter(runner: I.State, cmd: T.Command): I.State {
    if cmd.verb == INSTALL && cmd.params != "" then I.Requested(runner, cmd.params) else runner
  }

  function Next(s: State, a: Action): State
    requires Enabled(s, a)
  {
    if a.AtRunner? then s.(runners := s.runners[a.device := I.Apply(RunnerOf(s, a.device), a.act)])
    else
      var t := T.Next(s.tunnel, a.step);
      if a.step.Handle? then
        var d := s.tunnel.hub.streams[a.step.sid].device;
        State(t, s.runners[d := RunnerAfter(RunnerOf(s, d), s.tunnel.pipes[a.step.sid].tasks[a.step.task])])
      else s.(tunnel := t)
  }

  predicate IsRun(s: State, run: seq<Action>)
    decreases |run|
  {
    run == [] || (Enabled(s, run[0]) && IsRun(Next(s, run[0]), run[1..]))
  }

  function After(s: State, run: seq<Action>): State
    requires IsRun(s, run)
    decreases |run|
  {
    if run == [] then s else After(Next(s, run[0]), run[1..])
  }

  /** The tunnel's part of a run. */
  function Steps(run: seq<Action>): seq<T.Action> {
    if run == [] then [] else (if run[0].OverTunnel? then [run[0].step] else []) + Steps(run[1..])
  }

  lemma {:induction false} TunnelRuns(s: State, run: seq<Action>)
    requires IsRun(s, run)
    ensures T.IsRun(s.tunnel, Steps(run)) && T.After(s.tunnel, Steps(run)) == After(s, run).tunnel
    decreases |run|
  {
    if run != [] {
      TunnelRuns(Next(s, run[0]), run[1..]);
      if run[0].OverTunnel? {
        assert Steps(run)[1..] == Steps(run[1..]);
      } else {
        assert Steps(run) == Steps(run[1..]);
      }
    }
  }

  // ---- A runner that says done has installed ----

  /** What the `k`-th handled command of session `i` says about its build. */
  predicate AnswerOk(s: State, i: nat, k: nat) {
    i < |s.tunnel.pipes| && i < |s.tunnel.hub.streams| && k < |s.tunnel.pipes[i].executed| && k < |s.tunnel.pipes[i].replies|
    && s.tunnel.pipes[i].replies[k] == T.Reply(DONE, "") ==>
      && s.tunnel.pipes[i].executed[k].verb == STATUS
      && s.tunnel.pipes[i].executed[k].params in RunnerOf(s, s.tunnel.hub.streams[i].device).succeeded
  }

  ghost predicate Honest(s: State) {
    && (forall d: R.Device :: I.Inv(RunnerOf(s, d)))
    && (forall i: nat, k: nat :: AnswerOk(s, i, k))
    && |s.tunnel.pipes| == |s.tunnel.hub.streams|
    && forall i :: 0 <= i < |s.tunnel.pipes| ==> |s.tunnel.pipes[i].executed| == |s.tunnel.pipes[i].replies|
  }

  lemma RunnerStays(s: State, a: Action, d: R.Device)
    requires Enabled(s, a) && I.Inv(RunnerOf(s, d))
    ensures I.Inv(RunnerOf(Next(s, a), d)) && RunnerOf(s, d).succeeded <= RunnerOf(Next(s, a), d).succeeded
  {
    if a.AtRunner? && a.device == d {
      I.StepKeeps(RunnerOf(s, d), a.act);
    } else if a.OverTunnel? && a.step.Handle? {
      var cmd := s.tunnel.pipes[a.step.sid].tasks[a.step.task];
      I.RequestKeeps(RunnerOf(s, d), cmd.params);
    }
  }

  /** The tunnel keeps handled commands and the devices of streams; handling adds one at the end. */
  lemma PipesGrow(t: T.State, a: T.Action, i: nat)
    requires T.Enabled(t, a)
    ensures var n := T.Next(t, a);
            && |t.hub.streams| <= |n.hub.streams| && |n.pipes| - |t.pipes| == |n.hub.streams| - |t.hub.streams|
            && (i < |t.hub.streams| ==> n.hub.streams[i].device == t.hub.streams[i].device)
            && (i < |t.pipes| && !(a.Handle? && a.sid == i) ==> n.pipes[i].executed == t.pipes[i].executed && n.pipes[i].replies == t.pipes[i].replies)
            && (|t.pipes| <= i < |n.pipes| ==> n.pipes[i].executed == [] && n.pipes[i].replies == [])
  {
    if a.HubStep? {
      R.DevicesKept(t.hub, a.step);
    }
  }

  lemma DoneIsHonest(runner: I.State, cmd: T.Command, reply: T.Reply)
    requires I.Inv(runner) && Answers(runner, cmd, reply) && reply == T.Reply(DONE, "")
    ensures cmd.verb == STATUS && cmd.params in runner.succeeded
  {
    ShownDone(I.StatusOf(runner.installs, cmd.params));
    if cmd.verb == STATUS {
      I.DoneMeansInstalled(runner, cmd.params);
    }
  }

  lemma ShownDone(st: I.Status)
    ensures Shown(st) == DONE <==> st == I.Done
  {
    assert "unknown"[0] != 'd' && "installing"[0] != 'd' && "error"[0] != 'd' && DONE[0] == 'd';
  }

  lemma AnswersStay(s: State, a: Action, i: nat, k: nat)
    requires Honest(s) && Enabled(s, a)
    ensures AnswerOk(Next(s, a), i, k)
  {
    assert AnswerOk(s, i, k);
    if i < |s.tunnel.hub.streams| {
      RunnerStays(s, a, s.tunnel.hub.streams[i].device);
    }
    if a.OverTunnel? {
      PipesGrow(s.tunnel, a.step, i);
      if a.step.Handle? && a.step.sid == i {
        HandledIsHonest(s, a, k);
      }
    }
  }

  lemma HandledIsHonest(s: State, a: Action, k: nat)
    requires Honest(s) && Enabled(s, a) && a.OverTunnel? && a.step.Handle? && AnswerOk(s, a.step.sid, k)
    ensures AnswerOk(Next(s, a), a.step.sid, k)
  {
    var i := a.step.sid;
    var p, d, cmd := s.tunnel.pipes[i], s.tunnel.hub.streams[i].device, s.tunnel.pipes[i].tasks[a.step.task];
    RunnerStays(s, a, d);
    var n := Next(s, a).tunnel.pipes[i];
    assert n.executed == p.executed + [cmd] && n.replies == p.replies + [a.step.reply];
    if k == |p.executed| && a.step.reply == T.Reply(DONE, "") {
      DoneIsHonest(RunnerOf(s, d), cmd, a.step.reply);
    }
  }

  lemma {:induction false} HonestAlways(s: State, run: seq<Action>)
    requires Honest(s) && IsRun(s, run)
    ensures Honest(After(s, run))
    decreases |run|
  {
    if run != [] {
      HonestStep(s, run[0]);
      HonestAlways(Next(s, run[0]), run[1..]);
    }
  }

  lemma HonestStep(s: State, a: Action)
    requires Honest(s) && Enabled(s, a)
    ensures Honest(Next(s, a))
  {
    var n := Next(s, a);
    forall d: R.Device ensures I.Inv(RunnerOf(n, d)) {
      RunnerStays(s, a, d);
    }
    forall i: nat, k: nat ensures AnswerOk(n, i, k) {
      AnswersStay(s, a, i, k);
    }
    if a.OverTunnel? {
      PipesGrow(s.tunnel, a.step, 0);
    }
    forall i | 0 <= i < |n.tunnel.pipes| ensures |n.tunnel.pipes[i].executed| == |n.tunnel.pipes[i].replies| {
      if a.OverTunnel? {
        PipesGrow(s.tunnel, a.step, i);
      }
    }
  }

  // ---- What a done means ----

  /** Call `c` polled for a build, and was told that it is done. */
  predicate ToldDone(t: T.State, c: T.Cid) {
    c < |t.calls| && t.calls[c].verb == STATUS && t.calls[c].outcome == T.Value(DONE)
  }

  lemma HandledDone(s: State, i: T.Sid, cmd: T.Command)
    requires Honest(s) && i < |s.tunnel.pipes| && i < |s.tunnel.hub.streams|
    requires T.HandledOnce(s.tunnel.pipes[i], cmd, T.Reply(DONE, ""))
    ensures cmd.verb == STATUS && cmd.params in RunnerOf(s, s.tunnel.hub.streams[i].device).succeeded
  {
    var p := s.tunnel.pipes[i];
    var k :| 0 <= k < |p.executed| && k < |p.replies| && p.executed[k] == cmd && p.replies[k] == T.Reply(DONE, "");
    assert AnswerOk(s, i, k);
  }

  /** Where a `done` comes from, in every run: either the build the call asked about was installed on
      that device, or the reply came from an earlier session of the device and answered another call
      of the same number, which asked about a build that was. */
  lemma {:induction false} DoneCameFrom(run: seq<Action>, c: T.Cid)
    requires IsRun(INITIAL, run) && ToldDone(After(INITIAL, run).tunnel, c)
    ensures var s := After(INITIAL, run);
            var t, call := s.tunnel, s.tunnel.calls[c];
            && call.taken.Some? && call.taken.value < |t.posts|
            && var p := t.posts[call.taken.value];
               && (p.origin == call.sid ==> call.params in RunnerOf(s, call.device).succeeded)
               && (p.origin != call.sid ==>
                     p.origin < call.sid
                     && exists e :: 0 <= e < |t.calls| && e != c && t.calls[e].sid == p.origin && t.calls[e].id == call.id
                                    && t.calls[e].device == call.device && t.calls[e].verb == STATUS
                                    && t.calls[e].params in RunnerOf(s, call.device).succeeded)
  {
    TunnelRuns(INITIAL, run);
    HonestAlways(INITIAL, run);
    T.InvAlways(T.INITIAL, Steps(run));
    T.Correlation(Steps(run), c);
    T.Provenance(Steps(run), c);
    var s := After(INITIAL, run);
    var t, call := s.tunnel, s.tunnel.calls[c];
    var p := t.posts[call.taken.value];
    assert T.PostOk(t, call.taken.value);
    if p.origin == call.sid {
      HandledDone(s, call.sid, T.CommandOf(call));
    } else {
      var e :| 0 <= e < |t.calls| && e != c && t.calls[e].sid == p.origin && t.calls[e].id == call.id
               && t.calls[e].device == call.device && T.HandledOnce(t.pipes[p.origin], T.CommandOf(t.calls[e]), p.reply);
      HandledDone(s, p.origin, T.CommandOf(t.calls[e]));
    }
  }

  /** The appliance's view of a poll. */
  function ReplyOf(call: T.Call): I.Reply {
    if call.outcome.Value? then I.Reply(Read(call.outcome.result)) else I.CallFailed
  }

  /** `InstallDesktopBuild` for build `b` on device `d`, with the polls it made, returns without an
      error. */
  predicate ReturnsNil(t: T.State, d: R.Device, b: I.Build, polls: seq<T.Cid>) {
    && (forall i :: 0 <= i < |polls| ==>
          polls[i] < |t.calls| && t.calls[polls[i]].verb == STATUS && t.calls[polls[i]].params == b && t.calls[polls[i]].device == d)
    && I.EndsDone(seq(|polls|, i requires 0 <= i < |polls| && polls[i] < |t.calls| => ReplyOf(t.calls[polls[i]])))
  }

  lemma NilWasToldDone(t: T.State, d: R.Device, b: I.Build, polls: seq<T.Cid>) returns (c: T.Cid)
    requires ReturnsNil(t, d, b, polls)
    ensures ToldDone(t, c) && t.calls[c].params == b && t.calls[c].device == d
  {
    var replies := seq(|polls|, i requires 0 <= i < |polls| && polls[i] < |t.calls| => ReplyOf(t.calls[polls[i]]));
    var i :| 0 <= i < |replies| && replies[i] == I.Reply(I.Done);
    c := polls[i];
  }

  /** No reply outlives its session. */
  ghost predicate Punctual(run: seq<Action>)
    requires IsRun(INITIAL, run)
  {
    TunnelRuns(INITIAL, run);
    T.NoReplyOutlives(T.INITIAL, Steps(run))
  }

  /** If no reply outlives its session, then `InstallDesktopBuild` returning without an error means
      that the installer of that build has returned without one on that device, through any number of
      redials and restarts. */
  lemma {:induction false} NilMeansInstalled(run: seq<Action>, d: R.Device, b: I.Build, polls: seq<T.Cid>)
    requires IsRun(INITIAL, run) && Punctual(run)
    requires ReturnsNil(After(INITIAL, run).tunnel, d, b, polls)
    ensures b in RunnerOf(After(INITIAL, run), d).succeeded
  {
    TunnelRuns(INITIAL, run);
    var s := After(INITIAL, run);
    var c := NilWasToldDone(s.tunnel, d, b, polls);
    DoneCameFrom(run, c);
    T.InvAlways(T.INITIAL, Steps(run));
    T.PostHomeAlways(T.INITIAL, Steps(run));
    assert T.ChannelOk(s.tunnel.calls, s.tunnel.posts, c);
    assert T.PostHome(s.tunnel, s.tunnel.calls[c].taken.value);
  }

  // ---- What is said over the tunnel ----

  /** The four words of a status, and that the appliance reads each back as it was meant, but for the
      detail of a failure. Only these four come from a runner. */
  lemma StatusWords(st: I.Status)
    ensures (st == I.Unknown <==> Shown(st) == "unknown") && (st == I.Installing <==> Shown(st) == "installing")
    ensures (st == I.Done <==> Shown(st) == "done") && (st.Failed? <==> Shown(st) == "error")
    ensures if st.Failed? then Read(Shown(st)).Failed? else Read(Shown(st)) == st
  {
    assert "unknown"[0] == 'u' && "installing"[0] == 'i' && "error"[0] == 'e' && "done"[0] == 'd';
  }

  /** What the runner answers to the two commands. */
  lemma CommandWords(runner: I.State, cmd: T.Command, reply: T.Reply)
    requires Answers(runner, cmd, reply)
    ensures cmd.verb == "install_status" ==> reply == T.Reply(Shown(I.StatusOf(runner.installs, cmd.params)), "")
    ensures cmd.verb == "install_app" && cmd.params != "" ==> reply == T.Reply("installing", "")
    ensures cmd.verb == "install_app" && cmd.params == "" ==> reply.error != ""
    ensures cmd.verb != "install_status" && reply.error == "" ==> reply.result != "done"
  {
    assert "install_status"[8] == 's' && "install_app"[8] == 'a';
    assert "installing"[0] == 'i' && "done"[0] == 'd';
  }

  /** Any other command may be answered with anything that does not read as done. */
  lemma OtherCommands(runner: I.State, cmd: T.Command, reply: T.Reply)
    requires cmd.verb != "install_status" && cmd.verb != "install_app"
    ensures Answers(runner, cmd, reply) <==> reply.result != "done"
  {
  }

  // ---- Where an install comes from ----

  /** A request to install the build was handled on a stream of the device. */
  predicate AskedAt(t: T.State, d: R.Device, b: I.Build, i: nat, k: nat) {
    && i < |t.pipes| && i < |t.hub.streams| && t.hub.streams[i].device == d
    && k < |t.pipes[i].executed| && t.pipes[i].executed[k].verb == "install_app" && t.pipes[i].executed[k].params == b
  }

  ghost predicate WasAsked(t: T.State, d: R.Device, b: I.Build) {
    exists i: nat, k: nat :: AskedAt(t, d, b, i, k)
  }

  ghost predicate KnownOk(s: State, d: R.Device, b: I.Build) {
    b in RunnerOf(s, d).installs ==> b != "" && WasAsked(s.tunnel, d, b)
  }

  lemma AskedStays(t: T.State, a: T.Action, d: R.Device, b: I.Build)
    requires T.Enabled(t, a) && WasAsked(t, d, b)
    ensures WasAsked(T.Next(t, a), d, b)
  {
    var i: nat, k: nat :| AskedAt(t, d, b, i, k);
    PipesGrow(t, a, i);
    if a.Handle? && a.sid == i {
      assert T.Next(t, a).pipes[i].executed == t.pipes[i].executed + [t.pipes[i].tasks[a.task]];
    }
    assert AskedAt(T.Next(t, a), d, b, i, k);
  }

  lemma HandlingAsks(t: T.State, a: T.Action)
    requires T.Enabled(t, a) && a.Handle? && t.pipes[a.sid].tasks[a.task].verb == "install_app"
    ensures WasAsked(T.Next(t, a), t.hub.streams[a.sid].device, t.pipes[a.sid].tasks[a.task].params)
  {
    var i, k := a.sid, |t.pipes[a.sid].executed|;
    assert T.Next(t, a).pipes[i].executed == t.pipes[i].executed + [t.pipes[i].tasks[a.task]];
    assert AskedAt(T.Next(t, a), t.hub.streams[i].device, t.pipes[i].tasks[a.task].params, i, k);
  }

  lemma KnownStep(s: State, a: Action, d: R.Device, b: I.Build)
    requires KnownOk(s, d, b) && Enabled(s, a)
    ensures KnownOk(Next(s, a), d, b)
  {
    if a.OverTunnel? {
      if b in RunnerOf(s, d).installs {
        AskedStays(s.tunnel, a.step, d, b);
      } else if a.step.Handle? && s.tunnel.pipes[a.step.sid].tasks[a.step.task].verb == "install_app" {
        HandlingAsks(s.tunnel, a.step);
      }
    }
  }

  lemma {:induction false} KnownAlong(s: State, run: seq<Action>, d: R.Device, b: I.Build)
    requires KnownOk(s, d, b) && IsRun(s, run)
    ensures KnownOk(After(s, run), d, b)
    decreases |run|
  {
    if run != [] {
      KnownStep(s, run[0], d, b);
      KnownAlong(Next(s, run[0]), run[1..], d, b);
    }
  }

  /** In every run, a runner knows a build only because a request to install it, by name, was handled on a
      stream of that device; nothing else makes it install anything. */
  lemma {:induction false} KnownWasRequested(run: seq<Action>, d: R.Device, b: I.Build)
    requires IsRun(INITIAL, run)
    ensures var s := After(INITIAL, run);
            I.StatusOf(RunnerOf(s, d).installs, b) != I.Unknown ==> b != "" && WasAsked(s.tunnel, d, b)
  {
    KnownAlong(INITIAL, run, d, b);
  }

  // ---- A run in which it is not so ----

  ghost predicate Reaches(s: State, run: seq<Action>, n: State) {
    IsRun(s, run) && After(s, run) == n
  }

  lemma {:induction false} ReachesNext(s: State, run: seq<Action>, n: State, a: Action)
    requires Reaches(s, run, n) && Enabled(n, a)
    ensures Reaches(s, run + [a], Next(n, a))
    decreases |run|
  {
    if run == [] {
      assert (run + [a])[1..] == [];
    } else {
      assert (run + [a])[1..] == run[1..] + [a];
      ReachesNext(Next(s, run[0]), run[1..], n, a);
    }
  }

  lemma {:induction false} Over(run: seq<Action>, mid: State, step: T.Action) returns (more: seq<Action>, s: State)
    requires Reaches(INITIAL, run, mid) && Enabled(mid, OverTunnel(step)) && !step.Handle?
    ensures Reaches(INITIAL, more, s) && s == mid.(tunnel := T.Next(mid.tunnel, step))
  {
    ReachesNext(INITIAL, run, mid, OverTunnel(step));
    more, s := run + [OverTunnel(step)], Next(mid, OverTunnel(step));
  }

  const NO_LEDGER := T.Ledger([], map[])
  const NO_PIPE := T.Pipe([], [], [], [], [])

  /** The runner of a device dials in, and its stream is up. */
  lemma {:induction false} Dial(run: seq<Action>, mid: State, d: R.Device) returns (more: seq<Action>, s: State)
    requires Reaches(INITIAL, run, mid)
    ensures Reaches(INITIAL, more, s) && s.runners == mid.runners
    ensures var i := |mid.tunnel.hub.streams|;
            && |s.tunnel.hub.streams| == i + 1 && s.tunnel.hub.streams[i].device == d && s.tunnel.hub.streams[i].phase == R.Serving
            && s.tunnel.hub.registered == mid.tunnel.hub.registered[d := i]
            && s.tunnel.ledgers == mid.tunnel.ledgers + [NO_LEDGER] && s.tunnel.pipes == mid.tunnel.pipes + [NO_PIPE]
            && s.tunnel.calls == mid.tunnel.calls && s.tunnel.posts == mid.tunnel.posts
  {
    var i := |mid.tunnel.hub.streams|;
    more, s := Over(run, mid, T.HubStep(R.Connect(d)));
    more, s := Over(more, s, T.HubStep(R.FireOnline(i)));
  }

  /** A call that has been put into the outbox of session `i`. */
  predicate IsAsked(call: T.Call, d: R.Device, verb: string, params: string, i: T.Sid, id: nat) {
    && call.device == d && call.verb == verb && call.params == params && call.phase == T.Waiting
    && call.sid == i && call.id == id && call.channel == None && call.outcome == T.Undecided
  }

  lemma {:induction false} Ask(run: seq<Action>, mid: State, d: R.Device, i: T.Sid, verb: string, params: string) returns (more: seq<Action>, s: State)
    requires Reaches(INITIAL, run, mid) && i < |mid.tunnel.ledgers| && i < |mid.tunnel.pipes| && mid.tunnel.pipes[i].outbox == []
    requires d in mid.tunnel.hub.registered && mid.tunnel.hub.registered[d] == i
    ensures Reaches(INITIAL, more, s) && s.runners == mid.runners && s.tunnel.hub == mid.tunnel.hub && s.tunnel.posts == mid.tunnel.posts
    ensures var l, c := mid.tunnel.ledgers[i], |mid.tunnel.calls|;
            && |s.tunnel.calls| == c + 1 && s.tunnel.calls[..c] == mid.tunnel.calls
            && IsAsked(s.tunnel.calls[c], d, verb, params, i, |l.roster| + 1)
            && s.tunnel.ledgers == mid.tunnel.ledgers[i := T.Ledger(l.roster + [c], l.pending[|l.roster| + 1 := c])]
            && s.tunnel.pipes == mid.tunnel.pipes[i := mid.tunnel.pipes[i].(outbox := [T.Command(|l.roster| + 1, verb, params)])]
  {
    var c := |mid.tunnel.calls|;
    var s1;
    more, s1 := Numbered(run, mid, d, i, verb, params);
    more, s := Over(more, s1, T.Queue(c));
    assert [] + [T.CommandOf(s1.tunnel.calls[c])] == [T.CommandOf(s1.tunnel.calls[c])];
    assert s.tunnel.calls[..c] == s1.tunnel.calls[..c];
  }

  lemma {:induction false} Numbered(run: seq<Action>, mid: State, d: R.Device, i: T.Sid, verb: string, params: string) returns (more: seq<Action>, s: State)
    requires Reaches(INITIAL, run, mid) && i < |mid.tunnel.ledgers| && d in mid.tunnel.hub.registered && mid.tunnel.hub.registered[d] == i
    ensures Reaches(INITIAL, more, s) && s.runners == mid.runners && s.tunnel.hub == mid.tunnel.hub && s.tunnel.posts == mid.tunnel.posts
    ensures s.tunnel.pipes == mid.tunnel.pipes
    ensures var l, c := mid.tunnel.ledgers[i], |mid.tunnel.calls|;
            && |s.tunnel.calls| == c + 1 && s.tunnel.calls[..c] == mid.tunnel.calls
            && s.tunnel.calls[c].phase == T.Queuing && IsAsked(s.tunnel.calls[c].(phase := T.Waiting), d, verb, params, i, |l.roster| + 1)
            && s.tunnel.ledgers == mid.tunnel.ledgers[i := T.Ledger(l.roster + [c], l.pending[|l.roster| + 1 := c])]
  {
    var c := |mid.tunnel.calls|;
    var s1;
    more, s1 := Over(run, mid, T.Lookup(d, verb, params));
    assert s1.tunnel.calls[..c] == mid.tunnel.calls;
    more, s := Over(more, s1, T.Number(c));
    assert s.tunnel.calls[..c] == s1.tunnel.calls[..c];
  }

  /** The command in the outbox is carried to the runner. */
  lemma {:induction false} Carry(run: seq<Action>, mid: State, i: T.Sid, cmd: T.Command) returns (more: seq<Action>, s: State)
    requires Reaches(INITIAL, run, mid) && i < |mid.tunnel.pipes| && i < |mid.tunnel.hub.streams| && mid.tunnel.hub.streams[i].phase == R.Serving
    requires var p := mid.tunnel.pipes[i]; p.outbox == [cmd] && p.wire == [] && p.tasks == []
    ensures Reaches(INITIAL, more, s) && s.runners == mid.runners
    ensures s.tunnel.hub == mid.tunnel.hub && s.tunnel.calls == mid.tunnel.calls && s.tunnel.ledgers == mid.tunnel.ledgers && s.tunnel.posts == mid.tunnel.posts
    ensures var p := mid.tunnel.pipes[i]; s.tunnel.pipes == mid.tunnel.pipes[i := T.Pipe([], [], [cmd], p.executed, p.replies)]
  {
    var p := mid.tunnel.pipes[i];
    var s1;
    more, s1 := Over(run, mid, T.WriteFrame(i));
    CarriedOne(p, cmd);
    more, s := Over(more, s1, T.TakeFrame(i));
  }

  lemma CarriedOne(p: T.Pipe, cmd: T.Command)
    requires p.outbox == [cmd] && p.wire == [] && p.tasks == []
    ensures T.Written(p) == T.Pipe([], [cmd], [], p.executed, p.replies)
    ensures T.Taken(T.Written(p)) == T.Pipe([], [], [cmd], p.executed, p.replies)
  {
    assert [cmd][1..] == [] && [] + [cmd] == [cmd];
  }

  /** And it is handled, and its result posted. */
  lemma {:induction false} Execute(run: seq<Action>, mid: State, i: T.Sid, cmd: T.Command, reply: T.Reply) returns (more: seq<Action>, s: State)
    requires Reaches(INITIAL, run, mid) && i < |mid.tunnel.pipes| && i < |mid.tunnel.hub.streams| && mid.tunnel.hub.streams[i].phase == R.Serving
    requires var p := mid.tunnel.pipes[i]; p.outbox == [cmd] && p.wire == [] && p.tasks == []
    requires Answers(RunnerOf(mid, mid.tunnel.hub.streams[i].device), cmd, reply)
    ensures Reaches(INITIAL, more, s) && s.tunnel.hub == mid.tunnel.hub && s.tunnel.calls == mid.tunnel.calls && s.tunnel.ledgers == mid.tunnel.ledgers
    ensures var p, d := mid.tunnel.pipes[i], mid.tunnel.hub.streams[i].device;
            && s.tunnel.pipes == mid.tunnel.pipes[i := T.Pipe([], [], [], p.executed + [cmd], p.replies + [reply])]
            && s.tunnel.posts == mid.tunnel.posts + [T.Post(d, i, cmd.id, reply, T.InFlight, 0)]
            && s.runners == mid.runners[d := RunnerAfter(RunnerOf(mid, d), cmd)]
  {
    var s1;
    more, s1 := Carry(run, mid, i, cmd);
    more, s := HandleOne(more, s1, i, cmd, reply);
  }

  lemma {:induction false} HandleOne(run: seq<Action>, mid: State, i: T.Sid, cmd: T.Command, reply: T.Reply) returns (more: seq<Action>, s: State)
    requires Reaches(INITIAL, run, mid) && i < |mid.tunnel.pipes| && i < |mid.tunnel.hub.streams| && mid.tunnel.pipes[i].tasks == [cmd]
    requires Answers(RunnerOf(mid, mid.tunnel.hub.streams[i].device), cmd, reply)
    ensures Reaches(INITIAL, more, s) && s.tunnel.hub == mid.tunnel.hub && s.tunnel.calls == mid.tunnel.calls && s.tunnel.ledgers == mid.tunnel.ledgers
    ensures var p, d := mid.tunnel.pipes[i], mid.tunnel.hub.streams[i].device;
            && s.tunnel.pipes == mid.tunnel.pipes[i := p.(tasks := [], executed := p.executed + [cmd], replies := p.replies + [reply])]
            && s.tunnel.posts == mid.tunnel.posts + [T.Post(d, i, cmd.id, reply, T.InFlight, 0)]
            && s.runners == mid.runners[d := RunnerAfter(RunnerOf(mid, d), cmd)]
  {
    var a := OverTunnel(T.Handle(i, 0, reply));
    ReachesNext(INITIAL, run, mid, a);
    more, s := run + [a], Next(mid, a);
    assert [cmd][..0] + [cmd][1..] == [];
  }

  /** A post reaches the session that is registered then and finds the call that has its number. */
  lemma {:induction false} Arrive(run: seq<Action>, mid: State, r: T.Rid, j: T.Sid, c: T.Cid) returns (more: seq<Action>, s: State)
    requires Reaches(INITIAL, run, mid) && r < |mid.tunnel.posts| && j < |mid.tunnel.ledgers|
    requires var p := mid.tunnel.posts[r];
             && p.phase == T.InFlight && p.device in mid.tunnel.hub.registered && mid.tunnel.hub.registered[p.device] == j
             && p.id in mid.tunnel.ledgers[j].pending && mid.tunnel.ledgers[j].pending[p.id] == c
    ensures Reaches(INITIAL, more, s) && s.runners == mid.runners && s.tunnel.hub == mid.tunnel.hub
    ensures s.tunnel.ledgers == mid.tunnel.ledgers && s.tunnel.pipes == mid.tunnel.pipes && s.tunnel.calls == mid.tunnel.calls
    ensures |s.tunnel.posts| == |mid.tunnel.posts| && forall q :: 0 <= q < |mid.tunnel.posts| && q != r ==> s.tunnel.posts[q] == mid.tunnel.posts[q]
    ensures s.tunnel.posts[r].phase == T.AtChannel(c) && s.tunnel.posts[r].reply == mid.tunnel.posts[r].reply
  {
    var s1;
    more, s1 := Over(run, mid, T.FindSession(r));
    more, s := Over(more, s1, T.FindChannel(r));
  }

  /** The call takes a post that is at its channel. */
  lemma {:induction false} Accept(run: seq<Action>, mid: State, r: T.Rid, c: T.Cid) returns (more: seq<Action>, s: State)
    requires Reaches(INITIAL, run, mid) && r < |mid.tunnel.posts| && c < |mid.tunnel.calls|
    requires mid.tunnel.posts[r].phase == T.AtChannel(c) && mid.tunnel.posts[r].reply.error == ""
    requires mid.tunnel.calls[c].phase == T.Waiting && mid.tunnel.calls[c].channel == None
    ensures Reaches(INITIAL, more, s) && s.runners == mid.runners && s.tunnel.hub == mid.tunnel.hub
    ensures s.tunnel.ledgers == mid.tunnel.ledgers && s.tunnel.pipes == mid.tunnel.pipes
    ensures |s.tunnel.posts| == |mid.tunnel.posts| && forall q :: 0 <= q < |mid.tunnel.posts| && q != r ==> s.tunnel.posts[q] == mid.tunnel.posts[q]
    ensures |s.tunnel.calls| == |mid.tunnel.calls| && (forall e :: 0 <= e < |mid.tunnel.calls| && e != c ==> s.tunnel.calls[e] == mid.tunnel.calls[e])
    ensures var call, was := s.tunnel.calls[c], mid.tunnel.calls[c];
            && call.outcome == T.Value(mid.tunnel.posts[r].reply.result)
            && call.device == was.device && call.verb == was.verb && call.params == was.params
  {
    var s1;
    more, s1 := Over(run, mid, T.Deliver(r));
    more, s := Over(more, s1, T.Receive(c));
  }

  /** A build is installed: asked for over a first session, and its installer returns. */
  lemma {:induction false} FirstInstalled(d: R.Device, x: I.Build) returns (run: seq<Action>, s: State)
    requires x != ""
    ensures Reaches(INITIAL, run, s)
    ensures |s.tunnel.hub.streams| == |s.tunnel.ledgers| == |s.tunnel.pipes| == 1 && |s.tunnel.calls| == 1 && |s.tunnel.posts| == 1
    ensures d in s.runners && s.runners[d].installs == map[x := I.Progress(true, "")] && s.runners[d].succeeded == {x}
  {
    var s1, s2, s3;
    run, s1 := Dial([], INITIAL, d);
    run, s2 := Ask(run, s1, d, 0, INSTALL, x);
    var cmd := T.Command(1, INSTALL, x);
    run, s3 := Execute(run, s2, 0, cmd, T.Reply("installing", ""));
    assert s3.runners[d].jobs == [I.Job(x, I.Pending)];
    var a := AtRunner(d, I.End(0, I.Success));
    ReachesNext(INITIAL, run, s3, a);
    run, s := run + [a], Next(s3, a);
  }

  /** On a second session the build is polled for, its `done` is under way, and another build is asked
      for and accepted. */
  lemma {:induction false} SecondAskedFor(d: R.Device, x: I.Build, y: I.Build) returns (run: seq<Action>, s: State)
    requires x != "" && y != "" && x != y
    ensures Reaches(INITIAL, run, s)
    ensures |s.tunnel.hub.streams| == |s.tunnel.ledgers| == |s.tunnel.pipes| == 2 && |s.tunnel.calls| == 3 && |s.tunnel.posts| == 3
    ensures s.tunnel.posts[1] == T.Post(d, 1, 1, T.Reply(DONE, ""), T.InFlight, 0)
    ensures var call := s.tunnel.calls[2];
            call.device == d && call.verb == INSTALL && call.params == y && call.outcome == T.Value("installing")
    ensures d in s.runners && s.runners[d].succeeded == {x} && I.StatusOf(s.runners[d].installs, y) == I.Installing
  {
    var s1, s2, s3;
    run, s1 := FirstInstalled(d, x);
    run, s2 := PolledFor(run, s1, d, x);
    run, s3 := AskedFor(run, s2, d, x, y);
    var s4;
    run, s4 := Arrive(run, s3, 2, 1, 2);
    run, s := Accept(run, s4, 2, 2);
  }

  lemma {:induction false} PolledFor(run: seq<Action>, mid: State, d: R.Device, x: I.Build) returns (more: seq<Action>, s: State)
    requires Reaches(INITIAL, run, mid)
    requires |mid.tunnel.hub.streams| == |mid.tunnel.ledgers| == |mid.tunnel.pipes| == 1 && |mid.tunnel.calls| == 1 && |mid.tunnel.posts| == 1
    requires d in mid.runners && mid.runners[d].installs == map[x := I.Progress(true, "")]
    ensures Reaches(INITIAL, more, s)
    ensures |s.tunnel.hub.streams| == |s.tunnel.ledgers| == |s.tunnel.pipes| == 2 && |s.tunnel.calls| == 2 && |s.tunnel.posts| == 2
    ensures s.tunnel.hub.streams[1].device == d && s.tunnel.hub.streams[1].phase == R.Serving
    ensures d in s.tunnel.hub.registered && s.tunnel.hub.registered[d] == 1
    ensures |s.tunnel.ledgers[1].roster| == 1
    ensures var p := s.tunnel.pipes[1]; p.outbox == [] && p.wire == [] && p.tasks == []
    ensures s.tunnel.posts[1] == T.Post(d, 1, 1, T.Reply(DONE, ""), T.InFlight, 0)
    ensures d in s.runners && s.runners[d] == mid.runners[d]
  {
    var s1, s2;
    more, s1 := Dial(run, mid, d);
    more, s2 := Ask(more, s1, d, 1, STATUS, x);
    more, s := Execute(more, s2, 1, T.Command(1, STATUS, x), T.Reply(DONE, ""));
  }

  lemma {:induction false} AskedFor(run: seq<Action>, mid: State, d: R.Device, x: I.Build, y: I.Build) returns (more: seq<Action>, s: State)
    requires Reaches(INITIAL, run, mid) && y != "" && x != y
    requires |mid.tunnel.hub.streams| == |mid.tunnel.ledgers| == |mid.tunnel.pipes| == 2 && |mid.tunnel.calls| == 2 && |mid.tunnel.posts| == 2
    requires mid.tunnel.hub.streams[1].device == d && mid.tunnel.hub.streams[1].phase == R.Serving
    requires d in mid.tunnel.hub.registered && mid.tunnel.hub.registered[d] == 1 && |mid.tunnel.ledgers[1].roster| == 1
    requires var p := mid.tunnel.pipes[1]; p.outbox == [] && p.wire == [] && p.tasks == []
    requires d in mid.runners && mid.runners[d].installs == map[x := I.Progress(true, "")]
    ensures Reaches(INITIAL, more, s) && s.tunnel.hub == mid.tunnel.hub && |s.tunnel.pipes| == 2
    ensures |s.tunnel.calls| == 3 && IsAsked(s.tunnel.calls[2], d, INSTALL, y, 1, 2)
    ensures |s.tunnel.ledgers| == 2 && 2 in s.tunnel.ledgers[1].pending && s.tunnel.ledgers[1].pending[2] == 2
    ensures s.tunnel.posts == mid.tunnel.posts + [T.Post(d, 1, 2, T.Reply("installing", ""), T.InFlight, 0)]
    ensures d in s.runners && s.runners[d].succeeded == mid.runners[d].succeeded && I.StatusOf(s.runners[d].installs, y) == I.Installing
  {
    var s1;
    more, s1 := Ask(run, mid, d, 1, INSTALL, y);
    more, s := Execute(more, s1, 1, T.Command(2, INSTALL, y), T.Reply("installing", ""));
  }

  /** The runner dials in once more, the second build is polled for under the number of the poll for
      the first, and the delayed `done` answers it: `InstallDesktopBuild` returns without an error
      for a build whose installer is still running. */
  lemma {:induction false} NilWithoutInstall(d: R.Device, x: I.Build, y: I.Build) returns (run: seq<Action>, s: State)
    requires x != "" && y != "" && x != y
    ensures Reaches(INITIAL, run, s)
    ensures ReturnsNil(s.tunnel, d, y, [3]) && y !in RunnerOf(s, d).succeeded && I.StatusOf(RunnerOf(s, d).installs, y) == I.Installing
    ensures var call := s.tunnel.calls[2];
            call.device == d && call.verb == INSTALL && call.params == y && call.outcome == T.Value("installing")
  {
    var s1, s2, s3, s4;
    run, s1 := SecondAskedFor(d, x, y);
    run, s2 := Dial(run, s1, d);
    run, s3 := Ask(run, s2, d, 2, STATUS, y);
    assert s3.tunnel.calls[2] == s3.tunnel.calls[..3][2];
    run, s4 := Arrive(run, s3, 1, 2, 3);
    run, s := Accept(run, s4, 1, 3);
    ToldOnce(s.tunnel, d, y, 3);
  }

  lemma ToldOnce(t: T.State, d: R.Device, b: I.Build, c: T.Cid)
    requires c < |t.calls| && t.calls[c].verb == STATUS && t.calls[c].params == b && t.calls[c].device == d && t.calls[c].outcome == T.Value(DONE)
    ensures ReturnsNil(t, d, b, [c])
  {
    var polls := [c];
    var replies := seq(|polls|, i requires 0 <= i < |polls| && polls[i] < |t.calls| => ReplyOf(t.calls[polls[i]]));
    assert replies[0] == I.Reply(I.Done);
    assert I.EndsDone(replies);
  }
}
