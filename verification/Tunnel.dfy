/** Calls over the dial-home tunnel: the appliance numbers a command, queues it on a session, the
    stream carries it to the runner, a handler goroutine runs it and posts the result back, and the
    hub matches the post to the waiting call.

    Every lock region, channel operation and network hop is one atomic step. Sessions, calls and
    posts are numbered in order of creation, and a number stands for the pointer the program holds. */
module Tunnel {
  import opened Wrappers
  import R = RunnerRegistry

  type Sid = R.Sid
  type Cid = nat
  type Rid = nat

  datatype Command = Command(id: nat, verb: string, params: string)

  /** A reply body. The hub reads an empty `error` as success. */
  datatype Reply = Reply(result: string, error: string)

  /** A session's side of the matching: the calls it numbered so far (its `seq` is the length, and
      the call numbered `id` is `roster[id - 1]`) and the `pending` map from id to reply channel. */
  datatype Ledger = Ledger(roster: seq<Cid>, pending: map<nat, Cid>)

  /** A session's commands on their way: the bounded outbox, frames written to the stream, the
      runner's handler goroutines, and handled commands with what each produced. */
  datatype Pipe = Pipe(outbox: seq<Command>, wire: seq<Command>, tasks: seq<Command>,
                       executed: seq<Command>, replies: seq<Reply>)

  datatype CallPhase = Offline | Found | Queuing | Waiting | Cleaning | Finished

  datatype Outcome = Undecided | Value(result: string) | Failure

  /** One `Hub.Call`: `channel` is its one-slot reply channel, `taken` what it received from it;
      it was pending from time `since` to time `until`. */
  datatype Call = Call(device: R.Device, verb: string, params: string, phase: CallPhase, sid: Sid, id: nat,
                       channel: Option<Rid>, taken: Option<Rid>, outcome: Outcome, since: nat, until: nat)

  datatype PostPhase = InFlight | AtSession(sid: Sid) | AtChannel(cid: Cid) | Delivered(cid: Cid) | Dropped

  /** A result POST. `origin` is the session whose stream carried the command; the program does not
      transmit it, and no step looks at it. */
  datatype Post = Post(device: R.Device, origin: Sid, id: nat, reply: Reply, phase: PostPhase, resolvedAt: nat)

  datatype State = State(clock: nat, hub: R.Registry, ledgers: seq<Ledger>, pipes: seq<Pipe>,
                         calls: seq<Call>, posts: seq<Post>)

  datatype Action =
    | HubStep(step: R.Step)
    | Lookup(device: R.Device, verb: string, params: string)
    | Number(cid: Cid)
    | Queue(cid: Cid)
    | Receive(cid: Cid)
    | Abandon(cid: Cid)
    | Forget(cid: Cid)
    | WriteFrame(sid: Sid)
    | LoseFrames(sid: Sid, kept: nat)
    | TakeFrame(sid: Sid)
    | Handle(sid: Sid, task: nat, reply: Reply)
    | DuplicatePost(rid: Rid)
    | LosePost(rid: Rid)
    | FindSession(rid: Rid)
    | FindChannel(rid: Rid)
    | Deliver(rid: Rid)

  const OUTBOX_CAPACITY: nat := 16

  const INITIAL := State(0, R.EMPTY, [], [], [], [])

  function CommandOf(c: Call): Command {
    Command(c.id, c.verb, c.params)
  }

  predicate Numbered(c: Call) {
    c.phase == Queuing || c.phase == Waiting || c.phase == Cleaning || c.phase == Finished
  }

  predicate Active(c: Call) {
    Numbered(c) && c.phase != Finished
  }

  predicate Enabled(s: State, a: Action) {
    match a
    case HubStep(step) => R.Enabled(s.hub, step)
    case Lookup(_, _, _) => true
    case Number(c) => c < |s.calls| && s.calls[c].phase == Found && s.calls[c].sid < |s.ledgers|
    case Queue(c) =>
      && c < |s.calls| && s.calls[c].phase == Queuing
      && s.calls[c].sid < |s.pipes| && |s.pipes[s.calls[c].sid].outbox| < OUTBOX_CAPACITY
    case Receive(c) =>
      && c < |s.calls| && s.calls[c].phase == Waiting
      && s.calls[c].channel.Some? && s.calls[c].channel.value < |s.posts|
    case Abandon(c) => c < |s.calls| && (s.calls[c].phase == Queuing || s.calls[c].phase == Waiting)
    case Forget(c) => c < |s.calls| && s.calls[c].phase == Cleaning && s.calls[c].sid < |s.ledgers|
    case WriteFrame(i) =>
      i < |s.pipes| && i < |s.hub.streams| && s.hub.streams[i].phase == R.Serving && s.pipes[i].outbox != []
    case LoseFrames(i, kept) => i < |s.pipes| && kept < |s.pipes[i].wire|
    case TakeFrame(i) => i < |s.pipes| && s.pipes[i].wire != []
    case Handle(i, k, _) => i < |s.pipes| && i < |s.hub.streams| && k < |s.pipes[i].tasks|
    case DuplicatePost(r) => r < |s.posts|
    case LosePost(r) => r < |s.posts| && s.posts[r].phase == InFlight
    case FindSession(r) => r < |s.posts| && s.posts[r].phase == InFlight
    case FindChannel(r) => r < |s.posts| && s.posts[r].phase.AtSession? && s.posts[r].phase.sid < |s.ledgers|
    case Deliver(r) => r < |s.posts| && s.posts[r].phase.AtChannel? && s.posts[r].phase.cid < |s.calls|
  }

  /** A hub step; a dial-in also makes the new session's empty ledger and pipe. */
  function DoHub(s: State, step: R.Step): State
    requires R.Enabled(s.hub, step)
  {
    var t := s.(hub := R.Next(s.hub, step));
    if step.Connect? then t.(ledgers := s.ledgers + [Ledger([], map[])], pipes := s.pipes + [Pipe([], [], [], [], [])])
    else t
  }

  /** `Hub.Call` reads the session map; without a session it fails at once. */
  function DoLookup(s: State, d: R.Device, verb: string, params: string): State {
    var online := d in s.hub.registered;
    s.(calls := s.calls + [Call(d, verb, params, if online then Found else Offline,
                                if online then s.hub.registered[d] else 0, 0, None, None,
                                if online then Undecided else Failure, 0, 0)])
  }

  /** `s.seq++`, and the reply channel goes into `pending` under the new number. */
  function Entered(l: Ledger, c: Cid): Ledger {
    Ledger(l.roster + [c], l.pending[|l.roster| + 1 := c])
  }

  function DoNumber(s: State, c: Cid): State
    requires c < |s.calls| && s.calls[c].sid < |s.ledgers|
  {
    var l := s.ledgers[s.calls[c].sid];
    s.(ledgers := s.ledgers[s.calls[c].sid := Entered(l, c)],
       calls := s.calls[c := s.calls[c].(phase := Queuing, id := |l.roster| + 1, since := s.clock)])
  }

  function DoQueue(s: State, c: Cid): State
    requires c < |s.calls| && s.calls[c].sid < |s.pipes|
  {
    var p := s.pipes[s.calls[c].sid];
    s.(pipes := s.pipes[s.calls[c].sid := p.(outbox := p.outbox + [CommandOf(s.calls[c])])],
       calls := s.calls[c := s.calls[c].(phase := Waiting)])
  }

  function DoReceive(s: State, c: Cid): State
    requires c < |s.calls| && s.calls[c].channel.Some? && s.calls[c].channel.value < |s.posts|
  {
    var reply := s.posts[s.calls[c].channel.value].reply;
    s.(calls := s.calls[c := s.calls[c].(phase := Cleaning, channel := None, taken := s.calls[c].channel,
                                         outcome := if reply.error != "" then Failure else Value(reply.result))])
  }

  /** The deferred `delete(s.pending, id)`. */
  function Erased(l: Ledger, id: nat): Ledger {
    l.(pending := l.pending - {id})
  }

  function DoForget(s: State, c: Cid): State
    requires c < |s.calls| && s.calls[c].sid < |s.ledgers|
  {
    var l := s.ledgers[s.calls[c].sid];
    s.(ledgers := s.ledgers[s.calls[c].sid := Erased(l, s.calls[c].id)],
       calls := s.calls[c := s.calls[c].(phase := Finished, until := s.clock)])
  }

  function Written(p: Pipe): Pipe
    requires p.outbox != []
  {
    p.(outbox := p.outbox[1..], wire := p.wire + [p.outbox[0]])
  }

  function Taken(p: Pipe): Pipe
    requires p.wire != []
  {
    p.(wire := p.wire[1..], tasks := p.tasks + [p.wire[0]])
  }

  function Handled(p: Pipe, k: nat, reply: Reply): Pipe
    requires k < |p.tasks|
  {
    p.(tasks := p.tasks[..k] + p.tasks[k + 1..], executed := p.executed + [p.tasks[k]], replies := p.replies + [reply])
  }

  /** One handler goroutine finishes and posts its result under the command's id. */
  function DoHandle(s: State, i: Sid, k: nat, reply: Reply): State
    requires i < |s.pipes| && i < |s.hub.streams| && k < |s.pipes[i].tasks|
  {
    s.(pipes := s.pipes[i := Handled(s.pipes[i], k, reply)],
       posts := s.posts + [Post(s.hub.streams[i].device, i, s.pipes[i].tasks[k].id, reply, InFlight, 0)])
  }

  /** `ResultHandler` takes whichever session is registered when the post arrives. */
  function DoFindSession(s: State, r: Rid): State
    requires r < |s.posts|
  {
    var d := s.posts[r].device;
    s.(posts := s.posts[r := s.posts[r].(phase := if d in s.hub.registered then AtSession(s.hub.registered[d]) else Dropped)])
  }

  function DoFindChannel(s: State, r: Rid): State
    requires r < |s.posts| && s.posts[r].phase.AtSession? && s.posts[r].phase.sid < |s.ledgers|
  {
    var pending := s.ledgers[s.posts[r].phase.sid].pending;
    var id := s.posts[r].id;
    s.(posts := s.posts[r := s.posts[r].(phase := if id in pending then AtChannel(pending[id]) else Dropped,
                                         resolvedAt := s.clock)])
  }

  /** The non-blocking send into the one-slot channel: a full slot drops the reply. */
  function DoDeliver(s: State, r: Rid): State
    requires r < |s.posts| && s.posts[r].phase.AtChannel? && s.posts[r].phase.cid < |s.calls|
  {
    var c := s.posts[r].phase.cid;
    if s.calls[c].channel.None?
    then s.(posts := s.posts[r := s.posts[r].(phase := Delivered(c))],
            calls := s.calls[c := s.calls[c].(channel := Some(r))])
    else s.(posts := s.posts[r := s.posts[r].(phase := Dropped)])
  }

  function Effect(s: State, a: Action): State
    requires Enabled(s, a)
  {
    match a
    case HubStep(step) => DoHub(s, step)
    case Lookup(d, verb, params) => DoLookup(s, d, verb, params)
    case Number(c) => DoNumber(s, c)
    case Queue(c) => DoQueue(s, c)
    case Receive(c) => DoReceive(s, c)
    case Abandon(c) => s.(calls := s.calls[c := s.calls[c].(phase := Cleaning, outcome := Failure)])
    case Forget(c) => DoForget(s, c)
    case WriteFrame(i) => s.(pipes := s.pipes[i := Written(s.pipes[i])])
    case LoseFrames(i, kept) => s.(pipes := s.pipes[i := s.pipes[i].(wire := s.pipes[i].wire[..kept])])
    case TakeFrame(i) => s.(pipes := s.pipes[i := Taken(s.pipes[i])])
    case Handle(i, k, reply) => DoHandle(s, i, k, reply)
    case DuplicatePost(r) => s.(posts := s.posts + [s.posts[r].(phase := InFlight, resolvedAt := 0)])
    case LosePost(r) => s.(posts := s.posts[r := s.posts[r].(phase := Dropped)])
    case FindSession(r) => DoFindSession(s, r)
    case FindChannel(r) => DoFindChannel(s, r)
    case Deliver(r) => DoDeliver(s, r)
  }

  function Next(s: State, a: Action): State
    requires Enabled(s, a)
  {
    Effect(s, a).(clock := s.clock + 1)
  }

  predicate IsRun(s: State, run: seq<Action>)
    decreases |run|
  {
    run == [] || (Enabled(s, run[0]) && IsRun(Next(s, run[0]), run[1..]))
  }

  function After(s: State, run: seq<Action>): State
    requires IsRun(s, run)
    decreases |run|
  {
    if run == [] then s else After(Next(s, run[0]), run[1..])
  }

  lemma {:induction false} RunFrom(s: State, a: Action, rest: seq<Action>)
    requires Enabled(s, a) && IsRun(Next(s, a), rest)
    ensures IsRun(s, [a] + rest) && After(s, [a] + rest) == After(Next(s, a), rest)
  {
  }

  // ---- Numbering: a session's ids name its calls one to one ----

  /** Entry `k` of a session's roster is a call of that session numbered `k + 1`. */
  predicate EntryOk(ledgers: seq<Ledger>, calls: seq<Call>, i: nat, k: nat) {
    i < |ledgers| && k < |ledgers[i].roster| ==>
      var c := ledgers[i].roster[k];
      c < |calls| && Numbered(calls[c]) && calls[c].sid == i && calls[c].id == k + 1
  }

  /** A numbered call stands in its session's roster, and is pending until it is forgotten. */
  predicate CallOk(ledgers: seq<Ledger>, calls: seq<Call>, c: nat) {
    c < |calls| && Numbered(calls[c]) ==>
      var call := calls[c];
      && call.sid < |ledgers| && 1 <= call.id <= |ledgers[call.sid].roster|
      && ledgers[call.sid].roster[call.id - 1] == c
      && (Active(call) <==> call.id in ledgers[call.sid].pending)
  }

  predicate PendingOk(ledgers: seq<Ledger>, i: nat, id: nat) {
    i < |ledgers| && id in ledgers[i].pending ==>
      1 <= id <= |ledgers[i].roster| && ledgers[i].pending[id] == ledgers[i].roster[id - 1]
  }

  ghost predicate LedgersOk(ledgers: seq<Ledger>, calls: seq<Call>) {
    && (forall i: nat, k: nat :: EntryOk(ledgers, calls, i, k))
    && (forall c: nat :: CallOk(ledgers, calls, c))
    && (forall i: nat, id: nat :: PendingOk(ledgers, i, id))
  }

  /** Steps that do not number or forget a call leave the ledgers right. */
  lemma LedgersFrame(ledgers: seq<Ledger>, calls: seq<Call>, calls': seq<Call>)
    requires LedgersOk(ledgers, calls)
    requires |calls| <= |calls'|
    requires forall c :: 0 <= c < |calls| ==>
               && calls'[c].sid == calls[c].sid && calls'[c].id == calls[c].id
               && Numbered(calls'[c]) == Numbered(calls[c]) && Active(calls'[c]) == Active(calls[c])
    requires forall c :: |calls| <= c < |calls'| ==> !Numbered(calls'[c])
    ensures LedgersOk(ledgers, calls')
  {
    forall i: nat, k: nat ensures EntryOk(ledgers, calls', i, k) {
      assert EntryOk(ledgers, calls, i, k);
    }
    forall c: nat ensures CallOk(ledgers, calls', c) {
      assert CallOk(ledgers, calls, c);
    }
  }

  lemma LedgersAfterDialIn(ledgers: seq<Ledger>, calls: seq<Call>)
    requires LedgersOk(ledgers, calls)
    ensures LedgersOk(ledgers + [Ledger([], map[])], calls)
  {
    var ledgers' := ledgers + [Ledger([], map[])];
    forall i: nat, k: nat ensures EntryOk(ledgers', calls, i, k) {
      assert EntryOk(ledgers, calls, i, k);
    }
    forall c: nat ensures CallOk(ledgers', calls, c) {
      assert CallOk(ledgers, calls, c);
    }
    forall i: nat, id: nat ensures PendingOk(ledgers', i, id) {
      assert PendingOk(ledgers, i, id);
    }
  }

  lemma LedgersAfterNumber(s: State, c: Cid)
    requires Enabled(s, Number(c)) && LedgersOk(s.ledgers, s.calls)
    ensures LedgersOk(DoNumber(s, c).ledgers, DoNumber(s, c).calls)
  {
    var n := DoNumber(s, c);
    forall i: nat, k: nat ensures EntryOk(n.ledgers, n.calls, i, k) {
      assert EntryOk(s.ledgers, s.calls, i, k);
    }
    forall e: nat ensures CallOk(n.ledgers, n.calls, e) {
      assert CallOk(s.ledgers, s.calls, e);
    }
    forall i: nat, id: nat ensures PendingOk(n.ledgers, i, id) {
      assert PendingOk(s.ledgers, i, id);
    }
  }

  lemma LedgersAfterForget(s: State, c: Cid)
    requires Enabled(s, Forget(c)) && LedgersOk(s.ledgers, s.calls)
    ensures LedgersOk(DoForget(s, c).ledgers, DoForget(s, c).calls)
  {
    var n := DoForget(s, c);
    assert CallOk(s.ledgers, s.calls, c);
    forall i: nat, k: nat ensures EntryOk(n.ledgers, n.calls, i, k) {
      assert EntryOk(s.ledgers, s.calls, i, k);
    }
    forall e: nat ensures CallOk(n.ledgers, n.calls, e) {
      assert CallOk(s.ledgers, s.calls, e);
    }
    forall i: nat, id: nat ensures PendingOk(n.ledgers, i, id) {
      assert PendingOk(s.ledgers, i, id);
    }
  }

  lemma LedgersStep(s: State, a: Action)
    requires Enabled(s, a) && LedgersOk(s.ledgers, s.calls)
    ensures LedgersOk(Next(s, a).ledgers, Next(s, a).calls)
  {
    match a
    case Number(c) => LedgersAfterNumber(s, c);
    case Forget(c) => LedgersAfterForget(s, c);
    case HubStep(_) => LedgersAfterDialIn(s.ledgers, s.calls);
    case _ => LedgersFrame(s.ledgers, s.calls, Next(s, a).calls);
  }

  // ---- Carriage: a session carries each numbered command at most once ----

  /** Everything a session has queued, written, started or handled. */
  function Bag(p: Pipe): multiset<Command> {
    multiset(p.outbox) + multiset(p.wire) + multiset(p.tasks) + multiset(p.executed)
  }

  /** A command found anywhere in a pipe is there once, and is the command of the call with its
      number. */
  predicate CommandOk(pipes: seq<Pipe>, ledgers: seq<Ledger>, calls: seq<Call>, i: nat, cmd: Command) {
    i < |pipes| && i < |ledgers| && cmd in Bag(pipes[i]) ==>
      && Bag(pipes[i])[cmd] == 1
      && 1 <= cmd.id <= |ledgers[i].roster| && ledgers[i].roster[cmd.id - 1] < |calls|
      && var call := calls[ledgers[i].roster[cmd.id - 1]];
         Numbered(call) && call.phase != Queuing && CommandOf(call) == cmd
  }

  ghost predicate PipesOk(pipes: seq<Pipe>, ledgers: seq<Ledger>, calls: seq<Call>) {
    && |pipes| == |ledgers|
    && (forall i: nat, cmd: Command :: CommandOk(pipes, ledgers, calls, i, cmd))
    && (forall i :: 0 <= i < |pipes| ==> |pipes[i].executed| == |pipes[i].replies|)
  }

  lemma QueueGrowsBag(p: Pipe, cmd: Command, other: Command)
    requires cmd !in Bag(p)
    ensures Bag(p.(outbox := p.outbox + [cmd]))[other] == if other == cmd then 1 else Bag(p)[other]
  {
  }

  lemma WriteKeepsBag(p: Pipe)
    requires p.outbox != []
    ensures Bag(Written(p)) == Bag(p)
  {
    assert p.outbox == [p.outbox[0]] + p.outbox[1..];
  }

  lemma TakeKeepsBag(p: Pipe)
    requires p.wire != []
    ensures Bag(Taken(p)) == Bag(p)
  {
    assert p.wire == [p.wire[0]] + p.wire[1..];
  }

  lemma HandleKeepsBag(p: Pipe, k: nat, reply: Reply)
    requires k < |p.tasks|
    ensures Bag(Handled(p, k, reply)) == Bag(p)
  {
    assert p.tasks == p.tasks[..k] + [p.tasks[k]] + p.tasks[k + 1..];
  }

  lemma LossShrinksBag(p: Pipe, kept: nat)
    requires kept < |p.wire|
    ensures Bag(p.(wire := p.wire[..kept])) <= Bag(p)
  {
    assert p.wire == p.wire[..kept] + p.wire[kept..];
  }

  /** Replacing one pipe by one that holds no more keeps carriage right. */
  lemma PipesShrink(pipes: seq<Pipe>, ledgers: seq<Ledger>, calls: seq<Call>, i: nat, p: Pipe)
    requires PipesOk(pipes, ledgers, calls) && i < |pipes|
    requires Bag(p) <= Bag(pipes[i]) && |p.executed| == |p.replies|
    ensures PipesOk(pipes[i := p], ledgers, calls)
  {
    var pipes' := pipes[i := p];
    forall j: nat, cmd: Command ensures CommandOk(pipes', ledgers, calls, j, cmd) {
      assert CommandOk(pipes, ledgers, calls, j, cmd);
      assert j == i ==> Bag(p)[cmd] <= Bag(pipes[i])[cmd];
    }
  }

  /** Growing rosters and calls that keep what they sent keeps carriage right. */
  lemma PipesFrame(pipes: seq<Pipe>, ledgers: seq<Ledger>, calls: seq<Call>, ledgers': seq<Ledger>, calls': seq<Call>)
    requires PipesOk(pipes, ledgers, calls) && |ledgers'| == |ledgers| && |calls| <= |calls'|
    requires forall i :: 0 <= i < |ledgers| ==> ledgers[i].roster <= ledgers'[i].roster
    requires forall c :: 0 <= c < |calls| && Numbered(calls[c]) && calls[c].phase != Queuing ==>
               Numbered(calls'[c]) && calls'[c].phase != Queuing && CommandOf(calls'[c]) == CommandOf(calls[c])
    ensures PipesOk(pipes, ledgers', calls')
  {
    forall i: nat, cmd: Command ensures CommandOk(pipes, ledgers', calls', i, cmd) {
      assert CommandOk(pipes, ledgers, calls, i, cmd);
    }
  }

  lemma PipesAfterDialIn(pipes: seq<Pipe>, ledgers: seq<Ledger>, calls: seq<Call>)
    requires PipesOk(pipes, ledgers, calls)
    ensures PipesOk(pipes + [Pipe([], [], [], [], [])], ledgers + [Ledger([], map[])], calls)
  {
    var pipes', ledgers' := pipes + [Pipe([], [], [], [], [])], ledgers + [Ledger([], map[])];
    forall i: nat, cmd: Command ensures CommandOk(pipes', ledgers', calls, i, cmd) {
      assert CommandOk(pipes, ledgers, calls, i, cmd);
    }
  }

  /** Queuing adds the one command the pipe did not hold. */
  lemma PipesAfterQueue(s: State, c: Cid)
    requires Enabled(s, Queue(c)) && LedgersOk(s.ledgers, s.calls) && PipesOk(s.pipes, s.ledgers, s.calls)
    ensures PipesOk(DoQueue(s, c).pipes, s.ledgers, DoQueue(s, c).calls)
  {
    var i := s.calls[c].sid;
    var mine := CommandOf(s.calls[c]);
    var calls' := DoQueue(s, c).calls;
    var pipes' := DoQueue(s, c).pipes;
    assert CallOk(s.ledgers, s.calls, c);
    assert mine !in Bag(s.pipes[i]) by { assert CommandOk(s.pipes, s.ledgers, s.calls, i, mine); }
    PipesFrame(s.pipes, s.ledgers, s.calls, s.ledgers, calls');
    PipesGrow(s.pipes, s.ledgers, calls', pipes', i, mine);
  }

  lemma PipesGrow(pipes: seq<Pipe>, ledgers: seq<Ledger>, calls: seq<Call>, pipes': seq<Pipe>, i: nat, cmd: Command)
    requires PipesOk(pipes, ledgers, calls) && i < |pipes| && cmd !in Bag(pipes[i])
    requires pipes' == pipes[i := pipes[i].(outbox := pipes[i].outbox + [cmd])]
    requires 1 <= cmd.id <= |ledgers[i].roster| && ledgers[i].roster[cmd.id - 1] < |calls|
    requires var call := calls[ledgers[i].roster[cmd.id - 1]];
             Numbered(call) && call.phase != Queuing && CommandOf(call) == cmd
    ensures PipesOk(pipes', ledgers, calls)
  {
    forall j: nat, other: Command ensures CommandOk(pipes', ledgers, calls, j, other) {
      assert CommandOk(pipes, ledgers, calls, j, other);
      if j == i {
        QueueGrowsBag(pipes[i], cmd, other);
        assert Bag(pipes'[j])[other] == if other == cmd then 1 else Bag(pipes[i])[other];
      }
    }
  }

  predicate OnPipes(a: Action) {
    a.WriteFrame? || a.LoseFrames? || a.TakeFrame? || a.Handle?
  }

  lemma PipesAfterCarriage(s: State, a: Action)
    requires Enabled(s, a) && OnPipes(a) && PipesOk(s.pipes, s.ledgers, s.calls)
    ensures PipesOk(Next(s, a).pipes, s.ledgers, s.calls)
  {
    match a
    case WriteFrame(i) =>
      WriteKeepsBag(s.pipes[i]);
      PipesShrink(s.pipes, s.ledgers, s.calls, i, Written(s.pipes[i]));
    case TakeFrame(i) =>
      TakeKeepsBag(s.pipes[i]);
      PipesShrink(s.pipes, s.ledgers, s.calls, i, Taken(s.pipes[i]));
    case LoseFrames(i, kept) =>
      LossShrinksBag(s.pipes[i], kept);
      PipesShrink(s.pipes, s.ledgers, s.calls, i, s.pipes[i].(wire := s.pipes[i].wire[..kept]));
    case Handle(i, k, reply) =>
      HandleKeepsBag(s.pipes[i], k, reply);
      PipesShrink(s.pipes, s.ledgers, s.calls, i, Handled(s.pipes[i], k, reply));
  }

  lemma PipesStep(s: State, a: Action)
    requires Enabled(s, a) && LedgersOk(s.ledgers, s.calls) && PipesOk(s.pipes, s.ledgers, s.calls)
    ensures PipesOk(Next(s, a).pipes, Next(s, a).ledgers, Next(s, a).calls)
  {
    if OnPipes(a) {
      PipesAfterCarriage(s, a);
    } else if a.HubStep? {
      PipesAfterDialIn(s.pipes, s.ledgers, s.calls);
    } else if a.Queue? {
      PipesAfterQueue(s, a.cid);
    } else {
      PipesFrame(s.pipes, s.ledgers, s.calls, Next(s, a).ledgers, Next(s, a).calls);
    }
  }

  // ---- Matching: what a post can reach ----

  /** Some handler run on this session finished command `id` with `reply`. */
  predicate Produced(p: Pipe, id: nat, reply: Reply) {
    exists k :: 0 <= k < |p.executed| && k < |p.replies| && p.executed[k].id == id && p.replies[k] == reply
  }

  predicate HomeOk(s: State, c: nat) {
    c < |s.calls| && s.calls[c].phase != Offline ==>
      && s.calls[c].sid < |s.hub.streams| && s.hub.streams[s.calls[c].sid].device == s.calls[c].device
      && (Numbered(s.calls[c]) ==> s.calls[c].since < s.clock)
  }

  /** The post found call `c` under its own id, on a session of its own device that is no older
      than the one it came from, and while `c` was pending. */
  predicate Matched(s: State, p: Post, c: nat) {
    && c < |s.calls| && Numbered(s.calls[c])
    && s.calls[c].id == p.id && s.calls[c].device == p.device && p.origin <= s.calls[c].sid
    && s.calls[c].since < p.resolvedAt < s.clock
    && (s.calls[c].phase == Finished ==> p.resolvedAt < s.calls[c].until)
  }

  predicate PostOk(s: State, r: nat) {
    r < |s.posts| ==>
      var p := s.posts[r];
      && p.origin < |s.pipes| && p.origin < |s.hub.streams| && s.hub.streams[p.origin].device == p.device
      && Produced(s.pipes[p.origin], p.id, p.reply)
      && match p.phase
         case AtSession(i) => i < |s.hub.streams| && s.hub.streams[i].device == p.device && p.origin <= i
         case AtChannel(c) => Matched(s, p, c)
         case Delivered(c) => Matched(s, p, c)
         case _ => true
  }

  function Read(reply: Reply): Outcome {
    if reply.error != "" then Failure else Value(reply.result)
  }

  predicate ChannelOk(calls: seq<Call>, posts: seq<Post>, c: nat) {
    c < |calls| ==>
      var call := calls[c];
      && (call.channel.Some? ==> call.channel.value < |posts| && posts[call.channel.value].phase == Delivered(c))
      && (call.taken.Some? ==>
            && call.taken.value < |posts| && posts[call.taken.value].phase == Delivered(c)
            && call.outcome == Read(posts[call.taken.value].reply)
            && (call.phase == Cleaning || call.phase == Finished))
      && (call.outcome.Value? ==> call.taken.Some?)
  }

  ghost predicate Inv(s: State) {
    && R.Exact(s.hub) && |s.hub.streams| == |s.ledgers|
    && LedgersOk(s.ledgers, s.calls)
    && PipesOk(s.pipes, s.ledgers, s.calls)
    && (forall c: nat :: HomeOk(s, c))
    && (forall r: nat :: PostOk(s, r))
    && (forall c: nat :: ChannelOk(s.calls, s.posts, c))
  }

  /** What every step keeps of sessions and calls, as posts see them. */
  predicate Grows(s: State, n: State) {
    && s.clock < n.clock
    && |s.hub.streams| <= |n.hub.streams| && |s.pipes| <= |n.pipes| && |s.calls| <= |n.calls|
    && (forall i :: 0 <= i < |s.hub.streams| ==> n.hub.streams[i].device == s.hub.streams[i].device)
    && (forall i :: 0 <= i < |s.pipes| ==>
          s.pipes[i].executed <= n.pipes[i].executed && s.pipes[i].replies <= n.pipes[i].replies)
    && (forall c :: 0 <= c < |s.calls| && Numbered(s.calls[c]) ==> CallGrows(s.clock, s.calls[c], n.calls[c]))
  }

  predicate CallGrows(clock: nat, c: Call, c': Call) {
    && Numbered(c')
    && c'.id == c.id && c'.sid == c.sid && c'.device == c.device && c'.since == c.since
    && (c'.phase == Finished ==> c'.until == clock || (c.phase == Finished && c'.until == c.until))
  }

  predicate OnCalls(a: Action) {
    a.Lookup? || a.Number? || a.Queue? || a.Receive? || a.Abandon? || a.Forget? || a.Deliver?
  }

  lemma HubStepGrows(s: State, step: R.Step)
    requires Enabled(s, HubStep(step))
    ensures Grows(s, Next(s, HubStep(step)))
  {
  }

  lemma CallStepGrows(s: State, a: Action)
    requires Enabled(s, a) && OnCalls(a)
    ensures Grows(s, Next(s, a))
  {
  }

  lemma OtherStepGrows(s: State, a: Action)
    requires Enabled(s, a) && !OnCalls(a) && !a.HubStep?
    ensures Grows(s, Next(s, a)) && Next(s, a).calls == s.calls
  {
  }

  lemma StepGrows(s: State, a: Action)
    requires Enabled(s, a)
    ensures Grows(s, Next(s, a))
  {
    if a.HubStep? {
      HubStepGrows(s, a.step);
    } else if OnCalls(a) {
      CallStepGrows(s, a);
    } else {
      OtherStepGrows(s, a);
    }
  }

  lemma PostKept(s: State, n: State, r: nat)
    requires Grows(s, n) && PostOk(s, r) && r < |s.posts| && r < |n.posts| && n.posts[r] == s.posts[r]
    ensures PostOk(n, r)
  {
  }

  lemma HomesAfterLookup(s: State, d: R.Device, verb: string, params: string)
    requires Inv(s)
    ensures HomeOk(Next(s, Lookup(d, verb, params)), |s.calls|)
  {
  }

  lemma HomesStep(s: State, a: Action)
    requires Inv(s) && Enabled(s, a)
    ensures forall c: nat :: HomeOk(Next(s, a), c)
  {
    StepGrows(s, a);
    var n := Next(s, a);
    forall c: nat ensures HomeOk(n, c) {
      assert HomeOk(s, c);
      if c == |s.calls| && a.Lookup? {
        HomesAfterLookup(s, a.device, a.verb, a.params);
      }
    }
  }

  /** The registered session is the newest of its device, so a post never finds an older session
      than the one it came from. */
  lemma PostAfterFindSession(s: State, r: Rid)
    requires Inv(s) && Enabled(s, FindSession(r))
    ensures PostOk(Next(s, FindSession(r)), r)
  {
    assert PostOk(s, r);
    var p := s.posts[r];
    if p.device in s.hub.registered {
      var i := s.hub.registered[p.device];
      assert R.Registered(s.hub, i);
      assert R.Newest(s.hub, i);
    }
  }

  lemma PostAfterFindChannel(s: State, r: Rid)
    requires Inv(s) && Enabled(s, FindChannel(r))
    ensures PostOk(Next(s, FindChannel(r)), r)
  {
    assert PostOk(s, r);
    var i, id := s.posts[r].phase.sid, s.posts[r].id;
    if id in s.ledgers[i].pending {
      assert PendingOk(s.ledgers, i, id);
      assert EntryOk(s.ledgers, s.calls, i, id - 1);
      assert HomeOk(s, s.ledgers[i].roster[id - 1]);
      assert CallOk(s.ledgers, s.calls, s.ledgers[i].roster[id - 1]);
    }
  }

  lemma PostAfterHandle(s: State, i: Sid, k: nat, reply: Reply)
    requires Inv(s) && Enabled(s, Handle(i, k, reply))
    ensures PostOk(Next(s, Handle(i, k, reply)), |s.posts|)
  {
    var n := Next(s, Handle(i, k, reply));
    var q := n.pipes[i];
    assert |s.pipes[i].executed| == |s.pipes[i].replies|;
    assert q.executed[|q.executed| - 1].id == s.pipes[i].tasks[k].id && q.replies[|q.executed| - 1] == reply;
  }

  /** Delivery and loss change nothing but the post's phase and the call's channel. */
  lemma PostAfterSettling(s: State, a: Action, r: Rid)
    requires Inv(s) && Enabled(s, a) && (a == Deliver(r) || a == LosePost(r))
    ensures PostOk(Next(s, a), r)
  {
    assert PostOk(s, r);
  }

  lemma PostStep(s: State, a: Action, r: Rid)
    requires Inv(s) && Enabled(s, a) && r < |Next(s, a).posts|
    requires r < |s.posts| ==> Next(s, a).posts[r] != s.posts[r]
    ensures PostOk(Next(s, a), r)
  {
    match a
    case FindSession(_) => PostAfterFindSession(s, r);
    case FindChannel(_) => PostAfterFindChannel(s, r);
    case Handle(i, k, reply) => PostAfterHandle(s, i, k, reply);
    case DuplicatePost(q) => assert PostOk(s, q);
    case Deliver(_) => PostAfterSettling(s, a, r);
    case LosePost(_) => PostAfterSettling(s, a, r);
    case _ =>
  }

  lemma PostsStep(s: State, a: Action)
    requires Inv(s) && Enabled(s, a)
    ensures forall r: nat :: PostOk(Next(s, a), r)
  {
    StepGrows(s, a);
    forall r: nat ensures PostOk(Next(s, a), r) {
      if r < |s.posts| && r < |Next(s, a).posts| && Next(s, a).posts[r] == s.posts[r] {
        assert PostOk(s, r);
        PostKept(s, Next(s, a), r);
      } else if r < |Next(s, a).posts| {
        PostStep(s, a, r);
      }
    }
  }

  lemma ChannelsAfterCallStep(s: State, a: Action)
    requires Enabled(s, a) && OnCalls(a) && forall c: nat :: ChannelOk(s.calls, s.posts, c)
    ensures forall c: nat :: ChannelOk(Next(s, a).calls, Next(s, a).posts, c)
  {
    var calls', posts' := Next(s, a).calls, Next(s, a).posts;
    forall c: nat ensures ChannelOk(calls', posts', c) {
      assert ChannelOk(s.calls, s.posts, c);
    }
  }

  lemma ChannelsAfterOtherStep(s: State, a: Action)
    requires Enabled(s, a) && !OnCalls(a) && forall c: nat :: ChannelOk(s.calls, s.posts, c)
    ensures forall c: nat :: ChannelOk(Next(s, a).calls, Next(s, a).posts, c)
  {
    var calls', posts' := Next(s, a).calls, Next(s, a).posts;
    forall c: nat ensures ChannelOk(calls', posts', c) {
      assert ChannelOk(s.calls, s.posts, c);
    }
  }

  lemma HubStateStep(s: State, a: Action)
    requires Inv(s) && Enabled(s, a)
    ensures R.Exact(Next(s, a).hub) && |Next(s, a).hub.streams| == |Next(s, a).ledgers|
  {
    if a.HubStep? {
      R.ExactStep(s.hub, a.step);
      R.DevicesKept(s.hub, a.step);
    }
  }

  lemma InvStep(s: State, a: Action)
    requires Inv(s) && Enabled(s, a)
    ensures Inv(Next(s, a))
  {
    HubStateStep(s, a);
    LedgersStep(s, a);
    PipesStep(s, a);
    HomesStep(s, a);
    PostsStep(s, a);
    if OnCalls(a) {
      ChannelsAfterCallStep(s, a);
    } else {
      ChannelsAfterOtherStep(s, a);
    }
  }

  lemma {:induction false} InvAlways(s: State, run: seq<Action>)
    requires Inv(s) && IsRun(s, run)
    ensures Inv(After(s, run))
    decreases |run|
  {
    if run != [] {
      InvStep(s, run[0]);
      InvAlways(Next(s, run[0]), run[1..]);
    }
  }

  // ---- End-to-end correlation ----

  /** A successful call returns the result of a reply that bears its own id and comes from its own
      device, that was matched to it while it was pending, and that no other call received. */
  lemma {:induction false} Correlation(run: seq<Action>, c: Cid)
    requires IsRun(INITIAL, run)
    requires c < |After(INITIAL, run).calls| && After(INITIAL, run).calls[c].outcome.Value?
    ensures var s := After(INITIAL, run);
            var call := s.calls[c];
            && call.taken.Some? && call.taken.value < |s.posts|
            && var p := s.posts[call.taken.value];
               && p.id == call.id && p.device == call.device && p.reply == Reply(call.outcome.result, "")
               && call.since < p.resolvedAt && (call.phase == Finished ==> p.resolvedAt < call.until)
               && (forall e :: 0 <= e < |s.calls| && e != c ==> s.calls[e].taken != call.taken)
  {
    InvAlways(INITIAL, run);
    var s := After(INITIAL, run);
    assert ChannelOk(s.calls, s.posts, c);
    assert PostOk(s, s.calls[c].taken.value);
    forall e | 0 <= e < |s.calls| && e != c ensures s.calls[e].taken != s.calls[c].taken {
      assert ChannelOk(s.calls, s.posts, e);
    }
  }

  /** The runner handled exactly this command, once, and got `reply`; nothing of it is left
      anywhere on the way. */
  predicate HandledOnce(p: Pipe, cmd: Command, reply: Reply) {
    && cmd !in p.outbox && cmd !in p.wire && cmd !in p.tasks
    && exists k :: 0 <= k < |p.executed| && k < |p.replies| && p.executed[k] == cmd && p.replies[k] == reply
                   && forall j :: 0 <= j < |p.executed| && p.executed[j].id == cmd.id ==> j == k
  }

  lemma CountsTwice<T>(q: seq<T>, j: nat, k: nat)
    requires j < k < |q| && q[j] == q[k]
    ensures multiset(q)[q[k]] >= 2
  {
    assert q == q[..k] + [q[k]] + q[k + 1..];
    assert q[j] in q[..k];
  }

  /** In any session, the handler run that finished under a call's number ran that call's command. */
  lemma OwnCommand(s: State, c: Cid, reply: Reply)
    requires Inv(s) && c < |s.calls| && Numbered(s.calls[c])
    requires s.calls[c].sid < |s.pipes| && Produced(s.pipes[s.calls[c].sid], s.calls[c].id, reply)
    ensures HandledOnce(s.pipes[s.calls[c].sid], CommandOf(s.calls[c]), reply)
  {
    var i := s.calls[c].sid;
    var p := s.pipes[i];
    var cmd := CommandOf(s.calls[c]);
    var k :| 0 <= k < |p.executed| && k < |p.replies| && p.executed[k].id == s.calls[c].id && p.replies[k] == reply;
    assert CallOk(s.ledgers, s.calls, c);
    forall j | 0 <= j < |p.executed| && p.executed[j].id == cmd.id ensures p.executed[j] == cmd {
      assert CommandOk(s.pipes, s.ledgers, s.calls, i, p.executed[j]);
    }
    assert CommandOk(s.pipes, s.ledgers, s.calls, i, cmd);
    assert cmd in multiset(p.executed);
    forall j | 0 <= j < |p.executed| && p.executed[j].id == cmd.id ensures j == k {
      if j < k {
        CountsTwice(p.executed, j, k);
      } else if k < j {
        CountsTwice(p.executed, k, j);
      }
    }
  }

  /** Where a successful call's value comes from: either its reply was posted from the call's own
      session, and then the runner handled that very command exactly once and this is what it
      produced; or it was posted from an earlier session of the device, and answers the command of
      another call that had the same number there. */
  lemma {:induction false} Provenance(run: seq<Action>, c: Cid)
    requires IsRun(INITIAL, run)
    requires c < |After(INITIAL, run).calls| && After(INITIAL, run).calls[c].outcome.Value?
    ensures var s := After(INITIAL, run);
            var call := s.calls[c];
            && call.taken.Some? && call.taken.value < |s.posts| && call.sid < |s.pipes|
            && var p := s.posts[call.taken.value];
               && p.origin < |s.pipes|
               && (p.origin == call.sid ==> HandledOnce(s.pipes[call.sid], CommandOf(call), Reply(call.outcome.result, "")))
               && (p.origin != call.sid ==>
                     && p.origin < call.sid
                     && exists e :: 0 <= e < |s.calls| && e != c && s.calls[e].sid == p.origin
                                    && s.calls[e].id == call.id && s.calls[e].device == call.device
                                    && HandledOnce(s.pipes[p.origin], CommandOf(s.calls[e]), p.reply))
  {
    InvAlways(INITIAL, run);
    var s := After(INITIAL, run);
    assert ChannelOk(s.calls, s.posts, c);
    var p := s.posts[s.calls[c].taken.value];
    assert PostOk(s, s.calls[c].taken.value);
    assert HomeOk(s, c);
    if p.origin == s.calls[c].sid {
      OwnCommand(s, c, p.reply);
    } else {
      var e := ForeignCall(s, p);
      assert HomeOk(s, e);
      OwnCommand(s, e, p.reply);
    }
  }

  lemma ForeignCall(s: State, p: Post) returns (e: Cid)
    requires Inv(s) && p.origin < |s.pipes| && Produced(s.pipes[p.origin], p.id, p.reply)
    ensures e < |s.calls| && Numbered(s.calls[e]) && s.calls[e].sid == p.origin && s.calls[e].id == p.id
  {
    var q := s.pipes[p.origin];
    var k :| 0 <= k < |q.executed| && k < |q.replies| && q.executed[k].id == p.id && q.replies[k] == p.reply;
    assert q.executed[k] in multiset(q.executed);
    assert CommandOk(s.pipes, s.ledgers, s.calls, p.origin, q.executed[k]);
    e := s.ledgers[p.origin].roster[p.id - 1];
    assert EntryOk(s.ledgers, s.calls, p.origin, p.id - 1);
  }

  /** No reply outlives its session: whenever a post finds a session, it is the one whose stream
      carried the command. */
  predicate NoReplyOutlives(s: State, run: seq<Action>)
    requires IsRun(s, run)
    decreases |run|
  {
    run != [] ==>
      && (run[0].FindSession? ==>
            var p := s.posts[run[0].rid];
            p.device in s.hub.registered ==> s.hub.registered[p.device] == p.origin)
      && NoReplyOutlives(Next(s, run[0]), run[1..])
  }

  predicate PostHome(s: State, r: nat) {
    r < |s.posts| ==>
      match s.posts[r].phase
      case AtSession(i) => i == s.posts[r].origin
      case AtChannel(c) => c < |s.calls| && s.calls[c].sid == s.posts[r].origin
      case Delivered(c) => c < |s.calls| && s.calls[c].sid == s.posts[r].origin
      case _ => true
  }

  lemma PostHomeAfterFindChannel(s: State, r: Rid)
    requires Inv(s) && Enabled(s, FindChannel(r)) && PostHome(s, r)
    ensures PostHome(Next(s, FindChannel(r)), r)
  {
    var i, id := s.posts[r].phase.sid, s.posts[r].id;
    if id in s.ledgers[i].pending {
      assert PendingOk(s.ledgers, i, id);
      assert EntryOk(s.ledgers, s.calls, i, id - 1);
    }
  }

  /** Posts keep their phase, or move along the route; calls keep their session. */
  lemma RouteStep(s: State, a: Action, r: Rid)
    requires Enabled(s, a) && r < |Next(s, a).posts|
    requires a != FindSession(r) && a != FindChannel(r)
    ensures r < |s.posts| ==>
              || Next(s, a).posts[r] == s.posts[r]
              || (s.posts[r].phase.AtChannel? && Next(s, a).posts[r] == s.posts[r].(phase := Delivered(s.posts[r].phase.cid)))
              || Next(s, a).posts[r].phase == Dropped
    ensures r >= |s.posts| ==> Next(s, a).posts[r].phase == InFlight
  {
  }

  lemma PostHomeStep(s: State, a: Action, r: Rid)
    requires Inv(s) && Enabled(s, a) && PostHome(s, r) && r < |Next(s, a).posts|
    requires a.FindSession? ==>
               var p := s.posts[a.rid];
               p.device in s.hub.registered ==> s.hub.registered[p.device] == p.origin
    ensures PostHome(Next(s, a), r)
  {
    StepGrows(s, a);
    if a == FindChannel(r) {
      PostHomeAfterFindChannel(s, r);
    } else if a != FindSession(r) {
      RouteStep(s, a, r);
      assert PostOk(s, r);
    }
  }

  lemma {:induction false} PostHomeAlways(s: State, run: seq<Action>)
    requires Inv(s) && IsRun(s, run) && NoReplyOutlives(s, run) && forall r: nat :: PostHome(s, r)
    ensures forall r: nat :: PostHome(After(s, run), r)
    decreases |run|
  {
    if run != [] {
      var n := Next(s, run[0]);
      forall r: nat ensures PostHome(n, r) {
        assert PostHome(s, r);
        if r < |n.posts| {
          PostHomeStep(s, run[0], r);
        }
      }
      InvStep(s, run[0]);
      PostHomeAlways(n, run[1..]);
    }
  }

  /** If no reply outlives its session, every successful call's command was handled exactly once,
      and its value is what that handling produced. */
  lemma {:induction false} ExactlyOnce(run: seq<Action>, c: Cid)
    requires IsRun(INITIAL, run) && NoReplyOutlives(INITIAL, run)
    requires c < |After(INITIAL, run).calls| && After(INITIAL, run).calls[c].outcome.Value?
    ensures var s := After(INITIAL, run);
            && s.calls[c].sid < |s.pipes|
            && HandledOnce(s.pipes[s.calls[c].sid], CommandOf(s.calls[c]), Reply(s.calls[c].outcome.result, ""))
  {
    PostHomeAlways(INITIAL, run);
    InvAlways(INITIAL, run);
    Provenance(run, c);
    var s := After(INITIAL, run);
    assert ChannelOk(s.calls, s.posts, c);
    assert PostHome(s, s.calls[c].taken.value);
  }

  // ---- The outbox ----

  predicate Bounded(s: State) {
    forall i :: 0 <= i < |s.pipes| ==> |s.pipes[i].outbox| <= 16
  }

  lemma BoundedStep(s: State, a: Action)
    requires Bounded(s) && Enabled(s, a)
    ensures Bounded(Next(s, a))
  {
  }

  lemma {:induction false} BoundedAlong(s: State, run: seq<Action>)
    requires Bounded(s) && IsRun(s, run)
    ensures Bounded(After(s, run))
    decreases |run|
  {
    if run != [] {
      BoundedStep(s, run[0]);
      BoundedAlong(Next(s, run[0]), run[1..]);
    }
  }

  /** In every run a session holds at most sixteen commands it has not written, and a call waits to queue
      its own exactly while there are as many. */
  lemma {:induction false} OutboxBounded(run: seq<Action>, c: Cid)
    requires IsRun(INITIAL, run) && c < |After(INITIAL, run).calls| && After(INITIAL, run).calls[c].phase == Queuing
    ensures var s := After(INITIAL, run);
            && s.calls[c].sid < |s.pipes| && |s.pipes[s.calls[c].sid].outbox| <= 16
            && (Enabled(s, Queue(c)) <==> |s.pipes[s.calls[c].sid].outbox| != 16)
  {
    BoundedAlong(INITIAL, run);
    InvAlways(INITIAL, run);
    assert CallOk(After(INITIAL, run).ledgers, After(INITIAL, run).calls, c);
  }

  predicate LeftLoop(s: State, i: Sid) {
    i < |s.hub.streams| && (s.hub.streams[i].phase == R.Exiting || s.hub.streams[i].phase == R.Gone)
  }

  lemma HeldStep(s: State, a: Action, i: Sid)
    requires Enabled(s, a) && LeftLoop(s, i) && i < |s.pipes|
    ensures LeftLoop(Next(s, a), i) && i < |Next(s, a).pipes| && s.pipes[i].outbox <= Next(s, a).pipes[i].outbox
  {
  }

  /** Once a stream has left its loop it writes no command any more: what was queued stays queued. */
  lemma {:induction false} NothingWrittenAfterExit(s: State, run: seq<Action>, i: Sid)
    requires IsRun(s, run) && LeftLoop(s, i) && i < |s.pipes|
    ensures i < |After(s, run).pipes| && s.pipes[i].outbox <= After(s, run).pipes[i].outbox
    decreases |run|
  {
    if run != [] {
      HeldStep(s, run[0], i);
      NothingWrittenAfterExit(Next(s, run[0]), run[1..], i);
    }
  }

  /** The network and the clock may do their worst at any time: a reply on its way can be lost, any reply
      can arrive again, frames can be cut off, and a call that waits can be given up. */
  lemma FaultsAtAnyTime(s: State, r: Rid, i: Sid, kept: nat, c: Cid)
    ensures r < |s.posts| ==>
              && Enabled(s, DuplicatePost(r)) && (Enabled(s, LosePost(r)) <==> s.posts[r].phase == InFlight)
              && Next(s, DuplicatePost(r)).posts == s.posts + [s.posts[r].(phase := InFlight, resolvedAt := 0)]
    ensures r < |s.posts| && s.posts[r].phase == InFlight ==>
              Next(s, LosePost(r)).posts == s.posts[r := s.posts[r].(phase := Dropped)]
    ensures i < |s.pipes| && kept < |s.pipes[i].wire| ==>
              Enabled(s, LoseFrames(i, kept)) && Next(s, LoseFrames(i, kept)).pipes[i].wire == s.pipes[i].wire[..kept]
    ensures c < |s.calls| && (s.calls[c].phase == Queuing || s.calls[c].phase == Waiting) ==>
              Enabled(s, Abandon(c)) && Next(s, Abandon(c)).calls[c].outcome == Failure
  {
  }

  // ---- The one-slot channel ----

  /** The reply waits in the call's channel or has been taken from it. */
  predicate Got(c: Call, r: Rid) {
    c.taken == Some(r) || (c.channel == Some(r) && c.taken == None)
  }

  lemma GotStep(s: State, a: Action, c: Cid, r: Rid)
    requires Enabled(s, a) && c < |s.calls| && Got(s.calls[c], r) && ChannelOk(s.calls, s.posts, c)
    ensures c < |Next(s, a).calls| && Got(Next(s, a).calls[c], r)
  {
  }

  lemma {:induction false} GotAlong(s: State, run: seq<Action>, c: Cid, r: Rid)
    requires Inv(s) && IsRun(s, run) && c < |s.calls| && Got(s.calls[c], r)
    ensures c < |After(s, run).calls| && Got(After(s, run).calls[c], r)
    decreases |run|
  {
    if run != [] {
      assert ChannelOk(s.calls, s.posts, c);
      GotStep(s, run[0], c, r);
      InvStep(s, run[0]);
      GotAlong(Next(s, run[0]), run[1..], c, r);
    }
  }

  /** The first reply that reaches a call's channel is the one it gets, if any: a later one finds the slot
      full, and is dropped without a trace. */
  lemma {:induction false} FirstReplyWins(run: seq<Action>, rest: seq<Action>, r: Rid)
    requires IsRun(INITIAL, run) && Enabled(After(INITIAL, run), Deliver(r))
    ensures var s := After(INITIAL, run);
            var n, c := Next(s, Deliver(r)), s.posts[r].phase.cid;
            if s.calls[c].channel.None? then n.posts[r].phase == Delivered(c) && n.calls[c].channel == Some(r)
            else n.posts == s.posts[r := s.posts[r].(phase := Dropped)] && n.calls == s.calls
    ensures var s := After(INITIAL, run);
            var n, c := Next(s, Deliver(r)), s.posts[r].phase.cid;
            IsRun(n, rest) && s.calls[c].channel.None? && s.calls[c].taken.None? ==>
              var t := After(n, rest); c < |t.calls| && (t.calls[c].taken == Some(r) || t.calls[c].taken == None)
  {
    InvAlways(INITIAL, run);
    var s := After(INITIAL, run);
    var n, c := Next(s, Deliver(r)), s.posts[r].phase.cid;
    if IsRun(n, rest) && s.calls[c].channel.None? && s.calls[c].taken.None? {
      InvStep(s, Deliver(r));
      GotAlong(n, rest, c, r);
    }
  }

  // ---- Calls without a session ----

  /** The call is the one that was made, and has its session for good, or none. */
  predicate FatedTo(c: Call, d: R.Device, verb: string, params: string, sid: Option<Sid>) {
    && c.device == d && c.verb == verb && c.params == params
    && if sid.Some? then c.phase != Offline && c.sid == sid.value
       else c.phase == Offline && c.outcome == Failure && c.taken == None
  }

  lemma FatedStep(s: State, a: Action, c: Cid, d: R.Device, verb: string, params: string, sid: Option<Sid>)
    requires Enabled(s, a) && c < |s.calls| && FatedTo(s.calls[c], d, verb, params, sid)
    ensures c < |Next(s, a).calls| && FatedTo(Next(s, a).calls[c], d, verb, params, sid)
  {
  }

  lemma {:induction false} FatedAlong(s: State, run: seq<Action>, c: Cid, d: R.Device, verb: string, params: string, sid: Option<Sid>)
    requires IsRun(s, run) && c < |s.calls| && FatedTo(s.calls[c], d, verb, params, sid)
    ensures c < |After(s, run).calls| && FatedTo(After(s, run).calls[c], d, verb, params, sid)
    decreases |run|
  {
    if run != [] {
      FatedStep(s, run[0], c, d, verb, params, sid);
      FatedAlong(Next(s, run[0]), run[1..], c, d, verb, params, sid);
    }
  }

  /** A call can be made at any time. To a device without a registered session it has failed from then on,
      whatever dials in later; to any other it stays with the session that is registered at that moment. */
  lemma {:induction false} CallGoesToRegistered(run: seq<Action>, rest: seq<Action>, d: R.Device, verb: string, params: string)
    requires IsRun(INITIAL, run)
    ensures Enabled(After(INITIAL, run), Lookup(d, verb, params))
    ensures IsRun(Next(After(INITIAL, run), Lookup(d, verb, params)), rest) ==>
              var s := After(INITIAL, run);
              var t := After(Next(s, Lookup(d, verb, params)), rest);
              |s.calls| < |t.calls|
              && FatedTo(t.calls[|s.calls|], d, verb, params, if d in s.hub.registered then Some(s.hub.registered[d]) else None)
  {
    var s := After(INITIAL, run);
    var n := Next(s, Lookup(d, verb, params));
    if IsRun(n, rest) {
      FatedAlong(n, rest, |s.calls|, d, verb, params, if d in s.hub.registered then Some(s.hub.registered[d]) else None);
    }
  }

  // ---- A reply that outlives its session ----

  /** A screenshot is handled and its reply is in flight. */
  function Asked(d: R.Device): State {
    State(8, R.Registry([R.Stream(d, R.Serving, false)], map[d := 0], {}, map[d := (0, true)]),
          [Ledger([0], map[1 := 0])],
          [Pipe([], [], [], [Command(1, "screenshot", "")], [Reply("old", "")])],
          [Call(d, "screenshot", "", Waiting, 0, 1, None, None, Undecided, 3, 0)],
          [Post(d, 0, 1, Reply("old", ""), InFlight, 0)])
  }

  /** Its caller has given up, the runner has dialled in again, and another call waits. */
  function Redialled(d: R.Device): State {
    State(14, R.Registry([R.Stream(d, R.Serving, true), R.Stream(d, R.Opening, false)], map[d := 1], {}, map[d := (0, true)]),
          [Ledger([0], map[]), Ledger([1], map[1 := 1])],
          [Pipe([], [], [], [Command(1, "screenshot", "")], [Reply("old", "")]),
           Pipe([Command(1, "open_app", "")], [], [], [], [])],
          [Call(d, "screenshot", "", Finished, 0, 1, None, None, Failure, 3, 9),
           Call(d, "open_app", "", Waiting, 1, 1, None, None, Undecided, 12, 0)],
          [Post(d, 0, 1, Reply("old", ""), InFlight, 0)])
  }

  function Started(d: R.Device): State {
    State(4, R.Registry([R.Stream(d, R.Serving, false)], map[d := 0], {}, map[d := (0, true)]),
          [Ledger([0], map[1 := 0])], [Pipe([], [], [], [], [])],
          [Call(d, "screenshot", "", Queuing, 0, 1, None, None, Undecided, 3, 0)], [])
  }

  function Carried(d: R.Device): State {
    Started(d).(clock := 6, pipes := [Pipe([], [Command(1, "screenshot", "")], [], [], [])], calls := Asked(d).calls)
  }

  function GivenUp(d: R.Device): State {
    Asked(d).(clock := 11,
              hub := Redialled(d).hub,
              ledgers := [Ledger([0], map[]), Ledger([], map[])],
              pipes := Asked(d).pipes + [Pipe([], [], [], [], [])],
              calls := [Redialled(d).calls[0]])
  }

  function Dialled(d: R.Device): State {
    State(2, R.Registry([R.Stream(d, R.Serving, false)], map[d := 0], {}, map[d := (0, true)]),
          [Ledger([], map[])], [Pipe([], [], [], [], [])], [], [])
  }

  lemma Dial(d: R.Device, rest: seq<Action>) returns (run: seq<Action>)
    requires IsRun(Dialled(d), rest)
    ensures IsRun(INITIAL, run) && After(INITIAL, run) == After(Dialled(d), rest)
  {
    var s1 := Next(INITIAL, HubStep(R.Connect(d)));
    var n := Next(s1, HubStep(R.FireOnline(0)));
    assert n.hub.streams == Dialled(d).hub.streams;
    assert n.hub.registered == Dialled(d).hub.registered;
    assert n.hub.lastCallback == Dialled(d).hub.lastCallback;
    assert n.ledgers == Dialled(d).ledgers && n.pipes == Dialled(d).pipes;
    run := rest;
    RunFrom(s1, HubStep(R.FireOnline(0)), run);
    run := [HubStep(R.FireOnline(0))] + run;
    RunFrom(INITIAL, HubStep(R.Connect(d)), run);
    run := [HubStep(R.Connect(d))] + run;
  }

  lemma Start(d: R.Device, rest: seq<Action>) returns (run: seq<Action>)
    requires IsRun(Started(d), rest)
    ensures IsRun(INITIAL, run) && After(INITIAL, run) == After(Started(d), rest)
  {
    var s1 := Next(Dialled(d), Lookup(d, "screenshot", ""));
    var n := Next(s1, Number(0));
    assert n.ledgers[0].pending == Started(d).ledgers[0].pending;
    assert n.ledgers[0].roster == Started(d).ledgers[0].roster;
    assert n.ledgers == Started(d).ledgers;
    assert n.calls == Started(d).calls;
    run := rest;
    RunFrom(s1, Number(0), run);
    run := [Number(0)] + run;
    RunFrom(Dialled(d), Lookup(d, "screenshot", ""), run);
    run := [Lookup(d, "screenshot", "")] + run;
    run := Dial(d, run);
  }

  lemma Carry(d: R.Device, rest: seq<Action>) returns (run: seq<Action>)
    requires IsRun(Carried(d), rest)
    ensures IsRun(Started(d), run) && After(Started(d), run) == After(Carried(d), rest)
  {
    var s1 := Next(Started(d), Queue(0));
    var n := Next(s1, WriteFrame(0));
    assert n.pipes[0].outbox == Carried(d).pipes[0].outbox;
    assert n.pipes[0].wire == Carried(d).pipes[0].wire;
    assert n.pipes == Carried(d).pipes;
    assert n.calls == Carried(d).calls;
    run := rest;
    RunFrom(s1, WriteFrame(0), run);
    run := [WriteFrame(0)] + run;
    RunFrom(Started(d), Queue(0), run);
    run := [Queue(0)] + run;
  }

  lemma Answer(d: R.Device, rest: seq<Action>) returns (run: seq<Action>)
    requires IsRun(Asked(d), rest)
    ensures IsRun(Carried(d), run) && After(Carried(d), run) == After(Asked(d), rest)
  {
    var s1 := Next(Carried(d), TakeFrame(0));
    var n := Next(s1, Handle(0, 0, Reply("old", "")));
    assert n.pipes[0].wire == Asked(d).pipes[0].wire;
    assert n.pipes[0].tasks == Asked(d).pipes[0].tasks;
    assert n.pipes[0].executed == Asked(d).pipes[0].executed;
    assert n.pipes[0].replies == Asked(d).pipes[0].replies;
    assert n.pipes == Asked(d).pipes;
    assert n.posts == Asked(d).posts;
    run := rest;
    RunFrom(s1, Handle(0, 0, Reply("old", "")), run);
    run := [Handle(0, 0, Reply("old", ""))] + run;
    RunFrom(Carried(d), TakeFrame(0), run);
    run := [TakeFrame(0)] + run;
  }

  lemma GiveUp(d: R.Device, rest: seq<Action>) returns (run: seq<Action>)
    requires IsRun(GivenUp(d), rest)
    ensures IsRun(Asked(d), run) && After(Asked(d), run) == After(GivenUp(d), rest)
  {
    var s1 := Next(Asked(d), Abandon(0));
    var s2 := Next(s1, Forget(0));
    assert Next(s2, HubStep(R.Connect(d))) == GivenUp(d);
    run := rest;
    RunFrom(s2, HubStep(R.Connect(d)), run);
    run := [HubStep(R.Connect(d))] + run;
    RunFrom(s1, Forget(0), run);
    run := [Forget(0)] + run;
    RunFrom(Asked(d), Abandon(0), run);
    run := [Abandon(0)] + run;
  }

  lemma AskAgain(d: R.Device, rest: seq<Action>) returns (run: seq<Action>)
    requires IsRun(Redialled(d), rest)
    ensures IsRun(GivenUp(d), run) && After(GivenUp(d), run) == After(Redialled(d), rest)
  {
    var s1 := Next(GivenUp(d), Lookup(d, "open_app", ""));
    var s2 := Next(s1, Number(1));
    var n := Next(s2, Queue(1));
    assert n.ledgers[1].roster == Redialled(d).ledgers[1].roster;
    assert n.ledgers[1].pending == Redialled(d).ledgers[1].pending;
    assert n.ledgers == Redialled(d).ledgers;
    assert n.pipes[1].outbox == Redialled(d).pipes[1].outbox;
    assert n.pipes == Redialled(d).pipes;
    assert n.calls == Redialled(d).calls;
    run := rest;
    RunFrom(s2, Queue(1), run);
    run := [Queue(1)] + run;
    RunFrom(s1, Number(1), run);
    run := [Number(1)] + run;
    RunFrom(GivenUp(d), Lookup(d, "open_app", ""), run);
    run := [Lookup(d, "open_app", "")] + run;
  }

  function Mistaken(d: R.Device): State {
    Redialled(d).(clock := 16, posts := [Post(d, 0, 1, Reply("old", ""), AtChannel(1), 15)])
  }

  lemma Mistake(d: R.Device, rest: seq<Action>) returns (run: seq<Action>)
    requires IsRun(Mistaken(d), rest)
    ensures IsRun(Redialled(d), run) && After(Redialled(d), run) == After(Mistaken(d), rest)
  {
    var s1 := Next(Redialled(d), FindSession(0));
    var n := Next(s1, FindChannel(0));
    assert n.posts == Mistaken(d).posts;
    run := rest;
    RunFrom(s1, FindChannel(0), run);
    run := [FindChannel(0)] + run;
    RunFrom(Redialled(d), FindSession(0), run);
    run := [FindSession(0)] + run;
  }

  lemma Mismatch(d: R.Device) returns (run: seq<Action>)
    ensures IsRun(Mistaken(d), run)
    ensures var s := After(Mistaken(d), run);
            && |s.calls| == 2 && s.calls[1].verb == "open_app" && s.calls[1].outcome == Value("old")
            && |s.pipes| == 2 && s.pipes[1].executed == [] && s.calls[1].sid == 1
  {
    var s1 := Next(Mistaken(d), Deliver(0));
    run := [];
    RunFrom(s1, Receive(1), run);
    run := [Receive(1)] + run;
    RunFrom(Mistaken(d), Deliver(0), run);
    run := [Deliver(0)] + run;
  }

  /** Numbers restart with every session, so a reply that outlives its session can be taken for
      the answer to another command: here `open_app` succeeds with the screenshot's result although
      its session has handled nothing. */
  lemma StaleReplyAnswersNextSession(d: R.Device) returns (run: seq<Action>)
    ensures IsRun(INITIAL, run) && !NoReplyOutlives(INITIAL, run)
    ensures var s := After(INITIAL, run);
            && |s.calls| == 2 && s.calls[1].verb == "open_app" && s.calls[1].outcome == Value("old")
            && |s.pipes| == 2 && s.pipes[1].executed == [] && s.calls[1].sid == 1
  {
    run := Mismatch(d);
    run := Mistake(d, run);
    run := AskAgain(d, run);
    run := GiveUp(d, run);
    run := Answer(d, run);
    run := Carry(d, run);
    run := Start(d, run);
    if NoReplyOutlives(INITIAL, run) {
      ExactlyOnce(run, 1);
    }
  }

  /** A session's matching state as the program holds it. Each method is one lock region. */
  class Session {
    var seqNo: nat
    var pending: map<nat, Cid>
    ghost var roster: seq<Cid>

    ghost function View(): Ledger
      reads this
    {
      Ledger(roster, pending)
    }

    ghost predicate Valid()
      reads this
    {
      && seqNo == |roster|
      && forall id :: id in pending ==> 1 <= id <= seqNo && pending[id] == roster[id - 1]
    }

    constructor ()
      ensures Valid() && View() == Ledger([], map[])
    {
      seqNo, pending, roster := 0, map[], [];
    }

    method Enter(c: Cid) returns (id: nat)
      requires Valid()
      modifies this
      ensures Valid() && View() == Entered(old(View()), c)
      ensures id !in old(pending) && id in pending && pending[id] == c
    {
      seqNo := seqNo + 1;
      id := seqNo;
      pending := pending[id := c];
      roster := roster + [c];
    }

    method Erase(id: nat)
      requires Valid()
      modifies this
      ensures Valid() && View() == Erased(old(View()), id)
    {
      pending := pending - {id};
    }

    /** The channel lookup of `resolve`: whatever comes back is the call that got this number. */
    method Find(id: nat) returns (c: Option<Cid>)
      requires Valid()
      ensures c == if id in pending then Some(pending[id]) else None
      ensures c.Some? ==> 1 <= id <= |roster| && c.value == roster[id - 1]
    {
      c := if id in pending then Some(pending[id]) else None;
    }
  }
}
