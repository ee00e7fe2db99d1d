/** Installing a build on a desktop, on the runner's side: the appliance asks the runner to install and
    then polls, because an installer outlasts the tunnel's call timeout. Requests, installers and
    restarts of the runner interleave freely; how requests and polls reach it is the tunnel's matter. */
module Install {

  type Build = string

  /** What the runner keeps per build. */
  datatype Progress = Progress(done: bool, err: string)

  datatype Status = Unknown | Installing | Done | Failed(detail: string)

  /** The status a poll reports. */
  function StatusOf(installs: map<Build, Progress>, b: Build): Status {
    if b !in installs then Unknown
    else if installs[b].err != "" then Failed(installs[b].err)
    else if installs[b].done then Done
    else Installing
  }

  /** How an installer ended, if it has. */
  datatype Ending = Pending | Success | Failure(message: string)

  /** An install started by the current runner process. */
  datatype Job = Job(build: Build, ending: Ending)

  function Recorded(p: Progress, e: Ending): Progress {
    match e
    case Pending => p
    case Success => p.(done := true)
    case Failure(message) => p.(err := message)
  }

  /** `jobs` are the installs of this process in the order they were started; `succeeded` collects
      the builds whose installer has ever returned without an error, in this process or an earlier one. */
  datatype State = State(installs: map<Build, Progress>, jobs: seq<Job>, succeeded: set<Build>)

  datatype Action =
    | InstallApp(build: Build)
    | End(job: nat, ending: Ending)
    | Restart

  predicate Enabled(s: State, a: Action) {
    match a
    case InstallApp(b) => b != ""
    case End(j, e) => j < |s.jobs| && s.jobs[j].ending.Pending? && !e.Pending?
    case Restart => true
  }

  /** The request as the runner handles it: one install per build, however often it is asked for. */
  function Requested(s: State, b: Build): State {
    if b in s.installs then s
    else s.(installs := s.installs[b := Progress(false, "")], jobs := s.jobs + [Job(b, Pending)])
  }

  function Ended(s: State, j: nat, e: Ending): State
    requires j < |s.jobs|
  {
    var b := s.jobs[j].build;
    s.(installs := if b in s.installs then s.installs[b := Recorded(s.installs[b], e)] else s.installs, jobs := s.jobs[j := s.jobs[j].(ending := e)],
       succeeded := if e.Success? then s.succeeded + {b} else s.succeeded)
  }

  function Apply(s: State, a: Action): State
    requires Enabled(s, a)
  {
    match a
    case InstallApp(b) => Requested(s, b)
    case End(j, e) => Ended(s, j, e)
    case Restart => s.(installs := map[], jobs := [])
  }

  // ---- What every step keeps ----

  /** A build is installed at most once per process. */
  predicate OneJobPerBuild(jobs: seq<Job>) {
    forall i, j :: 0 <= i < j < |jobs| ==> jobs[i].build != jobs[j].build
  }

  /** The progress of a build is exactly how its one job ended. */
  predicate JobOk(installs: map<Build, Progress>, job: Job) {
    job.build in installs && installs[job.build] == Recorded(Progress(false, ""), job.ending)
  }

  predicate JobsOk(installs: map<Build, Progress>, jobs: seq<Job>) {
    forall j :: 0 <= j < |jobs| ==> JobOk(installs, jobs[j])
  }

  predicate HasJob(jobs: seq<Job>, b: Build) {
    exists j :: 0 <= j < |jobs| && jobs[j].build == b
  }

  predicate InstallsHaveJobs(installs: map<Build, Progress>, jobs: seq<Job>) {
    forall b :: b in installs ==> HasJob(jobs, b)
  }

  predicate SuccessOk(job: Job, succeeded: set<Build>) {
    job.ending.Success? ==> job.build in succeeded
  }

  predicate Inv(s: State) {
    && OneJobPerBuild(s.jobs) && JobsOk(s.installs, s.jobs) && InstallsHaveJobs(s.installs, s.jobs)
    && (forall j :: 0 <= j < |s.jobs| ==> SuccessOk(s.jobs[j], s.succeeded))
  }

  lemma DoneMeansInstalled(s: State, b: Build)
    requires Inv(s) && StatusOf(s.installs, b) == Done
    ensures b in s.succeeded
  {
  }

  lemma RequestKeeps(s: State, b: Build)
    requires Inv(s)
    ensures Inv(Requested(s, b))
  {
    if b !in s.installs {
      var s' := Requested(s, b);
      forall j | 0 <= j < |s'.jobs| ensures JobOk(s'.installs, s'.jobs[j]) && SuccessOk(s'.jobs[j], s.succeeded) {
        if j < |s.jobs| {
          assert JobOk(s.installs, s.jobs[j]) && SuccessOk(s.jobs[j], s.succeeded);
        }
      }
      forall d | d in s'.installs ensures HasJob(s'.jobs, d) {
        if d == b {
          assert s'.jobs[|s.jobs|].build == b;
        } else {
          assert HasJob(s.jobs, d);
          var j :| 0 <= j < |s.jobs| && s.jobs[j].build == d;
          assert s'.jobs[j].build == d;
        }
      }
      forall i, j | 0 <= i < j < |s'.jobs| ensures s'.jobs[i].build != s'.jobs[j].build {
        assert JobOk(s.installs, s.jobs[i]);
      }
    }
  }

  lemma EndKeeps(s: State, j: nat, e: Ending)
    requires Inv(s) && Enabled(s, End(j, e))
    ensures Inv(Ended(s, j, e))
  {
    var s' := Ended(s, j, e);
    var b := s.jobs[j].build;
    assert JobOk(s.installs, s.jobs[j]);
    forall i | 0 <= i < |s'.jobs| ensures JobOk(s'.installs, s'.jobs[i]) && SuccessOk(s'.jobs[i], s'.succeeded) {
      assert JobOk(s.installs, s.jobs[i]) && SuccessOk(s.jobs[i], s.succeeded);
      assert i != j ==> s.jobs[i].build != b;
    }
    forall d | d in s'.installs ensures HasJob(s'.jobs, d) {
      assert HasJob(s.jobs, d);
      var i :| 0 <= i < |s.jobs| && s.jobs[i].build == d;
      assert s'.jobs[i].build == d;
    }
  }

  lemma StepKeeps(s: State, a: Action)
    requires Inv(s) && Enabled(s, a)
    ensures Inv(Apply(s, a))
  {
    match a {
      case InstallApp(b) => RequestKeeps(s, b);
      case End(j, e) => EndKeeps(s, j, e);
      case Restart =>
    }
  }

  // ---- Whole runs ----

  ghost predicate IsRun(s: State, run: seq<Action>)
    decreases |run|
  {
    run == [] || (Enabled(s, run[0]) && IsRun(Apply(s, run[0]), run[1..]))
  }

  function After(s: State, run: seq<Action>): State
    requires IsRun(s, run)
    decreases |run|
  {
    if run == [] then s else After(Apply(s, run[0]), run[1..])
  }

  const IDLE := State(map[], [], {})

  lemma {:induction false} InvAlways(s: State, run: seq<Action>)
    requires Inv(s) && IsRun(s, run)
    ensures Inv(After(s, run))
    decreases |run|
  {
    if run != [] {
      StepKeeps(s, run[0]);
      InvAlways(Apply(s, run[0]), run[1..]);
    }
  }

  /** In every run a runner process starts at most one install per build. */
  lemma {:induction false} OneInstallPerBuild(run: seq<Action>)
    requires IsRun(IDLE, run)
    ensures OneJobPerBuild(After(IDLE, run).jobs)
  {
    InvAlways(IDLE, run);
  }

  // ---- What each request and each ending does to the statuses ----

  /** A request is accepted for any named build. A build nobody has heard of goes to installing with one
      new install under way; for any other, whatever became of it, the request changes nothing. */
  lemma {:induction false} RequestTakesHold(run: seq<Action>, b: Build, c: Build)
    requires IsRun(IDLE, run)
    ensures Enabled(After(IDLE, run), InstallApp(b)) <==> b != ""
    ensures b != "" ==>
              var s := After(IDLE, run);
              var n := Apply(s, InstallApp(b));
              if StatusOf(s.installs, b) == Unknown then
                && n.jobs == s.jobs + [Job(b, Pending)] && StatusOf(n.installs, b) == Installing
                && (c != b ==> StatusOf(n.installs, c) == StatusOf(s.installs, c)) && n.succeeded == s.succeeded
              else n == s
  {
  }

  /** Any install under way can end, once, and the end changes the status of its own build only: done, or
      failed with the installer's message. */
  lemma {:induction false} EndingTakesHold(run: seq<Action>, j: nat, e: Ending, c: Build)
    requires IsRun(IDLE, run)
    ensures Enabled(After(IDLE, run), End(j, e)) <==>
            j < |After(IDLE, run).jobs| && After(IDLE, run).jobs[j].ending == Pending && e != Pending
    ensures Enabled(After(IDLE, run), End(j, e)) ==>
              var s := After(IDLE, run);
              var n := Apply(s, End(j, e));
              var b := s.jobs[j].build;
              && n.jobs == s.jobs[j := Job(b, e)]
              && StatusOf(s.installs, b) == Installing
              && (e == Success ==> StatusOf(n.installs, b) == Done && n.succeeded == s.succeeded + {b})
              && (e.Failure? && e.message != "" ==> StatusOf(n.installs, b) == Failed(e.message))
              && (e == Failure("") ==> StatusOf(n.installs, b) == Installing)
              && (e != Success ==> n.succeeded == s.succeeded)
              && (c != b ==> StatusOf(n.installs, c) == StatusOf(s.installs, c))
  {
    InvAlways(IDLE, run);
    var s := After(IDLE, run);
    if Enabled(s, End(j, e)) {
      assert JobOk(s.installs, s.jobs[j]);
    }
  }

  /** A restart forgets every build. */
  lemma RestartForgets(s: State, b: Build)
    ensures Enabled(s, Restart)
    ensures var n := Apply(s, Restart); StatusOf(n.installs, b) == Unknown && n.jobs == [] && n.succeeded == s.succeeded
  {
  }

  // ---- The status only moves forward ----

  /** Unknown, then installing, then done or failed for good. */
  predicate Forward(a: Status, b: Status) {
    a == b || a == Unknown || (a == Installing && (b == Done || b.Failed?))
  }

  lemma ForwardTrans(a: Status, b: Status, c: Status)
    requires Forward(a, b) && Forward(b, c)
    ensures Forward(a, c)
  {
  }

  lemma StatusStep(s: State, a: Action, b: Build)
    requires Inv(s) && Enabled(s, a) && !a.Restart?
    ensures Forward(StatusOf(s.installs, b), StatusOf(Apply(s, a).installs, b))
  {
  }

  /** In every run of one process the status of a build only moves forward. */
  lemma {:induction false} StatusMovesForward(s: State, run: seq<Action>, b: Build)
    requires Inv(s) && IsRun(s, run) && forall i :: 0 <= i < |run| ==> !run[i].Restart?
    ensures Forward(StatusOf(s.installs, b), StatusOf(After(s, run).installs, b))
    decreases |run|
  {
    if run != [] {
      var next := Apply(s, run[0]);
      StepKeeps(s, run[0]);
      StatusStep(s, run[0], b);
      StatusMovesForward(next, run[1..], b);
      ForwardTrans(StatusOf(s.installs, b), StatusOf(next.installs, b), StatusOf(After(s, run).installs, b));
    }
  }

  /** What the status says about an install that has ended: exactly how it ended, unless it failed
      with an empty message. */
  lemma StatusTellsEnding(s: State, j: nat)
    requires Inv(s) && j < |s.jobs| && !s.jobs[j].ending.Pending?
    ensures var st, e := StatusOf(s.installs, s.jobs[j].build), s.jobs[j].ending;
            && (st == Done <==> e.Success?)
            && (st.Failed? <==> e.Failure? && e.message != "")
            && (st == Installing <==> e == Failure(""))
  {
  }

  /** An installer that failed with an empty message leaves its build installing for the rest of the
      process. */
  lemma {:induction false} EmptyMessageNeverEnds(s: State, run: seq<Action>, j: nat)
    requires Inv(s) && IsRun(s, run) && j < |s.jobs| && s.jobs[j].ending == Failure("")
    requires forall i :: 0 <= i < |run| ==> !run[i].Restart?
    ensures StatusOf(After(s, run).installs, s.jobs[j].build) == Installing
    decreases |run|
  {
    StatusTellsEnding(s, j);
    if run != [] {
      var next := Apply(s, run[0]);
      StepKeeps(s, run[0]);
      assert j < |next.jobs| && next.jobs[j] == s.jobs[j];
      EmptyMessageNeverEnds(next, run[1..], j);
    }
  }

  // ---- The two ends ----

  /** The runner's side; `jobs` lists the installs it has launched. */
  class Controller {
    var installs: map<Build, Progress>
    ghost var jobs: seq<Job>

    ghost predicate Valid()
      reads this
    {
      OneJobPerBuild(jobs) && JobsOk(installs, jobs) && InstallsHaveJobs(installs, jobs)
    }

    constructor ()
      ensures Valid() && installs == map[] && jobs == []
    {
      installs, jobs := map[], [];
    }

    /** `install_app`: `launched` says that an install goes off in the background. */
    method InstallApp(b: Build) returns (accepted: bool, launched: bool)
      requires Valid()
      modifies this
      ensures Valid() && accepted == (b != "") && launched == (accepted && b !in old(installs))
      ensures accepted ==> (var s := Requested(State(old(installs), old(jobs), {}), b); installs == s.installs && jobs == s.jobs)
      ensures !accepted ==> installs == old(installs) && jobs == old(jobs)
    {
      if b == "" {
        return false, false;
      }
      RequestKeeps(State(installs, jobs, AllBuilds(jobs)), b);
      launched := b !in installs;
      if launched {
        installs := installs[b := Progress(false, "")];
        jobs := jobs + [Job(b, Pending)];
      }
      return true, launched;
    }

    method InstallStatus(b: Build) returns (st: Status)
      ensures st == StatusOf(installs, b)
      ensures st == Unknown <==> b !in installs
      ensures b in installs ==>
                && (st == Done <==> installs[b].done && installs[b].err == "") && (st == Installing <==> !installs[b].done && installs[b].err == "")
                && (installs[b].err != "" ==> st == Failed(installs[b].err))
    {
      if b !in installs {
        return Unknown;
      }
      if installs[b].err != "" {
        return Failed(installs[b].err);
      }
      if installs[b].done {
        return Done;
      }
      return Installing;
    }

    /** The end of a background install. */
    method DoInstall(ghost j: nat, b: Build, failure: bool, message: string)
      requires Valid() && j < |jobs| && jobs[j] == Job(b, Pending)
      modifies this
      ensures Valid() && jobs == old(jobs)[j := Job(b, if failure then Failure(message) else Success)]
      ensures b in old(installs) && installs == old(installs)[b := Recorded(old(installs)[b], if failure then Failure(message) else Success)]
    {
      ghost var s := State(installs, jobs, AllBuilds(jobs));
      ghost var e := if failure then Failure(message) else Success;
      assert JobOk(installs, jobs[j]);
      EndKeeps(s, j, e);
      if failure {
        installs := installs[b := installs[b].(err := message)];
      } else {
        installs := installs[b := installs[b].(done := true)];
      }
      jobs := jobs[j := Job(b, e)];
    }
  }

  function AllBuilds(jobs: seq<Job>): set<Build> {
    set j | 0 <= j < |jobs| :: jobs[j].build
  }

  /** What a poll brings back: a status or a failed call. */
  datatype Reply = Reply(status: Status) | CallFailed

  /** A `done` comes among the replies before any failure. */
  predicate EndsDone(replies: seq<Reply>) {
    exists i :: 0 <= i < |replies| && replies[i] == Reply(Done)
                && forall k :: 0 <= k < i ==> replies[k] == Reply(Unknown) || replies[k] == Reply(Installing)
  }

  /** The appliance's polling loop: `replies` are the answers that come before the deadline, in
      order. No error exactly when a `done` comes among them before any failure. */
  method InstallDesktopBuild(accepted: bool, replies: seq<Reply>) returns (ok: bool)
    ensures ok <==> accepted && EndsDone(replies)
  {
    if !accepted {
      return false;
    }
    for i := 0 to |replies|
      invariant forall k :: 0 <= k < i ==> replies[k] == Reply(Unknown) || replies[k] == Reply(Installing)
    {
      if replies[i].CallFailed? {
        return false;
      }
      match replies[i].status {
        case Done => return true;
        case Failed(_) => return false;
        case Unknown =>
        case Installing =>
      }
    }
    return false;
  }
}
