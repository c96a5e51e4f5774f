/** The driver server and its crash-recovered run record. Follows
    internal/runner/runrecord/runrecord.go and
    internal/runner/driverserver/driverserver.go. */
module RunRecords {
  import opened Options

  datatype RunState = Running | Finished

  datatype Record = Record(version: int, state: RunState, finishedAt: int, reported: bool)

  function RunningRecord(version: int): Record {
    Record(version, Running, 0, false)
  }

  datatype Reconciled = ReadFailed | WriteFailed | Booted(record: Option<Record>, crashed: bool)

  /** What boot makes of a record: a run still marked running died with its process. */
  function Recover(content: Option<Record>, now: int): Option<Record> {
    if content.Some? && content.value.state.Running?
    then Some(Record(content.value.version, Finished, now, false)) else content
  }

  /** The record file: a write replaces it whole or leaves it untouched. */
  class RecordFile {
    var content: Option<Record>

    constructor ()
      ensures content == None
    {
      content := None;
    }

    method Write(rec: Record, fails: bool) returns (ok: bool)
      modifies this
      ensures ok == !fails
      ensures content == if ok then Some(rec) else old(content)
    {
      if fails {
        return false;
      }
      content := Some(rec);
      return true;
    }

    method Read(fails: bool) returns (rec: Option<Option<Record>>)
      ensures rec == if fails then None else Some(content)
    {
      rec := if fails then None else Some(content);
    }

    method Reconcile(now: int, readFails: bool, writeFails: bool) returns (r: Reconciled)
      modifies this
      ensures r.ReadFailed? <==> readFails
      ensures r.Booted? ==> content == Recover(old(content), now) && r.record == content
      ensures r.Booted? ==> (r.crashed <==> content != old(content))
      ensures !r.Booted? ==> content == old(content)
      ensures r.WriteFailed? ==> old(content).Some? && old(content).value.state.Running?
    {
      var read := Read(readFails);
      if read.None? {
        return ReadFailed;
      }
      var found := read.value;
      if found.None? || found.value.state != Running {
        return Booted(found, false);
      }
      var rec := Record(found.value.version, Finished, now, false);
      var ok := Write(rec, writeFails);
      if !ok {
        return WriteFailed;
      }
      return Booted(Some(rec), true);
    }
  }
}

/** The server's own state and what each of its critical sections does to it. */
module DriverServer {
  import opened Options
  import opened RunRecords

  /** The fields of a run object: done is set once its record is published. */
  datatype RunView = RunView(version: int, done: bool, reported: bool, cancelled: bool)

  datatype Core = Core(rec: Option<Record>, active: Option<RunView>, streaming: bool, closed: bool)

  datatype Refusal = StreamOpen | Stale | OtherRunning | NoSpec | ShuttingDown | WriteFailure

  /** How a Run request is answered: refused, attached to the active run,
      attached to a run synthesised as finished, or a new run begun. */
  datatype Answer = Refused(why: Refusal) | ToActive | ToFinished(reported: bool) | Begun

  function Answered(c: Core, version: int, hasSpec: bool, writeFails: bool): Answer {
    if c.streaming then Refused(StreamOpen)
    else if c.rec.Some? && c.rec.value.version > version then Refused(Stale)
    else if c.rec.Some? && c.rec.value.version == version then
      if c.active.None? || c.active.value.version != version then ToFinished(c.rec.value.reported) else ToActive
    else if c.rec.Some? && c.rec.value.state.Running? then Refused(OtherRunning)
    else if !hasSpec then Refused(NoSpec)
    else if c.closed then Refused(ShuttingDown)
    else if writeFails then Refused(WriteFailure)
    else Begun
  }

  function Opened(c: Core, version: int, answer: Answer): Core {
    match answer
    case Refused(_) => c
    case Begun => c.(rec := Some(RunningRecord(version)), active := Some(RunView(version, false, false, false)),
                     streaming := true)
    case _ => c.(streaming := true)
  }

  predicate Stops(c: Core, version: int) {
    c.active.Some? && c.active.value.version == version && !c.active.value.done
  }

  function Stopped(c: Core, version: int): Core {
    if Stops(c, version) then c.(active := Some(c.active.value.(cancelled := true))) else c
  }

  function ShutDown(c: Core): Core {
    var closing := c.(closed := true);
    if c.active.Some? then Stopped(closing, c.active.value.version) else closing
  }

  /** Publishing the finished record of the active run. */
  function Published(c: Core, rec: Record): Core {
    c.(rec := Some(rec),
       active := if c.active.Some? then Some(c.active.value.(done := true, reported := rec.reported)) else None)
  }

  class Run {
    const version: int
    var done: bool
    var reported: bool
    var cancelled: bool

    constructor (version: int, done: bool, reported: bool)
      ensures View() == RunView(version, done, reported, false)
    {
      this.version := version;
      this.done, this.reported, cancelled := done, reported, false;
    }

    function View(): RunView
      reads this
    {
      RunView(version, done, reported, cancelled)
    }
  }

  class Server {
    const disk: RecordFile
    var rec: Record
    var hasRec: bool
    var active: Run?
    var streaming: bool
    var closed: bool

    function View(): Core
      reads this, active
    {
      Core(if hasRec then Some(rec) else None,
           if active == null then None else Some(active.View()), streaming, closed)
    }

    /** A server over a reconciled record. */
    constructor (disk: RecordFile, booted: Option<Record>)
      ensures this.disk == disk
      ensures View() == Core(booted, None, false, false)
    {
      this.disk := disk;
      hasRec := booted.Some?;
      rec := if booted.Some? then booted.value else RunningRecord(0);
      active := null;
      streaming, closed := false, false;
    }

    method Open(version: int, hasSpec: bool, writeFails: bool) returns (answer: Answer, r: Run?)
      modifies this, disk
      ensures answer == Answered(old(View()), version, hasSpec, writeFails)
      ensures View() == Opened(old(View()), version, answer)
      ensures disk.content == if answer.Begun? then Some(RunningRecord(version)) else old(disk.content)
      ensures answer.Refused? <==> r == null
      ensures answer.ToActive? ==> r == active
      ensures answer.ToFinished? ==> fresh(r) && r.View() == RunView(version, true, answer.reported, false)
      ensures answer.Begun? ==> fresh(r) && r == active
      ensures !answer.Begun? ==> active == old(active)
    {
      if streaming {
        return Refused(StreamOpen), null;
      }
      if hasRec && rec.version > version {
        return Refused(Stale), null;
      } else if hasRec && rec.version == version {
        if active == null || active.version != version {
          answer := ToFinished(rec.reported);
          r := new Run(version, true, rec.reported);
        } else {
          answer, r := ToActive, active;
        }
      } else if hasRec && rec.state == Running {
        return Refused(OtherRunning), null;
      } else if !hasSpec {
        return Refused(NoSpec), null;
      } else if closed {
        return Refused(ShuttingDown), null;
      } else {
        r := Begin(version, writeFails);
        if r == null {
          return Refused(WriteFailure), null;
        }
        answer := Begun;
      }
      streaming := true;
    }

    /** Writes the running record and only then starts the run. */
    method Begin(version: int, writeFails: bool) returns (r: Run?)
      modifies this, disk
      ensures r == null <==> writeFails
      ensures r == null ==> View() == old(View()) && disk.content == old(disk.content) && active == old(active)
      ensures r != null ==> fresh(r) && r == active && disk.content == Some(RunningRecord(version))
      ensures r != null ==> View() == Opened(old(View()), version, Begun).(streaming := old(streaming))
    {
      var ok := disk.Write(RunningRecord(version), writeFails);
      if !ok {
        return null;
      }
      rec, hasRec := RunningRecord(version), true;
      r := new Run(version, false, false);
      active := r;
    }

    /** The record as Status reports it. */
    method Status() returns (found: Option<Record>)
      ensures found == View().rec
    {
      found := if hasRec then Some(rec) else None;
    }

    method Release()
      modifies this
      ensures View() == old(View()).(streaming := false) && active == old(active)
    {
      streaming := false;
    }

    /** The end of a run, first half: its record is written outside the lock. */
    method FinishWrite(r: Run, reported: bool, now: int, writeFails: bool) returns (finished: Record)
      modifies disk
      ensures finished == Record(r.version, Finished, now, reported)
      ensures disk.content == if writeFails then old(disk.content) else Some(finished)
    {
      finished := Record(r.version, Finished, now, reported);
      var ok := disk.Write(finished, writeFails);
    }

    /** The end of a run, second half: the record is published under the lock. */
    method FinishPublish(r: Run, finished: Record)
      requires r == active && finished.version == r.version
      modifies this, r
      ensures View() == Published(old(View()), finished) && active == old(active)
    {
      rec := finished;
      hasRec := true;
      r.reported := finished.reported;
      r.done := true;
    }

    method Stop(version: int) returns (stopped: bool)
      modifies this, active
      ensures stopped == Stops(old(View()), version)
      ensures View() == Stopped(old(View()), version) && active == old(active)
    {
      var r := active;
      if r == null || r.version != version {
        return false;
      }
      if r.done {
        return false;
      }
      r.cancelled := true;
      return true;
    }

    method Shutdown()
      modifies this, active
      ensures View() == ShutDown(old(View())) && active == old(active)
    {
      closed := true;
      if active != null {
        var _ := Stop(active.version);
      }
    }
  }
}

/** Every interleaving of requests, run goroutines, crashes and reboots. */
module DriverServerRuns {
  import opened Options
  import opened Sequences
  import opened RunRecords
  import opened DriverServer

  datatype ExecPhase = Driving | Returned(ok: bool) | Written(rec: Record)

  /** A goroutine executing a run. */
  datatype Exec = Exec(version: int, phase: ExecPhase)

  /** An open Run stream. */
  datatype Stream = OnActive(version: int) | OnFinished(version: int, reported: bool)

  /** History of one process: the versions it began, those a Stop or a Shutdown
      came for while they executed, and whether a Shutdown came. */
  datatype Past = Past(begun: set<int>, stopped: set<int>, shut: bool)

  datatype Process = Process(core: Core, execs: seq<Exec>, streams: seq<Stream>, shutdownReturned: bool, past: Past)

  function Executing(p: Process): set<int> {
    set x | x in p.execs :: x.version
  }

  /** The sandbox: disk, the process if it is up, and the history the claims
      are about: versions started, versions whose driver returned nil, and the
      (version, reported) pairs sent as Finished. */
  datatype Node = Node(disk: Option<Record>, up: Option<Process>, started: seq<int>,
                       succeeded: set<int>, sent: seq<(int, bool)>)

  datatype Action =
    | Open(version: int, hasSpec: bool, writeFails: bool)
    | SendFinished(s: nat)                       // and the stream's release
    | Drop(s: nat)                               // the stream ends without Finished
    | DriverReturns(e: nat, ok: bool)
    | FinishWrite(e: nat, now: int, writeFails: bool)
    | Publish(e: nat)
    | Stop(version: int)
    | Shutdown
    | ShutdownReturns
    | Die
    | DieInOpen(version: int)                    // the record is written and the run not yet started
    | Boot(now: int, readFails: bool, writeFails: bool)

  function StreamDone(p: Process, s: Stream): bool {
    match s
    case OnFinished(_, _) => true
    case OnActive(v) => p.core.active.Some? && p.core.active.value.version == v && p.core.active.value.done
  }

  predicate Enabled(n: Node, a: Action) {
    if a.Boot? then n.up.None?
    else n.up.Some? && var p := n.up.value;
      match a
      case SendFinished(s) => s < |p.streams| && StreamDone(p, p.streams[s])
      case Drop(s) => s < |p.streams|
      case DriverReturns(e, _) => e < |p.execs| && p.execs[e].phase.Driving?
      case FinishWrite(e, _, _) => e < |p.execs| && p.execs[e].phase.Returned?
      case Publish(e) => e < |p.execs| && p.execs[e].phase.Written?
      case ShutdownReturns => p.core.closed && p.execs == []
      case DieInOpen(version) => Answered(p.core, version, true, false).Begun?
      case _ => true
  }

  function Fire(n: Node, a: Action): Node
    requires Enabled(n, a)
  {
    if a.Boot? then
      var rec := Recover(n.disk, a.now);
      if a.readFails || (rec != n.disk && a.writeFails) then n
      else n.(disk := rec, up := Some(Process(Core(rec, None, false, false), [], [], false, Past({}, {}, false))))
    else
      var p := n.up.value;
      match a
      case Open(version, hasSpec, writeFails) =>
        var answer := Answered(p.core, version, hasSpec, writeFails);
        var q := p.(core := Opened(p.core, version, answer));
        (match answer
         case Refused(_) => n
         case ToActive => n.(up := Some(q.(streams := p.streams + [OnActive(version)])))
         case ToFinished(reported) => n.(up := Some(q.(streams := p.streams + [OnFinished(version, reported)])))
         case Begun => n.(up := Some(q.(streams := p.streams + [OnActive(version)],
                                        execs := p.execs + [Exec(version, Driving)],
                                        past := p.past.(begun := p.past.begun + {version}))),
                          disk := Some(RunningRecord(version)), started := n.started + [version]))
      case SendFinished(s) =>
        var reported := if p.streams[s].OnFinished? then p.streams[s].reported else p.core.active.value.reported;
        n.(up := Some(p.(core := p.core.(streaming := false), streams := Without(p.streams, s))),
           sent := n.sent + [(p.streams[s].version, reported)])
      case Drop(s) => n.(up := Some(p.(core := p.core.(streaming := false), streams := Without(p.streams, s))))
      case DriverReturns(e, ok) =>
        n.(up := Some(p.(execs := p.execs[e := p.execs[e].(phase := Returned(ok))])),
           succeeded := if ok then n.succeeded + {p.execs[e].version} else n.succeeded)
      case FinishWrite(e, now, writeFails) =>
        var rec := Record(p.execs[e].version, Finished, now, p.execs[e].phase.ok);
        n.(up := Some(p.(execs := p.execs[e := p.execs[e].(phase := Written(rec))])),
           disk := if writeFails then n.disk else Some(rec))
      case Publish(e) =>
        n.(up := Some(p.(core := Published(p.core, p.execs[e].phase.rec), execs := Without(p.execs, e))))
      case Stop(version) =>
        n.(up := Some(p.(core := Stopped(p.core, version),
                         past := p.past.(stopped := p.past.stopped + Executing(p) * {version}))))
      case Shutdown =>
        n.(up := Some(p.(core := ShutDown(p.core),
                         past := p.past.(stopped := p.past.stopped + Executing(p), shut := true))))
      case ShutdownReturns => n.(up := Some(p.(shutdownReturned := true)))
      case Die => n.(up := None)
      case DieInOpen(version) => n.(up := None, disk := Some(RunningRecord(version)))
  }

  function Next(n: Node, a: Action): Node {
    if Enabled(n, a) then Fire(n, a) else n
  }

  function After(n: Node, acts: seq<Action>): Node
    decreases acts
  {
    if acts == [] then n else After(Next(n, acts[0]), acts[1..])
  }

  /** A fresh sandbox: nothing on disk, no process yet. */
  const FreshSandbox := Node(None, None, [], {}, [])

  // ---- the invariant -------------------------------------------------------

  ghost predicate Increasing(vs: seq<int>) {
    forall i, j :: 0 <= i < j < |vs| ==> vs[i] < vs[j]
  }

  ghost predicate HonestRecord(n: Node, rec: Option<Record>) {
    rec.Some? && rec.value.reported ==> rec.value.version in n.succeeded
  }

  /** The disk record is at the last version started, or past it when a crash
      kept its own run from starting; it claims a report only truthfully. */
  ghost predicate DiskOk(n: Node) {
    && Increasing(n.started)
    && (n.started != [] ==> n.disk.Some? && n.started[|n.started| - 1] <= n.disk.value.version)
    && HonestRecord(n, n.disk)
    && (forall v :: v in n.succeeded ==> v in n.started)
    && (forall i :: 0 <= i < |n.sent| && n.sent[i].1 ==> n.sent[i].0 in n.succeeded)
  }

  /** The in-memory record is Running exactly when the active run has its version and is not done. */
  predicate RunningIffActive(c: Core) {
    (c.rec.Some? && c.rec.value.state.Running?)
    <==> (c.active.Some? && c.rec.Some? && c.active.value.version == c.rec.value.version && !c.active.value.done)
  }

  ghost predicate ExecOk(n: Node, c: Core, x: Exec) {
    && c.rec == Some(RunningRecord(x.version))
    && c.active.Some? && c.active.value.version == x.version && !c.active.value.done
    && n.disk.Some? && n.disk.value.version == x.version
    && (!x.phase.Written? ==> n.disk == Some(RunningRecord(x.version)))
    && (x.phase.Driving? ==> x.version !in n.succeeded)
    && (x.phase.Returned? ==> (x.phase.ok <==> x.version in n.succeeded))
    && (x.phase.Written? ==> x.phase.rec.version == x.version && x.phase.rec.state.Finished?
                             && (x.phase.rec.reported <==> x.version in n.succeeded))
  }

  ghost predicate StreamOk(n: Node, c: Core, s: Stream) {
    match s
    case OnActive(v) => c.active.Some? && c.active.value.version == v
    case OnFinished(v, reported) =>
      (reported ==> v in n.succeeded) && c.rec.Some? && c.rec.value.version == v && c.rec.value.state.Finished?
  }

  ghost predicate ProcessOk(n: Node, p: Process) {
    var c := p.core;
    && (c.rec.None? <==> n.disk.None?)
    && (c.rec.Some? ==> c.rec.value.version == n.disk.value.version)
    && (c.active.Some? ==> c.rec.Some? && c.active.value.version == c.rec.value.version)
    && RunningIffActive(c)
    && HonestRecord(n, c.rec)
    && (c.active.Some? && c.active.value.done ==>
          && (c.active.value.reported <==> c.active.value.version in n.succeeded)
          && (c.rec.value.reported <==> c.active.value.version in n.succeeded))
    && |p.execs| <= 1
    && (|p.execs| == 1 <==> c.rec.Some? && c.rec.value.state.Running?)
    && (forall x :: x in p.execs ==> ExecOk(n, c, x))
    && |p.streams| <= 1
    && (c.streaming <==> |p.streams| == 1)
    && (forall s :: s in p.streams ==> StreamOk(n, c, s))
    && (p.shutdownReturned ==> c.closed && p.execs == [])
    && PastOk(n, p)
  }

  /** What the core says of its runs, in terms of what happened to the process. */
  ghost predicate PastOk(n: Node, p: Process) {
    var c := p.core;
    && (c.closed <==> p.past.shut)
    && (c.active.None? ==> p.past.begun == {} && c.rec == n.disk)
    && (c.active.Some? ==>
          && c.active.value.version in p.past.begun
          && (c.active.value.cancelled <==> c.active.value.version in p.past.stopped))
    && p.past.stopped <= p.past.begun
    && (forall v :: v in p.past.begun ==> v in n.started)
  }

  ghost predicate Inv(n: Node) {
    DiskOk(n) && (n.up.Some? ==> ProcessOk(n, n.up.value))
  }

  lemma BeginKeeps(n: Node, a: Action)
    requires Inv(n) && a.Open? && Enabled(n, a)
    requires Answered(n.up.value.core, a.version, a.hasSpec, a.writeFails).Begun?
    ensures Inv(Fire(n, a))
  {
    var m := Fire(n, a);
    assert DiskOk(m) by {
      assert forall i :: 0 <= i < |n.started| ==> n.started[i] <= n.started[|n.started| - 1];
    }
    assert m.up.value.execs == [Exec(a.version, Driving)];
    assert m.up.value.streams == [OnActive(a.version)];
  }

  lemma AttachKeeps(n: Node, a: Action)
    requires Inv(n) && a.Open? && Enabled(n, a)
    requires !Answered(n.up.value.core, a.version, a.hasSpec, a.writeFails).Begun?
    ensures Inv(Fire(n, a))
  {
    var p := n.up.value;
    match Answered(p.core, a.version, a.hasSpec, a.writeFails) {
      case Refused(_) =>
      case ToActive =>
        StreamAdded(n, Fire(n, a), OnActive(a.version));
      case ToFinished(reported) =>
        StreamAdded(n, Fire(n, a), OnFinished(a.version, reported));
    }
  }

  lemma StreamAdded(n: Node, m: Node, s: Stream)
    requires Inv(n) && n.up.Some? && !n.up.value.core.streaming
    requires m == n.(up := Some(n.up.value.(core := n.up.value.core.(streaming := true), streams := n.up.value.streams + [s])))
    requires StreamOk(n, n.up.value.core, s)
    ensures Inv(m)
  {
    assert m.up.value.streams == [s];
    var c, d := n.up.value.core, m.up.value.core;
    forall x | x in m.up.value.execs
      ensures ExecOk(m, d, x)
    {
      assert ExecOk(n, c, x);
    }
  }

  lemma StreamEndKeeps(n: Node, a: Action)
    requires Inv(n) && (a.SendFinished? || a.Drop?) && Enabled(n, a)
    ensures Inv(Fire(n, a))
  {
    assert StreamOk(n, n.up.value.core, n.up.value.streams[a.s]);
  }

  lemma RunEndKeeps(n: Node, a: Action)
    requires Inv(n) && (a.DriverReturns? || a.FinishWrite?) && Enabled(n, a)
    ensures Inv(Fire(n, a))
  {
    assert ExecOk(n, n.up.value.core, n.up.value.execs[a.e]);
  }

  lemma PublishKeeps(n: Node, a: Action)
    requires Inv(n) && a.Publish? && Enabled(n, a)
    ensures Inv(Fire(n, a))
  {
    assert ExecOk(n, n.up.value.core, n.up.value.execs[a.e]);
  }

  /** What executes is the active run while it is not done. */
  lemma ExecutingExactly(n: Node)
    requires Inv(n) && n.up.Some?
    ensures var p := n.up.value;
            Executing(p) == if p.core.active.Some? && !p.core.active.value.done then {p.core.active.value.version} else {}
  {
    var p := n.up.value;
    if p.execs != [] {
      assert ExecOk(n, p.core, p.execs[0]) && p.execs == [p.execs[0]];
      assert p.execs[0] in p.execs;
    }
  }

  lemma StopKeeps(n: Node, a: Action)
    requires Inv(n) && (a.Stop? || a.Shutdown?) && Enabled(n, a)
    ensures Inv(Fire(n, a))
  {
    var p, q := n.up.value, Fire(n, a).up.value;
    ExecutingExactly(n);
    assert PastOk(n, q);
    forall x | x in q.execs ensures ExecOk(n, q.core, x) {
      assert ExecOk(n, p.core, x);
    }
    forall s | s in q.streams ensures StreamOk(n, q.core, s) {
      assert StreamOk(n, p.core, s);
    }
  }

  lemma ControlKeeps(n: Node, a: Action)
    requires Inv(n) && (a.ShutdownReturns? || a.Die? || a.DieInOpen? || a.Boot?) && Enabled(n, a)
    ensures Inv(Fire(n, a))
  {
  }

  lemma InvNext(n: Node, a: Action)
    requires Inv(n)
    ensures Inv(Next(n, a))
  {
    if Enabled(n, a) {
      match a {
        case Open(version, hasSpec, writeFails) =>
          if Answered(n.up.value.core, version, hasSpec, writeFails).Begun? {
            BeginKeeps(n, a);
          } else {
            AttachKeeps(n, a);
          }
        case SendFinished(_) => StreamEndKeeps(n, a);
        case Drop(_) => StreamEndKeeps(n, a);
        case DriverReturns(_, _) => RunEndKeeps(n, a);
        case FinishWrite(_, _, _) => RunEndKeeps(n, a);
        case Publish(_) => PublishKeeps(n, a);
        case Stop(_) => StopKeeps(n, a);
        case Shutdown => StopKeeps(n, a);
        case _ => ControlKeeps(n, a);
      }
    }
  }

  lemma {:induction false} InvAfter(n: Node, acts: seq<Action>)
    requires Inv(n)
    ensures Inv(After(n, acts))
    decreases acts
  {
    if acts != [] {
      InvNext(n, acts[0]);
      InvAfter(Next(n, acts[0]), acts[1..]);
    }
  }

  // ---- what holds over every run of the sandbox ----------------------------

  /** No version is ever started twice, and starts only go up, across crashes,
      reboots and failed writes. */
  lemma {:induction false} AtMostOnceExecution(acts: seq<Action>)
    ensures Increasing(After(FreshSandbox, acts).started)
  {
    InvAfter(FreshSandbox, acts);
  }

  /** A version that was started is never begun again, whatever happened since. */
  lemma {:induction false} NeverBegunAgain(acts: seq<Action>, version: int, hasSpec: bool, writeFails: bool)
    requires var n := After(FreshSandbox, acts); n.up.Some? && version in n.started
    ensures !Answered(After(FreshSandbox, acts).up.value.core, version, hasSpec, writeFails).Begun?
  {
    InvAfter(FreshSandbox, acts);
    var n := After(FreshSandbox, acts);
    var i :| 0 <= i < |n.started| && n.started[i] == version;
    assert n.started[i] <= n.started[|n.started| - 1];
  }

  /** The version is on disk or passed, and was not started. */
  predicate Forfeited(n: Node, version: int) {
    n.disk.Some? && version <= n.disk.value.version && version !in n.started
  }

  lemma {:induction false} ForfeitedForGood(n: Node, acts: seq<Action>, version: int)
    requires Inv(n) && Forfeited(n, version)
    ensures Inv(After(n, acts)) && Forfeited(After(n, acts), version)
    decreases acts
  {
    if acts != [] {
      InvNext(n, acts[0]);
      ForfeitedForGood(Next(n, acts[0]), acts[1..], version);
    }
  }

  /** A crash after the record is written and before the run starts costs that
      run: it is never executed, whatever follows. */
  lemma {:induction false} CrashBeforeStartForfeitsRun(acts: seq<Action>, version: int, later: seq<Action>)
    requires Enabled(After(FreshSandbox, acts), DieInOpen(version))
    ensures version !in After(Next(After(FreshSandbox, acts), DieInOpen(version)), later).started
  {
    InvAfter(FreshSandbox, acts);
    var n := After(FreshSandbox, acts);
    assert forall i :: 0 <= i < |n.started| ==> n.started[i] <= n.started[|n.started| - 1];
    InvNext(n, DieInOpen(version));
    ForfeitedForGood(Next(n, DieInOpen(version)), later, version);
  }

  /** Every answer to a Run request, in every reachable state: one stream at a
      time; the version on disk decides what is stale and what is attached to; a
      version past it begins exactly when nothing executes, it brings a spec, no
      Shutdown has come and its record can be written. */
  lemma {:induction false} AnswersExactly(acts: seq<Action>, version: int, hasSpec: bool, writeFails: bool)
    requires After(FreshSandbox, acts).up.Some?
    ensures var n := After(FreshSandbox, acts);
            var p := n.up.value;
            var answer := Answered(p.core, version, hasSpec, writeFails);
            if p.streams != [] then answer == Refused(StreamOpen)
            else if n.disk.Some? && version < n.disk.value.version then answer == Refused(Stale)
            else if n.disk.Some? && version == n.disk.value.version then
              answer == if version in p.past.begun then ToActive else ToFinished(n.disk.value.reported)
            else
              answer == if p.execs != [] then Refused(OtherRunning)
                        else if !hasSpec then Refused(NoSpec)
                        else if p.past.shut then Refused(ShuttingDown)
                        else if writeFails then Refused(WriteFailure)
                        else Begun
  {
    InvAfter(FreshSandbox, acts);
  }

  /** Stop says true exactly when that run executes, and in every reachable state
      the active run's context is cancelled exactly when a Stop of its version or
      a Shutdown came while it executed. */
  lemma {:induction false} CancelledExactly(acts: seq<Action>, version: int)
    requires After(FreshSandbox, acts).up.Some?
    ensures var p := After(FreshSandbox, acts).up.value;
            && (Stops(p.core, version) <==> version in Executing(p))
            && (p.core.active.Some? ==>
                  (p.core.active.value.cancelled <==> p.core.active.value.version in p.past.stopped))
  {
    InvAfter(FreshSandbox, acts);
    ExecutingExactly(After(FreshSandbox, acts));
  }

  lemma ShutStep(n: Node, a: Action)
    requires Inv(n) && n.up.Some? && n.up.value.past.shut && !a.Die? && !a.DieInOpen?
    ensures var m := Next(n, a); m.up.Some? && m.up.value.past.shut && m.started == n.started
  {
    assert a.Open? ==> !Answered(n.up.value.core, a.version, a.hasSpec, a.writeFails).Begun?;
  }

  /** From the moment Shutdown is called, before it returns, nothing starts in this process. */
  lemma {:induction false} NothingStartsAfterShutdown(n: Node, acts: seq<Action>)
    requires Inv(n) && n.up.Some? && n.up.value.past.shut
    requires forall i :: 0 <= i < |acts| ==> !acts[i].Die? && !acts[i].DieInOpen?
    ensures var m := After(n, acts); m.up.Some? && m.up.value.past.shut && m.started == n.started
    decreases acts
  {
    if acts != [] {
      InvNext(n, acts[0]);
      ShutStep(n, acts[0]);
      NothingStartsAfterShutdown(Next(n, acts[0]), acts[1..]);
    }
  }

  /** A stream on the run this process executed ends with the truth: reported
      exactly when the driver returned nil. */
  lemma {:induction false} ActiveStreamHearsTheTruth(acts: seq<Action>, s: nat)
    requires var n := After(FreshSandbox, acts);
             Enabled(n, SendFinished(s)) && n.up.value.streams[s].OnActive?
    ensures var n := After(FreshSandbox, acts);
            var v := n.up.value.streams[s].version;
            Next(n, SendFinished(s)).sent == n.sent + [(v, v in n.succeeded)]
  {
    InvAfter(FreshSandbox, acts);
    var n := After(FreshSandbox, acts);
    assert StreamOk(n, n.up.value.core, n.up.value.streams[s]);
  }

  /** And so does Status: what it shows of a run this process executed is running
      while it executes, and then whether the driver returned nil. */
  lemma {:induction false} StatusTellsTheTruth(acts: seq<Action>)
    requires var n := After(FreshSandbox, acts); n.up.Some? && n.up.value.past.begun != {}
    ensures var n := After(FreshSandbox, acts);
            var rec := n.up.value.core.rec;
            && rec.Some? && rec.value.version in n.up.value.past.begun
            && (rec.value.state.Running? <==> rec.value.version in Executing(n.up.value))
            && (rec.value.state.Finished? ==> (rec.value.reported <==> rec.value.version in n.succeeded))
  {
    InvAfter(FreshSandbox, acts);
    ExecutingExactly(After(FreshSandbox, acts));
  }

  /** An outcome that was written survives any crash: after a reboot a late attach
      is told whether the driver returned nil. */
  lemma {:induction false} WrittenOutcomeSurvives(acts: seq<Action>, e: nat, now: int, later: int)
    requires Enabled(After(FreshSandbox, acts), FinishWrite(e, now, false))
    ensures var n := After(FreshSandbox, acts);
            var v := n.up.value.execs[e].version;
            var booted := Next(Next(Next(n, FinishWrite(e, now, false)), Die), Boot(later, false, false));
            && booted.disk == Some(Record(v, Finished, now, v in n.succeeded))
            && booted.up.Some?
            && Answered(booted.up.value.core, v, false, false) == ToFinished(v in n.succeeded)
  {
    InvAfter(FreshSandbox, acts);
    var n := After(FreshSandbox, acts);
    assert ExecOk(n, n.up.value.core, n.up.value.execs[e]);
  }

  /** A server comes up exactly when the record can be read and, if it says
      running, corrected; otherwise nothing changes. */
  lemma BootsExactly(n: Node, now: int, readFails: bool, writeFails: bool)
    requires n.up.None?
    ensures var m := Next(n, Boot(now, readFails, writeFails));
            var crashed := n.disk.Some? && n.disk.value.state.Running?;
            if readFails || (crashed && writeFails) then m == n
            else m.up.Some? && m.up.value.core == Core(m.disk, None, false, false) && m.up.value.execs == []
                 && m.disk == if crashed then Some(Record(n.disk.value.version, Finished, now, false)) else n.disk
  {
  }

  /** A run cut short by a crash is found at the next boot: its record is
      finished as of that boot and unreported, and further boots leave it alone. */
  lemma {:induction false} CrashIsRecordedOnce(acts: seq<Action>, now: int, later: int)
    requires var n := After(FreshSandbox, acts); n.up.Some? && n.up.value.execs != []
    requires forall x :: x in After(FreshSandbox, acts).up.value.execs ==> !x.phase.Written?
    ensures var n := After(FreshSandbox, acts);
            var v := n.up.value.execs[0].version;
            var booted := Next(Next(n, Die), Boot(now, false, false));
            && booted.disk == Some(Record(v, Finished, now, false))
            && booted.up.Some? && booted.up.value.core.rec == booted.disk
            && Next(Next(booted, Die), Boot(later, false, false)).disk == booted.disk
  {
    InvAfter(FreshSandbox, acts);
    var n := After(FreshSandbox, acts);
    assert n.up.value.execs[0] in n.up.value.execs;
    assert ExecOk(n, n.up.value.core, n.up.value.execs[0]);
  }

  /** Finished says reported, and a record says reported, only for a version
      whose driver returned nil. */
  lemma {:induction false} HonestReporting(acts: seq<Action>)
    ensures var n := After(FreshSandbox, acts);
            && (forall i :: 0 <= i < |n.sent| && n.sent[i].1 ==> n.sent[i].0 in n.succeeded)
            && HonestRecord(n, n.disk)
            && (n.up.Some? ==> HonestRecord(n, n.up.value.core.rec))
  {
    InvAfter(FreshSandbox, acts);
  }

  /** A crash, a reboot and a late attach never raise a report: what the
      attached stream will say was already on disk before the crash. */
  lemma {:induction false} RebootOnlyDowngrades(acts: seq<Action>, now: int, version: int)
    requires After(FreshSandbox, acts).up.Some?
    ensures var n := After(FreshSandbox, acts);
            var rebooted := Next(Next(n, Die), Boot(now, false, false));
            var answer := Answered(rebooted.up.value.core, version, true, true);
            && (answer.ToFinished? && answer.reported ==>
                  n.disk.Some? && n.disk.value.version == version && n.disk.value.reported && n.disk.value.state.Finished?)
            && (n.disk.Some? && n.disk.value.version == version ==> answer.ToFinished?)
  {
    InvAfter(FreshSandbox, acts);
  }

  /** In every reachable state the record is Running iff the active run has its
      version and is not done, and at most one run executes and one stream is open. */
  lemma {:induction false} OneRunOneStream(acts: seq<Action>)
    ensures var n := After(FreshSandbox, acts);
            n.up.Some? ==> RunningIffActive(n.up.value.core)
                           && |n.up.value.execs| <= 1 && |n.up.value.streams| <= 1
  {
    InvAfter(FreshSandbox, acts);
  }

  /** The finish write happens outside the lock, yet the record it replaces is
      always its own run's; the published record replaces its own run's too. */
  lemma {:induction false} FinishWriteHitsOwnRecord(acts: seq<Action>, e: nat)
    requires var n := After(FreshSandbox, acts); n.up.Some? && e < |n.up.value.execs|
    ensures var n := After(FreshSandbox, acts);
            var v := n.up.value.execs[e].version;
            && n.disk.Some? && n.disk.value.version == v
            && n.up.value.core.rec == Some(RunningRecord(v))
            && n.up.value.core.active.Some? && n.up.value.core.active.value.version == v
  {
    InvAfter(FreshSandbox, acts);
    var n := After(FreshSandbox, acts);
    assert ExecOk(n, n.up.value.core, n.up.value.execs[e]);
  }

  /** A run is synthesised as finished only from a record that says finished. */
  lemma {:induction false} SynthesisedOnlyWhenFinished(acts: seq<Action>, version: int, hasSpec: bool, writeFails: bool)
    requires After(FreshSandbox, acts).up.Some?
    ensures var c := After(FreshSandbox, acts).up.value.core;
            Answered(c, version, hasSpec, writeFails).ToFinished? ==> c.rec.Some? && c.rec.value.state.Finished?
  {
    InvAfter(FreshSandbox, acts);
  }

  /** Once Shutdown has returned, nothing executes and nothing starts in this process. */
  lemma {:induction false} ShutdownIsFinal(n: Node, acts: seq<Action>)
    requires Inv(n) && n.up.Some? && n.up.value.shutdownReturned
    requires forall i :: 0 <= i < |acts| ==> !acts[i].Die? && !acts[i].DieInOpen?
    ensures var m := After(n, acts);
            m.up.Some? && m.up.value.shutdownReturned && m.up.value.execs == [] && m.started == n.started
    decreases acts
  {
    if acts != [] {
      InvNext(n, acts[0]);
      ShutdownIsFinal(Next(n, acts[0]), acts[1..]);
    }
  }
}
