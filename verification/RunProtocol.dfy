/** One task's row, its event stream and every driver process started for it,
    stepping in any interleaving. A driver fetches the task's version, reports
    `started`, drains the stream and reports one outcome
    (internal/runner/agent/driver.go); users and the event router append events
    and start the task in one transaction; the runner's outbox delivers
    outcomes of its own, any number of times. */
module RunProtocol {
  import opened Options
  import opened Tasks

  datatype Phase = Fetched | Acked | Drained(cursor: nat) | Exited

  datatype Driver = Driver(version: int, phase: Phase)

  /** stream[k] says whether event k wakes the task; startedAt holds the
      versions at which a `started` has been applied. */
  datatype World = World(row: Row, stream: seq<bool>, drivers: seq<Driver>, startedAt: set<int>)

  datatype Action =
    | Instruct(start: bool)                   // UpdateTask adding an instruction
    | Attach(wake: bool)                      // the router attaching an external event
    | UserActs(op: UserOp)                    // any user operation without an event
    | Launch                                  // a driver process fetches the task
    | ReportStarted(i: nat, acked: bool)      // the server folds it; the ack may be lost
    | Drain(i: nat)                           // the driver reads the stream to its tail
    | ReportOutcome(i: nat, failed: bool)
    | Crash(i: nat)
    | OutboxDelivers(failed: bool, version: int)

  function StartedBy(d: Driver): RunnerEvent {
    RunnerEvent(Started, d.version, false)
  }

  function Outcome(failed: bool, version: int): RunnerEvent {
    RunnerEvent(if failed then RunFailed else Stopped, version, false)
  }

  predicate Enabled(w: World, a: Action) {
    match a
    case ReportStarted(i, _) => i < |w.drivers| && w.drivers[i].phase.Fetched?
    case Drain(i) => i < |w.drivers| && w.drivers[i].phase.Acked?
    case ReportOutcome(i, _) => i < |w.drivers| && (w.drivers[i].phase.Acked? || w.drivers[i].phase.Drained?)
    case Crash(i) => i < |w.drivers|
    case _ => true
  }

  function SetPhase(w: World, i: nat, p: Phase): World
    requires i < |w.drivers|
  {
    w.(drivers := w.drivers[i := w.drivers[i].(phase := p)])
  }

  function Fire(w: World, a: Action): World
    requires Enabled(w, a)
  {
    match a
    case Instruct(start) =>
      w.(stream := w.stream + [start && CanStart(w.row)],
         row := if start then StartedByUser(w.row) else w.row)
    case Attach(wake) =>
      w.(stream := w.stream + [wake], row := if wake then StartedByUser(w.row) else w.row)
    case UserActs(op) => w.(row := Step(w.row, User(op)))
    case Launch => w.(drivers := w.drivers + [Driver(w.row.version, Fetched)])
    case ReportStarted(i, acked) =>
      var e := StartedBy(w.drivers[i]);
      SetPhase(w, i, if acked then Acked else Exited)
        .(row := Step(w.row, Event(e)),
          startedAt := if Applies(w.row, e) then w.startedAt + {w.row.version} else w.startedAt)
    case Drain(i) => SetPhase(w, i, Drained(|w.stream|))
    case ReportOutcome(i, failed) =>
      SetPhase(w, i, Exited).(row := Step(w.row, Event(Outcome(failed, w.drivers[i].version))))
    case Crash(i) => SetPhase(w, i, Exited)
    case OutboxDelivers(failed, version) => w.(row := Step(w.row, Event(Outcome(failed, version))))
  }

  function Next(w: World, a: Action): World {
    if Enabled(w, a) then Fire(w, a) else w
  }

  function After(w: World, acts: seq<Action>): World
    decreases acts
  {
    if acts == [] then w else After(Next(w, acts[0]), acts[1..])
  }

  predicate Initial(w: World) {
    Created(w.row) && w.drivers == [] && w.startedAt == {}
  }

  // ---- the row's part of it ------------------------------------------------

  /** What a step does to the task's row, as an operation of the row. */
  function RowOps(w: World, a: Action): seq<Op> {
    if !Enabled(w, a) then []
    else match a
      case Instruct(start) => if start then [User(Start)] else []
      case Attach(wake) => if wake then [User(Start)] else []
      case UserActs(op) => [User(op)]
      case ReportStarted(i, _) => [Event(RunnerEvent(Started, w.drivers[i].version, false))]
      case ReportOutcome(i, failed) =>
        [Event(RunnerEvent(if failed then RunFailed else Stopped, w.drivers[i].version, false))]
      case OutboxDelivers(failed, version) => [Event(RunnerEvent(if failed then RunFailed else Stopped, version, false))]
      case _ => []
  }

  function RowHistory(w: World, acts: seq<Action>): seq<Op>
    decreases acts
  {
    if acts == [] then [] else RowOps(w, acts[0]) + RowHistory(Next(w, acts[0]), acts[1..])
  }

  /** Whatever the interleaving, the row has the history its users, the router,
      the drivers and the outbox gave it, and so every law of the row. */
  lemma {:induction false} RowHasItsHistory(w: World, acts: seq<Action>)
    ensures After(w, acts).row == Tasks.After(w.row, RowHistory(w, acts))
    decreases acts
  {
    if acts != [] {
      var ops := RowOps(w, acts[0]);
      assert Next(w, acts[0]).row == Tasks.After(w.row, ops) by {
        assert ops == [] || ops[1..] == [];
      }
      RowHasItsHistory(Next(w, acts[0]), acts[1..]);
      AfterInTwo(w.row, ops, RowHistory(Next(w, acts[0]), acts[1..]));
    }
  }

  /** An event is appended as a wake exactly when its sender asked for one, for an
      instruction only where the task could start; and then a startable task has
      a start queued. */
  lemma WakesAreQueued(w: World, a: Action)
    requires a.Instruct? || a.Attach?
    ensures var asks := if a.Attach? then a.wake else a.start && CanStart(w.row);
            var n := Next(w, a);
            n.stream == w.stream + [asks] && (asks && CanStart(w.row) ==> n.row.command.StartCmd?)
  {
  }

  // ---- what may not be lost ------------------------------------------------

  /** The current run has drained and a wake event has been appended since. */
  ghost predicate Owed(w: World, i: nat) {
    && i < |w.drivers| && w.drivers[i].version == w.row.version && w.row.status.Running?
    && w.drivers[i].phase.Drained?
    && exists k :: w.drivers[i].phase.cursor <= k < |w.stream| && w.stream[k]
  }

  ghost predicate NoLostWake(w: World) {
    forall i: nat :: Owed(w, i) ==> w.row.command.StartCmd?
  }

  /** The hypothesis: each run's `started` is applied at most once. */
  predicate StartsAgain(w: World, a: Action) {
    && Enabled(w, a) && a.ReportStarted?
    && Applies(w.row, StartedBy(w.drivers[a.i]))
    && w.row.version in w.startedAt
  }

  predicate StartedOncePerRun(w: World, acts: seq<Action>)
    decreases acts
  {
    acts == [] || (!StartsAgain(w, acts[0]) && StartedOncePerRun(Next(w, acts[0]), acts[1..]))
  }

  predicate PastStarted(d: Driver) {
    d.phase.Acked? || d.phase.Drained?
  }

  ghost predicate Shape(w: World) {
    && Consistent(w.row)
    && (forall i :: 0 <= i < |w.drivers| ==> w.drivers[i].version <= w.row.version)
    && (w.row.status in {Pending, Restarting} ==>
          forall i :: 0 <= i < |w.drivers| && PastStarted(w.drivers[i]) ==> w.drivers[i].version < w.row.version)
    && (w.row.status.Running? ==> w.row.version in w.startedAt)
    && (forall i :: 0 <= i < |w.drivers| && w.drivers[i].phase.Drained? ==> w.drivers[i].phase.cursor <= |w.stream|)
  }

  /** The steps that change the row alone, or the row and the stream. */
  predicate RowStep(a: Action) {
    a.Instruct? || a.Attach? || a.UserActs? || a.OutboxDelivers?
  }

  lemma ShapeKeptByRowStep(w: World, a: Action)
    requires Shape(w) && RowStep(a)
    ensures Shape(Next(w, a))
  {
  }

  lemma ShapeKeptByReport(w: World, a: Action)
    requires Shape(w) && (a.ReportStarted? || a.ReportOutcome?)
    ensures Shape(Next(w, a))
  {
  }

  lemma ShapeKept(w: World, a: Action)
    requires Shape(w)
    ensures Shape(Next(w, a))
  {
    if RowStep(a) {
      ShapeKeptByRowStep(w, a);
    } else if a.ReportStarted? || a.ReportOutcome? {
      ShapeKeptByReport(w, a);
    }
  }

  /** The one step that loses a wake: a second `started` of a live run that
      has drained and is owed another one. */
  ghost predicate LosesWake(w: World, a: Action) {
    StartsAgain(w, a) && w.row.status.Running? && exists j: nat :: Owed(w, j)
  }

  lemma WakeKept(w: World, a: Action)
    requires Shape(w) && NoLostWake(w)
    requires !LosesWake(w, a)
    ensures NoLostWake(Next(w, a))
  {
    var n := Next(w, a);
    forall i: nat | Owed(n, i)
      ensures n.row.command.StartCmd?
    {
      var k :| n.drivers[i].phase.cursor <= k < |n.stream| && n.stream[k];
      if i < |w.drivers| && w.drivers[i] == n.drivers[i] && k < |w.stream| && w.row.version == n.row.version && w.row.status.Running? {
        assert Owed(w, i);
      }
    }
  }

  lemma WakeLost(w: World, a: Action)
    requires Shape(w) && NoLostWake(w) && LosesWake(w, a)
    ensures !NoLostWake(Next(w, a))
  {
    var j: nat :| Owed(w, j);
    var n := Next(w, a);
    assert n.drivers[j] == w.drivers[j];
    assert Owed(n, j);
  }

  /** From a state where no wake is lost, a step loses one exactly when it is that step. */
  lemma WakeLostExactly(w: World, a: Action)
    requires Shape(w) && NoLostWake(w)
    ensures NoLostWake(Next(w, a)) <==> !LosesWake(w, a)
  {
    if LosesWake(w, a) {
      WakeLost(w, a);
    } else {
      WakeKept(w, a);
    }
  }

  lemma {:induction false} KeptThroughout(w: World, acts: seq<Action>)
    requires Shape(w) && NoLostWake(w) && StartedOncePerRun(w, acts)
    ensures Shape(After(w, acts)) && NoLostWake(After(w, acts))
    decreases acts
  {
    if acts != [] {
      ShapeKept(w, acts[0]);
      WakeLostExactly(w, acts[0]);
      KeptThroughout(Next(w, acts[0]), acts[1..]);
    }
  }

  /** Over every interleaving in which each run's `started` is applied at most
      once, no wake appended after the current run's drain is lost. */
  lemma {:induction false} NoWakeIsEverLost(w: World, acts: seq<Action>)
    requires Initial(w) && StartedOncePerRun(w, acts)
    ensures NoLostWake(After(w, acts))
  {
    KeptThroughout(w, acts);
  }

  /** So the owed run's own `stopped` provisions the next run; it never completes the task. */
  lemma {:induction false} OwedRunProvisionsNext(w: World, acts: seq<Action>, i: nat)
    requires Initial(w) && StartedOncePerRun(w, acts)
    requires Owed(After(w, acts), i)
    ensures var now := After(w, acts);
            Next(now, ReportOutcome(i, false)).row
            == now.row.(status := Pending, command := StartCmd, version := now.row.version + 1)
  {
    NoWakeIsEverLost(w, acts);
  }

  /** Without the hypothesis it fails: two drivers of one run, the second
      `started` landing after a wake, complete the task with the wake undelivered. */
  lemma SecondStartedLosesWake(w: World)
    requires Initial(w) && w.row.status.Pending?
    ensures var acts := [Launch, Launch, ReportStarted(0, true), Drain(0), Attach(true), ReportStarted(1, true)];
            var now := After(w, acts);
            && !StartedOncePerRun(w, acts)
            && Owed(now, 0) && now.row.command.NoCommand?
            && Next(now, ReportOutcome(0, false)).row.status.Completed?
  {
    TwoDriversOfOneRun(w);
    var w3 := After(w, [Launch, Launch, ReportStarted(0, true)]);
    WakeThenSecondStarted(w3);
    Unfold3(w, Launch, Launch, ReportStarted(0, true), [Drain(0), Attach(true), ReportStarted(1, true)]);
    assert [Launch, Launch, ReportStarted(0, true)] + [Drain(0), Attach(true), ReportStarted(1, true)]
        == [Launch, Launch, ReportStarted(0, true), Drain(0), Attach(true), ReportStarted(1, true)];
  }

  lemma WakeThenSecondStarted(w3: World)
    requires w3.row.status.Running? && w3.row.command.NoCommand? && !w3.row.archived && w3.row.version == 1
    requires w3.drivers == [Driver(1, Acked), Driver(1, Fetched)] && 1 in w3.startedAt
    ensures var acts := [Drain(0), Attach(true), ReportStarted(1, true)];
            var now := After(w3, acts);
            && !StartedOncePerRun(w3, acts)
            && Owed(now, 0) && now.row.command.NoCommand?
            && Next(now, ReportOutcome(0, false)).row.status.Completed?
  {
    var w4 := Next(w3, Drain(0));
    var w5 := Next(w4, Attach(true));
    var w6 := Next(w5, ReportStarted(1, true));
    Unfold(w3, Drain(0), [Attach(true), ReportStarted(1, true)]);
    Unfold(w4, Attach(true), [ReportStarted(1, true)]);
    Unfold(w5, ReportStarted(1, true), []);
    assert w6.drivers[0].phase == Drained(|w3.stream|) && w6.stream == w3.stream + [true];
    assert w6.stream[|w3.stream|];
  }

  lemma TwoDriversOfOneRun(w: World)
    requires Initial(w) && w.row.status.Pending?
    ensures var v := w.row.version;
            After(w, [Launch, Launch, ReportStarted(0, true)])
            == World(w.row.(status := Running, command := NoCommand), w.stream,
                     [Driver(v, Acked), Driver(v, Fetched)], {v})
  {
    var w1 := Next(w, Launch);
    var w2 := Next(w1, Launch);
    Unfold(w, Launch, [Launch, ReportStarted(0, true)]);
    Unfold(w1, Launch, [ReportStarted(0, true)]);
    Unfold(w2, ReportStarted(0, true), []);
    assert w2.drivers == [Driver(w.row.version, Fetched), Driver(w.row.version, Fetched)];
  }

  lemma Unfold3(w: World, a: Action, b: Action, c: Action, rest: seq<Action>)
    ensures After(w, [a, b, c] + rest) == After(After(w, [a, b, c]), rest)
    ensures StartedOncePerRun(w, [a, b, c] + rest) ==> StartedOncePerRun(After(w, [a, b, c]), rest)
  {
    var w1 := Next(w, a);
    Unfold(w, a, [b, c]);
    Unfold(w, a, [b, c] + rest);
    assert [a] + ([b, c] + rest) == [a, b, c] + rest && [a] + [b, c] == [a, b, c];
    Unfold(w1, b, [c]);
    Unfold(w1, b, [c] + rest);
    assert [b] + ([c] + rest) == [b, c] + rest && [b] + [c] == [b, c];
    Unfold(Next(w1, b), c, []);
    Unfold(Next(w1, b), c, rest);
  }

  lemma Unfold(w: World, a: Action, rest: seq<Action>)
    ensures After(w, [a] + rest) == After(Next(w, a), rest)
    ensures StartedOncePerRun(w, [a] + rest) <==> !StartsAgain(w, a) && StartedOncePerRun(Next(w, a), rest)
  {
    assert ([a] + rest)[1..] == rest;
  }
}
