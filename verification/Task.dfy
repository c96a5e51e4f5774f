/** The task row: user operations and version-stamped runner events fold over
    (status, command, version, archived). Follows internal/model/task.go. */
module Tasks {
  import opened Options

  datatype Status = Pending | Running | Restarting | Cancelling | Completed | Failed | Cancelled | Draft

  datatype Command = NoCommand | RestartCmd | StopCmd | StartCmd

  datatype Row = Row(status: Status, command: Command, version: int, archived: bool, autoArchive: int)

  datatype EventKind = Started | Stopped | RunFailed | OtherKind

  /** A runner event: version 0 is unscoped, any other version names one run. */
  datatype RunnerEvent = RunnerEvent(kind: EventKind, version: int, reconcile: bool)

  datatype UserOp = Start | Restart | Cancel | Archive | Unarchive

  datatype Op = User(op: UserOp) | Event(event: RunnerEvent)

  predicate IsTerminal(s: Status) {
    s.Completed? || s.Failed? || s.Cancelled?
  }

  // ---- runner events -------------------------------------------------------

  /** The row after a `started`, or None when the event is ignored. */
  function FoldStarted(r: Row): Option<Row> {
    if r.archived then Some(r.(status := Cancelling, command := StopCmd))
    else if r.status in {Pending, Restarting, Running} then
      if r.command in {RestartCmd, StartCmd} then Some(r.(status := Running, command := NoCommand)) else None
    else if r.status.Cancelled? then Some(r.(status := Cancelling, command := StopCmd))
    else None
  }

  function FoldStopped(r: Row): Option<Row> {
    match r.status
    case Running => (
      match r.command
      case StopCmd => Some(r.(status := Cancelled, command := NoCommand))
      case StartCmd => Some(r.(status := Pending, version := r.version + 1))
      case NoCommand => Some(r.(status := Completed))
      case RestartCmd => None)
    case Cancelling => if r.command.StopCmd? then Some(r.(status := Cancelled, command := NoCommand)) else None
    case _ => None
  }

  function FoldFailed(r: Row): Option<Row> {
    if r.status in {Pending, Restarting, Running, Cancelling}
    then Some(r.(status := Status.Failed, command := NoCommand)) else None
  }

  /** The row after a runner event, or None when the event is acknowledged but not applied. */
  function Fold(r: Row, e: RunnerEvent): Option<Row> {
    if e.reconcile || (e.version != 0 && e.version != r.version) then None
    else match e.kind
      case Started => FoldStarted(r)
      case Stopped => FoldStopped(r)
      case RunFailed => FoldFailed(r)
      case OtherKind => None
  }

  predicate Applies(r: Row, e: RunnerEvent) {
    Fold(r, e).Some?
  }

  /** The runner to notify: a row with a command has work for its runner unless archived. */
  function RunnerToNotify(r: Row, runner: string): string {
    if r.command.NoCommand? || r.archived then "" else runner
  }

  // ---- user operations -----------------------------------------------------

  predicate CanArchive(r: Row) {
    !r.archived && r.command.NoCommand? && (IsTerminal(r.status) || r.status.Draft?)
  }

  predicate CanCancel(r: Row) {
    !r.archived && r.status in {Running, Restarting, Pending}
  }

  predicate CanRestart(r: Row) {
    !r.archived && r.status in {Running, Completed, Status.Failed, Cancelled}
  }

  predicate CanStart(r: Row) {
    !r.archived && r.status in {Running, Completed, Status.Failed, Cancelled, Draft}
  }

  function StartedByUser(r: Row): Row {
    if !CanStart(r) then r
    else if r.status.Running? then r.(command := StartCmd)
    else r.(status := Pending, version := r.version + 1, command := StartCmd)
  }

  function RestartedByUser(r: Row): Row {
    if !CanRestart(r) then r
    else r.(status := if r.status.Running? then Restarting else Pending,
            command := RestartCmd, version := r.version + 1)
  }

  function CancelledByUser(r: Row): Row {
    if !CanCancel(r) then r
    else if r.status.Pending? then r.(status := Cancelled, command := NoCommand)
    else r.(status := Cancelling, command := StopCmd)
  }

  function ArchivedByUser(r: Row): Row {
    if CanArchive(r) then r.(archived := true) else r
  }

  function UnarchivedByUser(r: Row): Row {
    if r.archived then r.(archived := false, autoArchive := 0) else r
  }

  function Step(r: Row, op: Op): Row {
    match op
    case User(Start) => StartedByUser(r)
    case User(Restart) => RestartedByUser(r)
    case User(Cancel) => CancelledByUser(r)
    case User(Archive) => ArchivedByUser(r)
    case User(Unarchive) => UnarchivedByUser(r)
    case Event(e) => if Applies(r, e) then Fold(r, e).value else r
  }

  function After(r: Row, ops: seq<Op>): Row
    decreases ops
  {
    if ops == [] then r else After(Step(r, ops[0]), ops[1..])
  }

  /** A row as CreateTask or a routing rule writes it. */
  predicate Created(r: Row) {
    !r.archived && ((r.status.Pending? && r.command.StartCmd? && r.version == 1)
                    || (r.status.Draft? && r.command.NoCommand? && r.version == 0))
  }

  // ---- every reachable row -------------------------------------------------

  /** Which commands a status may carry, and which statuses may be archived. */
  predicate Consistent(r: Row) {
    && (r.status.Pending? ==> r.command in {StartCmd, RestartCmd})
    && (r.status.Running? ==> r.command in {NoCommand, StartCmd})
    && (r.status.Restarting? ==> r.command.RestartCmd?)
    && (r.status.Cancelling? ==> r.command.StopCmd?)
    && (IsTerminal(r.status) || r.status.Draft? ==> r.command.NoCommand?)
    && (r.archived ==> IsTerminal(r.status) || r.status in {Draft, Cancelling})
  }

  lemma {:induction false} ConsistentAfter(r: Row, ops: seq<Op>)
    requires Consistent(r)
    ensures Consistent(After(r, ops))
    decreases ops
  {
    if ops != [] {
      ConsistentAfter(Step(r, ops[0]), ops[1..]);
    }
  }

  lemma {:induction false} ReachableConsistent(r: Row, ops: seq<Op>)
    requires Created(r)
    ensures Consistent(After(r, ops))
  {
    ConsistentAfter(r, ops);
  }

  lemma {:induction false} VersionsNeverDecrease(r: Row, ops: seq<Op>)
    ensures r.version <= After(r, ops).version
    decreases ops
  {
    if ops != [] {
      VersionsNeverDecrease(Step(r, ops[0]), ops[1..]);
    }
  }

  lemma {:induction false} AfterInTwo(r: Row, ops: seq<Op>, more: seq<Op>)
    ensures After(r, ops + more) == After(After(r, ops), more)
    decreases ops
  {
    if ops == [] {
      assert ops + more == more;
    } else {
      assert (ops + more)[1..] == ops[1..] + more;
      AfterInTwo(Step(r, ops[0]), ops[1..], more);
    }
  }

  /** While a restarted row stays at its version, a start waits behind a live run
      or is not asked for. */
  lemma {:induction false} RestartedRunStartsNoMore(r: Row, ops: seq<Op>)
    requires Consistent(r) && (r.command.StartCmd? ==> r.status.Running?)
    ensures var n := After(r, ops); n.version == r.version && n.command.StartCmd? ==> n.status.Running?
    decreases ops
  {
    if ops != [] {
      var next := Step(r, ops[0]);
      ConsistentAfter(r, [ops[0]]);
      assert After(r, [ops[0]]) == next;
      if next.version == r.version {
        RestartedRunStartsNoMore(next, ops[1..]);
      } else {
        VersionsNeverDecrease(next, ops[1..]);
        VersionsNeverDecrease(r, [ops[0]]);
      }
    }
  }

  // ---- runner events make progress -----------------------------------------

  function Rank(r: Row): nat {
    match r.status
    case Running => if r.command.StartCmd? then 3 else 1
    case Pending => 2
    case Restarting => 2
    case Cancelling => 1
    case _ => 0
  }

  /** A `started` from a sandbox whose task was already cancelled. */
  predicate Zombie(r: Row, e: RunnerEvent) {
    e.kind.Started? && r.status.Cancelled? && Applies(r, e)
  }

  /** How many of the events were applied, and how many of those were zombies. */
  function AppliedCount(r: Row, es: seq<RunnerEvent>): nat
    decreases es
  {
    if es == [] then 0
    else (if Applies(r, es[0]) then 1 else 0) + AppliedCount(Step(r, Event(es[0])), es[1..])
  }

  function ZombieCount(r: Row, es: seq<RunnerEvent>): nat
    decreases es
  {
    if es == [] then 0
    else (if Zombie(r, es[0]) then 1 else 0) + ZombieCount(Step(r, Event(es[0])), es[1..])
  }

  lemma AppliedEventLowersRank(r: Row, e: RunnerEvent)
    requires Consistent(r) && !r.archived && Applies(r, e)
    ensures !Zombie(r, e) ==> Rank(Fold(r, e).value) < Rank(r)
    ensures Zombie(r, e) ==> Rank(r) == 0 && Rank(Fold(r, e).value) == 1
  {
  }

  /** However many runner events are delivered, duplicated or reordered between
      two user operations, only boundedly many of them change the row. */
  lemma {:induction false} AppliedEventsAreBounded(r: Row, es: seq<RunnerEvent>)
    requires Consistent(r) && !r.archived
    ensures AppliedCount(r, es) <= Rank(r) + 2 * ZombieCount(r, es)
    decreases es
  {
    if es != [] {
      if Applies(r, es[0]) {
        AppliedEventLowersRank(r, es[0]);
      }
      ConsistentAfter(r, [Event(es[0])]);
      AppliedEventsAreBounded(Step(r, Event(es[0])), es[1..]);
    }
  }

  // ---- a run's outcome is decided once -------------------------------------

  predicate IsOutcomeOf(e: RunnerEvent, n: int) {
    e.kind in {Stopped, RunFailed} && e.version == n
  }

  /** Run n has ended: the row has moved past it or rests in a terminal status at it. */
  predicate Settled(r: Row, n: int) {
    n < r.version || (n == r.version && IsTerminal(r.status))
  }

  /** A `started` that is applied while the row is still at run n. */
  predicate Revives(r: Row, n: int, op: Op) {
    && op.Event? && op.event.kind.Started? && !op.event.reconcile
    && op.event.version in {0, n}
    && r.version == n && (r.archived || r.status.Cancelled?)
  }

  predicate NeverRevived(r: Row, n: int, ops: seq<Op>)
    decreases ops
  {
    ops == [] || (!Revives(r, n, ops[0]) && NeverRevived(Step(r, ops[0]), n, ops[1..]))
  }

  lemma OutcomeSettles(r: Row, e: RunnerEvent, n: int)
    requires n >= 1 && IsOutcomeOf(e, n) && Applies(r, e)
    ensures Settled(Fold(r, e).value, n)
  {
  }

  /** One operation reopens a settled run exactly when it is a reviving `started`. */
  lemma SettledUnlessRevived(r: Row, n: int, op: Op)
    requires Settled(r, n)
    ensures Settled(Step(r, op), n) <==> !Revives(r, n, op)
  {
  }

  /** Once an outcome of run n was applied no second one ever is, whatever
      operations and events follow, unless a `started` revives the run. */
  lemma {:induction false} OutcomeDecidedOnce(r: Row, first: RunnerEvent, n: int, ops: seq<Op>, late: RunnerEvent)
    requires n >= 1 && IsOutcomeOf(first, n) && Applies(r, first)
    requires NeverRevived(Fold(r, first).value, n, ops)
    requires IsOutcomeOf(late, n)
    ensures !Applies(After(Fold(r, first).value, ops), late)
  {
    OutcomeSettles(r, first, n);
    SettledStays(Fold(r, first).value, n, ops);
  }

  lemma {:induction false} SettledStays(r: Row, n: int, ops: seq<Op>)
    requires Settled(r, n) && NeverRevived(r, n, ops)
    ensures Settled(After(r, ops), n)
    decreases ops
  {
    if ops != [] {
      SettledUnlessRevived(r, n, ops[0]);
      SettledStays(Step(r, ops[0]), n, ops[1..]);
    }
  }

  /** The exception is real: a reviving `started` makes a second `stopped` of the same run count. */
  lemma RevivedRunSettlesAgain(r: Row, n: int, op: Op)
    requires Settled(r, n) && Revives(r, n, op)
    ensures Applies(Step(r, op), RunnerEvent(Stopped, n, false))
  {
  }

  /** The runner's backstop for run n can never fail a later run. */
  lemma {:induction false} BackstopSparesLaterRuns(r: Row, ops: seq<Op>, n: int, e: RunnerEvent)
    requires 1 <= n < r.version && e.version == n
    ensures !Applies(After(r, ops), e)
  {
    VersionsNeverDecrease(r, ops);
  }

  // ---- a live run ends the way its users asked -----------------------------

  datatype Ending = Finishes | WakesNextRun | IsCancelled | IsDisowned

  /** What a live run's `stopped` should do after these user operations: the
      first restart or cancel decides; failing those, any number of starts
      queue one next run. */
  function Asked(woken: bool, ops: seq<UserOp>): Ending
    decreases ops
  {
    if ops == [] then (if woken then WakesNextRun else Finishes)
    else match ops[0]
      case Restart => IsDisowned
      case Cancel => IsCancelled
      case Start => Asked(true, ops[1..])
      case _ => Asked(woken, ops[1..])
  }

  function UserOps(ops: seq<UserOp>): (all: seq<Op>)
    ensures |all| == |ops| && forall i :: 0 <= i < |ops| ==> all[i] == User(ops[i])
  {
    seq(|ops|, i requires 0 <= i < |ops| => User(ops[i]))
  }

  lemma {:induction false} StoppedHonoursUsers(r: Row, ops: seq<UserOp>)
    requires Consistent(r) && r.status.Running?
    requires r.version >= 1
    ensures var end := Asked(r.command.StartCmd?, ops);
            var folded := Fold(After(r, UserOps(ops)), RunnerEvent(Stopped, r.version, false));
            match end
            case Finishes => folded == Some(r.(status := Completed))
            case WakesNextRun => folded == Some(r.(status := Pending, command := StartCmd, version := r.version + 1))
            case IsCancelled => folded == Some(r.(status := Cancelled, command := NoCommand))
            case IsDisowned => folded == None
    decreases ops
  {
    if ops != [] {
      var all := UserOps(ops);
      assert all[1..] == UserOps(ops[1..]);
      var next := Step(r, all[0]);
      match ops[0] {
        case Restart => VersionsNeverDecrease(next, all[1..]);
        case Cancel => CancellingIgnoresUsers(next, ops[1..]);
        case _ => StoppedHonoursUsers(next, ops[1..]);
      }
    }
  }

  lemma {:induction false} CancellingIgnoresUsers(r: Row, ops: seq<UserOp>)
    requires Consistent(r) && r.status.Cancelling? && !r.archived
    ensures After(r, UserOps(ops)) == r
    decreases ops
  {
    if ops != [] {
      assert UserOps(ops)[1..] == UserOps(ops[1..]);
      CancellingIgnoresUsers(r, ops[1..]);
    }
  }

  // ---- every report, after anything the users did --------------------------

  lemma {:induction false} UsersLeaveSettled(r: Row, n: int, ops: seq<UserOp>)
    requires Settled(r, n)
    ensures Settled(After(r, UserOps(ops)), n)
    decreases ops
  {
    if ops != [] {
      assert UserOps(ops)[1..] == UserOps(ops[1..]);
      SettledUnlessRevived(r, n, User(ops[0]));
      UsersLeaveSettled(Step(r, User(ops[0])), n, ops[1..]);
    }
  }

  /** Whether the run of a row with this status is still the row's to report on:
      a restart moves a live row past it, a cancel ends one that waits to start. */
  predicate StillReports(s: Status, ops: seq<UserOp>)
    decreases ops
  {
    if ops == [] || s.Cancelling? then true
    else match ops[0]
      case Cancel => !s.Pending?
      case Restart => !s.Running? && StillReports(s, ops[1..])
      case _ => StillReports(s, ops[1..])
  }

  /** A run that fails fails its task, whatever was queued or asked for
      meanwhile, unless the task has moved past the run or ended without it. */
  lemma {:induction false} FailedHonoursUsers(r: Row, ops: seq<UserOp>)
    requires Consistent(r) && !r.archived && r.version >= 1
    requires r.status in {Pending, Running, Restarting, Cancelling}
    ensures Fold(After(r, UserOps(ops)), RunnerEvent(RunFailed, r.version, false))
         == if StillReports(r.status, ops) then Some(r.(status := Status.Failed, command := NoCommand)) else None
    decreases ops
  {
    if ops != [] {
      var all := UserOps(ops);
      assert all[1..] == UserOps(ops[1..]);
      var next := Step(r, all[0]);
      if r.status.Pending? && ops[0].Cancel? {
        UsersLeaveSettled(next, r.version, ops[1..]);
      } else if r.status.Running? && ops[0].Restart? {
        VersionsNeverDecrease(next, all[1..]);
      } else if next.status.Cancelling? {
        CancellingIgnoresUsers(next, ops[1..]);
      } else {
        FailedHonoursUsers(next, ops[1..]);
      }
    }
  }

  /** A row whose run was cancelled before it started rests there, archived or
      not, until a user asks for another run. */
  lemma {:induction false} CancelledRests(r: Row, ops: seq<UserOp>)
    requires r.status.Cancelled? && r.command.NoCommand?
    ensures var now := After(r, UserOps(ops));
            now.version > r.version || now == r.(archived := now.archived, autoArchive := now.autoArchive)
    decreases ops
  {
    if ops != [] {
      assert UserOps(ops)[1..] == UserOps(ops[1..]);
      var next := Step(r, User(ops[0]));
      if next.version == r.version {
        CancelledRests(next, ops[1..]);
      } else {
        VersionsNeverDecrease(next, UserOps(ops[1..]));
      }
    }
  }

  /** A provisioned run that starts makes its task live, unless it was cancelled
      first: then it is stopped again, or already being stopped, or passed by. */
  lemma {:induction false} StartedHonoursUsers(r: Row, ops: seq<UserOp>)
    requires Consistent(r) && r.status in {Pending, Restarting} && r.version >= 1
    ensures var now := After(r, UserOps(ops));
            var folded := Fold(now, RunnerEvent(Started, r.version, false));
            if Cancel !in ops then folded == Some(r.(status := Running, command := NoCommand))
            else if r.status.Restarting? || now.version > r.version then folded == None
            else folded == Some(r.(status := Cancelling, command := StopCmd,
                                   archived := now.archived, autoArchive := now.autoArchive))
    decreases ops
  {
    if ops != [] {
      var all := UserOps(ops);
      assert all[1..] == UserOps(ops[1..]);
      var next := Step(r, all[0]);
      if !ops[0].Cancel? {
        StartedHonoursUsers(r, ops[1..]);
      } else if r.status.Pending? {
        CancelledRests(next, ops[1..]);
      } else {
        CancellingIgnoresUsers(next, ops[1..]);
      }
    }
  }

  /** A live run's second `started` does nothing but take back a queued start. */
  lemma {:induction false} StartedAgainHonoursUsers(r: Row, ops: seq<UserOp>)
    requires Consistent(r) && r.status.Running? && r.version >= 1
    ensures Fold(After(r, UserOps(ops)), RunnerEvent(Started, r.version, false))
         == if Asked(r.command.StartCmd?, ops).WakesNextRun? then Some(r.(command := NoCommand)) else None
    decreases ops
  {
    if ops != [] {
      var all := UserOps(ops);
      assert all[1..] == UserOps(ops[1..]);
      var next := Step(r, all[0]);
      match ops[0] {
        case Restart => VersionsNeverDecrease(next, all[1..]);
        case Cancel => CancellingIgnoresUsers(next, ops[1..]);
        case _ => StartedAgainHonoursUsers(next, ops[1..]);
      }
    }
  }

  /** A `stopped` of a run that is not live counts only where a stop was asked for. */
  lemma {:induction false} StoppedUnstartedHonoursUsers(r: Row, ops: seq<UserOp>)
    requires Consistent(r) && !r.archived && r.status in {Pending, Restarting, Cancelling} && r.version >= 1
    ensures Fold(After(r, UserOps(ops)), RunnerEvent(Stopped, r.version, false))
         == if r.status.Cancelling? || (r.status.Restarting? && Cancel in ops)
            then Some(r.(status := Cancelled, command := NoCommand)) else None
    decreases ops
  {
    if ops != [] {
      var all := UserOps(ops);
      assert all[1..] == UserOps(ops[1..]);
      var next := Step(r, all[0]);
      if r.status.Pending? && ops[0].Cancel? {
        UsersLeaveSettled(next, r.version, ops[1..]);
      } else if next.status.Cancelling? {
        CancellingIgnoresUsers(next, ops[1..]);
      } else {
        StoppedUnstartedHonoursUsers(next, ops[1..]);
      }
    }
  }

  lemma AfterTwo(r: Row, a: Op, b: Op)
    ensures After(r, [a, b]) == Step(Step(r, a), b)
  {
    assert [a, b][1..] == [b] && [b][1..] == [];
    assert After(Step(r, a), [b]) == After(Step(Step(r, a), b), []);
  }

  function StartedAt(version: int): Op {
    Event(RunnerEvent(Started, version, false))
  }

  function StoppedAt(version: int): Op {
    Event(RunnerEvent(Stopped, version, false))
  }

  /** Nothing is reported of a task at rest but the start of a run it gave up on,
      and an archived task's sandbox is stopped and its row comes to rest again. */
  lemma RestingIgnoresReports(r: Row, e: RunnerEvent)
    requires Consistent(r) && r.status in {Draft, Completed, Status.Failed, Cancelled}
    ensures Applies(r, e) <==>
              e.kind.Started? && !e.reconcile && e.version in {0, r.version} && (r.archived || r.status.Cancelled?)
    ensures Applies(r, e) ==>
              After(r, [Event(e), StoppedAt(r.version)]) == r.(status := Cancelled, command := NoCommand)
  {
    AfterTwo(r, Event(e), StoppedAt(r.version));
  }

  /** An unscoped event means the current run; one of another run, a reconcile, any
      other kind and a `stopped` while a restart is pending mean nothing. */
  lemma EventsNameTheirRun(r: Row, kind: EventKind, n: int)
    ensures Fold(r, RunnerEvent(kind, 0, false)) == Fold(r, RunnerEvent(kind, r.version, false))
    ensures n !in {0, r.version} ==> !Applies(r, RunnerEvent(kind, n, false))
    ensures !Applies(r, RunnerEvent(kind, n, true)) && !Applies(r, RunnerEvent(OtherKind, n, false))
    ensures r.command.RestartCmd? ==> !Applies(r, RunnerEvent(Stopped, n, false))
  {
  }

  // ---- what users ask for happens ------------------------------------------

  lemma StartFromRest(r: Row)
    requires Consistent(r) && !r.archived && r.status in {Draft, Completed, Status.Failed, Cancelled}
    ensures After(r, [User(Start), StartedAt(r.version + 1)])
         == r.(status := Running, command := NoCommand, version := r.version + 1)
  {
    AfterTwo(r, User(Start), StartedAt(r.version + 1));
  }

  lemma StartFromLive(r: Row)
    requires Consistent(r) && r.status.Running?
    ensures Step(After(r, [User(Start), StoppedAt(r.version)]), StartedAt(r.version + 1))
         == r.(status := Running, command := NoCommand, version := r.version + 1)
  {
    AfterTwo(r, User(Start), StoppedAt(r.version));
  }

  /** A start leads to one more live run, at once from rest and after the present
      run otherwise; where it is not allowed it changes nothing. */
  lemma StartLeadsToRun(r: Row)
    requires Consistent(r)
    ensures r.archived || r.status in {Pending, Restarting, Cancelling} ==> Step(r, User(Start)) == r
    ensures var next := r.(status := Running, command := NoCommand, version := r.version + 1);
            && (!r.archived && r.status in {Draft, Completed, Status.Failed, Cancelled} ==>
                  After(r, [User(Start), StartedAt(r.version + 1)]) == next)
            && (r.status.Running? ==> Step(After(r, [User(Start), StoppedAt(r.version)]), StartedAt(r.version + 1)) == next)
  {
    if !r.archived && r.status in {Draft, Completed, Status.Failed, Cancelled} {
      StartFromRest(r);
    } else if r.status.Running? {
      StartFromLive(r);
    }
  }

  /** A restart leads to a live run at the next version, which alone may report;
      cancelled before that, a sandbox that was live is stopped and any other
      never started. */
  lemma RestartLeadsToRun(r: Row)
    requires Consistent(r)
    ensures r.archived || r.status in {Draft, Pending, Restarting, Cancelling} ==> Step(r, User(Restart)) == r
    ensures !r.archived && r.status in {Running, Completed, Status.Failed, Cancelled} ==>
              var next := r.(status := Running, command := NoCommand, version := r.version + 1);
              && After(r, [User(Restart), StartedAt(r.version + 1)]) == next
              && After(r, [User(Restart), User(Cancel)])
                 == if r.status.Running? then next.(status := Cancelling, command := StopCmd)
                    else next.(status := Cancelled)
  {
    AfterTwo(r, User(Restart), StartedAt(r.version + 1));
    AfterTwo(r, User(Restart), User(Cancel));
  }

  /** A cancel ends the task cancelled: a waiting one at once, a live one with its run's `stopped`. */
  lemma CancelLeadsToCancelled(r: Row)
    requires Consistent(r)
    ensures r.archived || r.status !in {Pending, Running, Restarting} ==> Step(r, User(Cancel)) == r
    ensures r.status.Pending? ==> Step(r, User(Cancel)) == r.(status := Cancelled, command := NoCommand)
    ensures r.status in {Running, Restarting} ==>
              !IsTerminal(Step(r, User(Cancel)).status)
              && After(r, [User(Cancel), StoppedAt(r.version)]) == r.(status := Cancelled, command := NoCommand)
  {
    AfterTwo(r, User(Cancel), StoppedAt(r.version));
  }

  /** Archiving freezes a task at rest against everything a user does but
      unarchiving, which gives the row back without its timeout. */
  lemma {:induction false} ArchivedIsFrozen(r: Row, ops: seq<UserOp>)
    requires Consistent(r) && r.status in {Draft, Completed, Status.Failed, Cancelled} && Unarchive !in ops
    ensures After(r.(archived := true), UserOps(ops)) == r.(archived := true)
    ensures Step(r, User(Archive)) == r.(archived := true)
    ensures Step(r.(archived := true), User(Unarchive)) == r.(archived := false, autoArchive := 0)
    decreases ops
  {
    if ops != [] {
      assert UserOps(ops)[1..] == UserOps(ops[1..]);
      ArchivedIsFrozen(r, ops[1..]);
    }
  }

  /** A task that is not at rest cannot be archived, nor one unarchived that is not archived. */
  lemma OnlyRestingIsArchived(r: Row)
    requires Consistent(r) && !r.archived
    ensures Step(r, User(Archive)) == r <==> r.status in {Pending, Running, Restarting, Cancelling}
    ensures Step(r, User(Unarchive)) == r
  {
  }

  // ---- the row as the server mutates it ------------------------------------

  class Task {
    var status: Status
    var command: Command
    var version: int
    var archived: bool
    var autoArchive: int
    const runner: string

    constructor (runner: string, draft: bool)
      ensures Created(View()) && View().status == (if draft then Draft else Pending)
      ensures this.runner == runner
    {
      this.runner := runner;
      status := if draft then Draft else Pending;
      command := if draft then NoCommand else StartCmd;
      version := if draft then 0 else 1;
      archived, autoArchive := false, 0;
    }

    function View(): Row
      reads this
    {
      Row(status, command, version, archived, autoArchive)
    }

    method ApplyRunnerEvent(e: RunnerEvent) returns (applied: bool)
      modifies this
      ensures applied == Applies(old(View()), e)
      ensures View() == Step(old(View()), Event(e))
    {
      if e.reconcile {
        return false;
      }
      if e.version != 0 && e.version != version {
        return false;
      }
      match e.kind {
        case Started => applied := ApplyStarted();
        case Stopped => applied := ApplyStopped();
        case RunFailed => applied := ApplyFailed();
        case OtherKind => applied := false;
      }
    }

    method ApplyStarted() returns (applied: bool)
      modifies this
      ensures applied == FoldStarted(old(View())).Some?
      ensures View() == if applied then FoldStarted(old(View())).value else old(View())
    {
      if archived {
        status, command := Cancelling, StopCmd;
        return true;
      }
      match status {
        case Pending | Restarting | Running =>
          if command == RestartCmd || command == StartCmd {
            status, command := Running, NoCommand;
            return true;
          }
          return false;
        case Cancelled =>
          status, command := Cancelling, StopCmd;
          return true;
        case _ =>
          return false;
      }
    }

    method ApplyStopped() returns (applied: bool)
      modifies this
      ensures applied == FoldStopped(old(View())).Some?
      ensures View() == if applied then FoldStopped(old(View())).value else old(View())
    {
      match status {
        case Running =>
          if command == StopCmd {
            status, command := Cancelled, NoCommand;
            return true;
          }
          if command == StartCmd {
            status, version := Pending, version + 1;
            return true;
          }
          if command == NoCommand {
            status := Completed;
            return true;
          }
          return false;
        case Cancelling =>
          if command == StopCmd {
            status, command := Cancelled, NoCommand;
            return true;
          }
          return false;
        case _ =>
          return false;
      }
    }

    method ApplyFailed() returns (applied: bool)
      modifies this
      ensures applied == FoldFailed(old(View())).Some?
      ensures View() == if applied then FoldFailed(old(View())).value else old(View())
    {
      match status {
        case Pending | Restarting | Running | Cancelling =>
          status, command := Status.Failed, NoCommand;
          return true;
        case _ =>
          return false;
      }
    }

    method Start() returns (ok: bool)
      modifies this
      ensures ok == CanStart(old(View()))
      ensures View() == Step(old(View()), User(UserOp.Start))
    {
      if !CanStart(View()) {
        return false;
      }
      if status != Running {
        status := Pending;
        version := version + 1;
      }
      command := StartCmd;
      return true;
    }

    method Restart() returns (ok: bool)
      modifies this
      ensures ok == CanRestart(old(View()))
      ensures View() == Step(old(View()), User(UserOp.Restart))
    {
      if !CanRestart(View()) {
        return false;
      }
      status := if status == Running then Restarting else Pending;
      command := RestartCmd;
      version := version + 1;
      return true;
    }

    method Cancel() returns (ok: bool)
      modifies this
      ensures ok == CanCancel(old(View()))
      ensures View() == Step(old(View()), User(UserOp.Cancel))
    {
      if !CanCancel(View()) {
        return false;
      }
      if status == Running || status == Restarting {
        status, command := Cancelling, StopCmd;
      } else {
        status, command := Cancelled, NoCommand;
      }
      return true;
    }

    method Archive() returns (ok: bool)
      modifies this
      ensures ok == CanArchive(old(View()))
      ensures View() == Step(old(View()), User(UserOp.Archive))
    {
      if !CanArchive(View()) {
        return false;
      }
      archived := true;
      return true;
    }

    method Unarchive() returns (ok: bool)
      modifies this
      ensures ok == old(archived)
      ensures View() == Step(old(View()), User(UserOp.Unarchive))
    {
      if !archived {
        return false;
      }
      archived := false;
      autoArchive := 0;
      return true;
    }

    /** The runner with pending work: non-empty exactly for the rows ListTasksForRunner returns. */
    function PendingRunner(): (name: string)
      reads this
      ensures runner != "" ==> (name == runner <==> command != NoCommand && !archived)
    {
      RunnerToNotify(View(), runner)
    }
  }
}
