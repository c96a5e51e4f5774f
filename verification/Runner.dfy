/** The runner: command handlers, concurrency slots, task records, supervisors
    and backstop events, stepping in any interleaving. Follows
    internal/runner/runner.go and internal/x/safesem/semaphore.go. */
module RunnerSteps {
  import opened Options
  import opened Sequences
  import opened Tasks

  datatype SandboxState = UnknownState | IsRunning | IsExited | IsGone

  /** A task's record: the run it launched and its sandbox. */
  datatype Record = Record(version: int, handle: int)

  /** How far a command handler has got. The phases from Resolve on hold a slot. */
  datatype Phase =
    | Begun
    | Killing
    | Acquiring
    | Resolving
    | Minting(reuse: Option<int>)
    | Launching(reuse: Option<int>)
    | Recording(handle: int)
    | Spawning(handle: int)
    | Failing

  /** A handler working on the task as a poll listed it. */
  datatype Job = Job(status: Status, command: Command, version: int, phase: Phase)

  datatype Watch = Watch(task: int, version: int, handle: int)

  datatype Queued = Queued(task: int, event: RunnerEvent)

  /** held is the semaphore's count, polled the tasks this poll pass has handed
      to handlers. The history: launches made, sandboxes the
      restart path signalled with the record's version, starts that returned
      nil without launching, and supervisors that ended with the runner. */
  datatype State = State(
    held: int, capacity: int,
    store: map<int, Record>, jobs: map<int, Job>, watching: seq<Watch>, queue: seq<Queued>, dead: bool,
    polled: set<int>, launches: seq<(int, int)>, restartSignals: seq<(int, int, int)>, leaked: nat, detached: nat)

  datatype LaunchResult = Launched(handle: int) | LaunchGone | LaunchFailed

  datatype Action =
    | Dispatch(task: int, status: Status, command: Command, version: int)
    | PollEnds
    | HandleStop(task: int, fails: bool, signalled: bool, enqueued: bool)
    | GuardRestart(task: int, readFails: bool)
    | KillOld(task: int, readFails: bool)
    | GuardStart(task: int, fails: bool, probe: SandboxState)
    | Acquire(task: int)
    | Resolve(task: int, fails: bool, probe: SandboxState, removed: bool)
    | Mint(task: int, ok: bool)
    | Launch(task: int, result: LaunchResult, removed: bool)
    | WriteRecord(task: int, ok: bool)
    | Spawn(task: int)
    | Fail(task: int, enqueued: bool)
    | SandboxExits(watch: nat, code: int, enqueued: bool)
    | Detach(watch: nat)
    | Prune(task: int)

  predicate In(s: State, task: int, phase: Phase) {
    task in s.jobs && s.jobs[task].phase == phase
  }

  predicate BeginsWith(s: State, task: int, command: Command) {
    In(s, task, Begun) && s.jobs[task].command == command
  }

  /** A pass lists a task once and waits for its handlers; a runner going down
      finishes its pass and begins no other. */
  predicate Enabled(s: State, a: Action) {
    match a
    case Dispatch(task, _, command, _) => task !in s.polled && task !in s.jobs && command != NoCommand
    case PollEnds => s.jobs == map[] && !s.dead
    case HandleStop(task, _, _, _) => BeginsWith(s, task, StopCmd)
    case GuardRestart(task, _) => BeginsWith(s, task, RestartCmd)
    case KillOld(task, _) => In(s, task, Killing)
    case GuardStart(task, _, _) => BeginsWith(s, task, StartCmd)
    case Acquire(task) => In(s, task, Acquiring)
    case Resolve(task, _, _, _) => In(s, task, Resolving)
    case Mint(task, _) => task in s.jobs && s.jobs[task].phase.Minting?
    case Launch(task, _, _) => task in s.jobs && s.jobs[task].phase.Launching?
    case WriteRecord(task, _) => task in s.jobs && s.jobs[task].phase.Recording?
    case Spawn(task) => task in s.jobs && s.jobs[task].phase.Spawning?
    case Fail(task, _) => In(s, task, Failing)
    case SandboxExits(w, _, _) => w < |s.watching|
    case Detach(w) => w < |s.watching|
    case Prune(_) => true
  }

  function Goto(s: State, task: int, phase: Phase): State
    requires task in s.jobs
  {
    s.(jobs := s.jobs[task := s.jobs[task].(phase := phase)])
  }

  function Done(s: State, task: int): State {
    s.(jobs := s.jobs - {task})
  }

  /** safesem.Release: floored at zero. */
  function Released(held: int): int {
    if held - 1 < 0 then 0 else held - 1
  }

  function Enqueue(s: State, task: int, kind: EventKind, version: int, ok: bool): State {
    if ok then s.(queue := s.queue + [Queued(task, RunnerEvent(kind, version, false))]) else s.(dead := true)
  }

  function Forget(s: State, task: int, ok: bool): State {
    if ok then s.(store := s.store - {task}) else s
  }

  function Fire(s: State, a: Action): State
    requires Enabled(s, a)
  {
    match a
    case Dispatch(task, status, command, version) =>
      s.(jobs := s.jobs[task := Job(status, command, version, Begun)], polled := s.polled + {task})
    case PollEnds => s.(polled := {})
    case HandleStop(task, fails, signalled, enqueued) =>
      if fails || (task in s.store && signalled) then Done(s, task)
      else Enqueue(Done(s, task), task, Stopped, s.jobs[task].version, enqueued)
    case GuardRestart(task, readFails) =>
      if readFails || (task in s.store && s.store[task].version == s.jobs[task].version) then Done(s, task)
      else Goto(s, task, Killing)
    case KillOld(task, readFails) =>
      var t := Goto(s, task, Acquiring);
      if readFails || task !in s.store then t
      else t.(restartSignals := s.restartSignals + [(task, s.jobs[task].version, s.store[task].version)])
    case GuardStart(task, fails, probe) =>
      if s.jobs[task].status.Running? || fails || (task in s.store && probe.IsRunning?) then Done(s, task)
      else Goto(s, task, Acquiring)
    case Acquire(task) =>
      if s.held + 1 <= s.capacity then Goto(s, task, Resolving).(held := s.held + 1) else Done(s, task)
    case Resolve(task, fails, probe, removed) =>
      if fails then Goto(s, task, Failing)
      else if task !in s.store then Goto(s, task, Minting(None))
      else (match probe
            case IsRunning => Done(s, task).(leaked := s.leaked + 1)
            case IsGone => Goto(Forget(s, task, removed), task, Failing)
            case _ => Goto(s, task, Minting(Some(s.store[task].handle))))
    case Mint(task, ok) =>
      Goto(s, task, if ok then Launching(s.jobs[task].phase.reuse) else Failing)
    case Launch(task, result, removed) => (
      match result
      case Launched(h) => Goto(s, task, Recording(h)).(launches := s.launches + [(task, s.jobs[task].version)])
      case LaunchGone => Goto(Forget(s, task, removed), task, Failing)
      case LaunchFailed => Goto(s, task, Failing))
    case WriteRecord(task, ok) =>
      var j := s.jobs[task];
      if ok then Goto(s, task, Spawning(j.phase.handle)).(store := s.store[task := Record(j.version, j.phase.handle)])
      else Goto(s, task, Failing).(dead := true)
    case Spawn(task) =>
      Done(s, task).(watching := s.watching + [Watch(task, s.jobs[task].version, s.jobs[task].phase.handle)])
    case Fail(task, enqueued) =>
      Enqueue(Done(s, task).(held := Released(s.held)), task, RunFailed, s.jobs[task].version, enqueued)
    case SandboxExits(w, code, enqueued) =>
      var t := s.(held := Released(s.held), watching := Without(s.watching, w));
      if code == 0 then t else Enqueue(t, s.watching[w].task, RunFailed, s.watching[w].version, enqueued)
    case Detach(w) => s.(watching := Without(s.watching, w), detached := s.detached + 1)
    case Prune(task) => Forget(s, task, true)
  }

  function Next(s: State, a: Action): State {
    if Enabled(s, a) then Fire(s, a) else s
  }

  function After(s: State, acts: seq<Action>): State
    decreases acts
  {
    if acts == [] then s else After(Next(s, acts[0]), acts[1..])
  }

  // ---- slots ---------------------------------------------------------------

  predicate HoldsSlot(j: Job) {
    !(j.phase.Begun? || j.phase.Killing? || j.phase.Acquiring?)
  }

  function Holders(s: State): set<int> {
    set t | t in s.jobs && HoldsSlot(s.jobs[t])
  }

  /** Slots held = supervisors waiting + starts in flight + starts that returned
      nil without launching + supervisors that ended with the runner. */
  predicate SlotsBalance(s: State) {
    s.held == |s.watching| + |Holders(s)| + s.leaked + s.detached
  }

  /** The semaphore as Load leaves it: one slot per supervised sandbox. */
  predicate Loaded(s: State) {
    s.jobs == map[] && s.polled == {} && s.held == |s.watching| && s.leaked == 0 && s.detached == 0
    && s.launches == [] && s.restartSignals == []
  }

  lemma OtherHoldersSame(s: State, t: State, task: int)
    requires s.jobs - {task} == t.jobs - {task}
    ensures Holders(s) - {task} == Holders(t) - {task}
  {
    forall x | x != task
      ensures x in Holders(s) <==> x in Holders(t)
    {
      assert x in s.jobs <==> x in s.jobs - {task};
      assert x in t.jobs <==> x in t.jobs - {task};
      assert x in s.jobs ==> (s.jobs - {task})[x] == s.jobs[x];
      assert x in t.jobs ==> (t.jobs - {task})[x] == t.jobs[x];
    }
  }

  lemma CountWithout(xs: set<int>, x: int)
    ensures |xs| == |xs - {x}| + (if x in xs then 1 else 0)
  {
    if x in xs {
      assert xs == (xs - {x}) + {x};
    } else {
      assert xs == xs - {x};
    }
  }

  lemma HoldersAfter(s: State, t: State, task: int)
    requires s.jobs - {task} == t.jobs - {task}
    ensures |Holders(t)| - (if task in Holders(t) then 1 else 0) == |Holders(s)| - (if task in Holders(s) then 1 else 0)
  {
    OtherHoldersSame(s, t, task);
    CountWithout(Holders(s), task);
    CountWithout(Holders(t), task);
  }

  predicate BeforeSlot(a: Action) {
    a.Dispatch? || a.HandleStop? || a.GuardRestart? || a.KillOld? || a.GuardStart?
  }

  predicate WithSlot(a: Action) {
    a.Mint? || a.Launch? || a.WriteRecord?
  }

  predicate SlotEdge(a: Action) {
    a.Acquire? || a.Resolve? || a.Spawn? || a.Fail?
  }

  predicate HandlerStep(a: Action) {
    BeforeSlot(a) || WithSlot(a) || SlotEdge(a)
  }

  predicate SameElsewhere(s: State, t: State, task: int) {
    s.jobs - {task} == t.jobs - {task} && s.store - {task} == t.store - {task}
  }

  lemma GotoKeeps(s: State, task: int, phase: Phase)
    requires task in s.jobs
    ensures SameElsewhere(s, Goto(s, task, phase), task)
    ensures SameElsewhere(s, Done(s, task), task)
    ensures SameElsewhere(s, Forget(s, task, true), task)
    ensures SameElsewhere(s, Goto(Forget(s, task, true), task, phase), task)
  {
    assert s.jobs[task := s.jobs[task].(phase := phase)] - {task} == s.jobs - {task};
    assert s.jobs - {task} - {task} == s.jobs - {task};
    assert s.store - {task} - {task} == s.store - {task};
  }

  /** One handler's step leaves every other handler and record alone. */
  lemma OthersKeep(s: State, a: Action)
    requires HandlerStep(a) && Enabled(s, a)
    ensures SameElsewhere(s, Fire(s, a), a.task)
  {
    if BeforeSlot(a) {
      OthersKeepBefore(s, a);
    } else {
      OthersKeepAfter(s, a);
    }
  }

  lemma OthersKeepBefore(s: State, a: Action)
    requires BeforeSlot(a) && Enabled(s, a)
    ensures SameElsewhere(s, Fire(s, a), a.task)
  {
    if a.Dispatch? {
      assert Fire(s, a).jobs - {a.task} == s.jobs - {a.task};
    } else {
      GotoKeeps(s, a.task, if a.KillOld? || a.GuardStart? then Acquiring else Killing);
    }
  }

  lemma OthersKeepAfter(s: State, a: Action)
    requires (WithSlot(a) || SlotEdge(a)) && Enabled(s, a)
    ensures SameElsewhere(s, Fire(s, a), a.task)
  {
    if WithSlot(a) {
      OthersKeepHeld(s, a);
    } else {
      OthersKeepEdge(s, a);
    }
  }

  lemma OthersKeepHeld(s: State, a: Action)
    requires WithSlot(a) && Enabled(s, a)
    ensures SameElsewhere(s, Fire(s, a), a.task)
  {
    var n := Fire(s, a);
    GotoKeeps(s, a.task, n.jobs[a.task].phase);
    if a.WriteRecord? {
      assert n.store - {a.task} == s.store - {a.task};
    }
  }

  lemma OthersKeepEdge(s: State, a: Action)
    requires SlotEdge(a) && Enabled(s, a)
    ensures SameElsewhere(s, Fire(s, a), a.task)
  {
    var n := Fire(s, a);
    GotoKeeps(s, a.task, if a.task in n.jobs then n.jobs[a.task].phase else Failing);
  }

  lemma SlotsBeforeAcquire(s: State, a: Action)
    requires SlotsBalance(s) && BeforeSlot(a) && Enabled(s, a)
    ensures SlotsBalance(Fire(s, a))
  {
    OthersKeep(s, a);
    HoldersAfter(s, Fire(s, a), a.task);
  }

  lemma SlotsWhileHeld(s: State, a: Action)
    requires SlotsBalance(s) && WithSlot(a) && Enabled(s, a)
    ensures SlotsBalance(Fire(s, a))
  {
    OthersKeep(s, a);
    HoldersAfter(s, Fire(s, a), a.task);
  }

  lemma SlotsAtEdge(s: State, a: Action)
    requires SlotsBalance(s) && SlotEdge(a) && Enabled(s, a)
    ensures SlotsBalance(Fire(s, a))
  {
    OthersKeep(s, a);
    HoldersAfter(s, Fire(s, a), a.task);
    assert !a.Acquire? ==> a.task in Holders(s);
    assert !a.Acquire? ==> |Holders(s)| > 0;
  }

  lemma SlotsBalanceNext(s: State, a: Action)
    requires SlotsBalance(s)
    ensures SlotsBalance(Next(s, a))
  {
    if Enabled(s, a) {
      if BeforeSlot(a) {
        SlotsBeforeAcquire(s, a);
      } else if WithSlot(a) {
        SlotsWhileHeld(s, a);
      } else if SlotEdge(a) {
        SlotsAtEdge(s, a);
      } else {
        assert Fire(s, a).jobs == s.jobs;
        assert Holders(Fire(s, a)) == Holders(s);
      }
    }
  }

  lemma {:induction false} SlotsBalanceAlways(s: State, acts: seq<Action>)
    requires SlotsBalance(s)
    ensures SlotsBalance(After(s, acts))
    decreases acts
  {
    if acts != [] {
      SlotsBalanceNext(s, acts[0]);
      SlotsBalanceAlways(Next(s, acts[0]), acts[1..]);
    }
  }

  /** In every state reachable after Load the slots are accounted for. */
  lemma {:induction false} SlotAccounting(s: State, acts: seq<Action>)
    requires Loaded(s)
    ensures SlotsBalance(After(s, acts))
  {
    assert Holders(s) == {};
    SlotsBalanceAlways(s, acts);
  }

  /** A failing start and a supervised exit each give back exactly one slot;
      the semaphore's floor at zero never swallows a release. */
  lemma {:induction false} ReleasesExactlyOne(s: State, acts: seq<Action>, a: Action)
    requires Loaded(s) && (a.Fail? || a.SandboxExits?) && Enabled(After(s, acts), a)
    ensures Next(After(s, acts), a).held == After(s, acts).held - 1
  {
    SlotAccounting(s, acts);
    var n := After(s, acts);
    if a.Fail? {
      assert a.task in Holders(n);
      assert |Holders(n)| > 0;
    }
  }

  // ---- the slot a start keeps ----------------------------------------------

  /** A restart signals the old sandbox and probes it before it has exited: the
      handler is gone, its slot held, and no supervisor will give it back. */
  lemma RunningSandboxLeaksSlot(s: State, task: int, version: int)
    requires Loaded(s) && task in s.store && s.store[task].version != version && s.held + 1 <= s.capacity
    ensures var t := After(s, [Dispatch(task, Restarting, RestartCmd, version), GuardRestart(task, false),
                               KillOld(task, false), Acquire(task), Resolve(task, false, IsRunning, false)]);
            t.leaked == 1 && t.held == s.held + 1 && t.watching == s.watching && t.jobs == map[] && t.launches == []
  {
    var a, b, c := Dispatch(task, Restarting, RestartCmd, version), GuardRestart(task, false), KillOld(task, false);
    var d, e := Acquire(task), Resolve(task, false, IsRunning, false);
    AfterTwo(s, a, b, [c, d, e]);
    assert [a, b] + [c, d, e] == [a, b, c, d, e];
    var killing := Next(Next(s, a), b);
    assert killing.jobs == map[task := Job(Restarting, RestartCmd, version, Killing)];
    KillThenLeak(killing, task);
    assert killing.jobs - {task} == map[];
  }

  lemma KillThenLeak(s: State, task: int)
    requires In(s, task, Killing) && task in s.store && s.held + 1 <= s.capacity
    ensures var t := After(s, [KillOld(task, false), Acquire(task), Resolve(task, false, IsRunning, false)]);
            t.leaked == s.leaked + 1 && t.held == s.held + 1 && t.watching == s.watching
            && t.jobs == s.jobs - {task} && t.launches == s.launches
  {
    var c, d, e := KillOld(task, false), Acquire(task), Resolve(task, false, IsRunning, false);
    AfterTwo(s, c, d, [e]);
    assert [c, d] + [e] == [c, d, e];
    var resolving := Next(Next(s, c), d);
    assert In(resolving, task, Resolving) && resolving.store == s.store;
    assert resolving.jobs - {task} == s.jobs - {task};
    assert After(resolving, [e]) == Next(resolving, e);
  }

  lemma AfterTwo(s: State, a: Action, b: Action, rest: seq<Action>)
    ensures After(s, [a, b]) == Next(Next(s, a), b) && After(s, [a, b] + rest) == After(After(s, [a, b]), rest)
  {
    var all := [a, b] + rest;
    assert [a, b][1..] == [b] && [b][1..] == [] && all[1..] == [b] + rest && ([b] + rest)[1..] == rest;
    assert After(s, [a, b]) == After(Next(s, a), [b]) == After(Next(Next(s, a), b), []);
    assert After(s, all) == After(Next(s, a), all[1..]) == After(Next(Next(s, a), b), rest);
  }

  /** A slot is lost at one kind of step only, and always there. */
  lemma LeaksExactly(s: State, a: Action)
    ensures Next(s, a).leaked == s.leaked + 1 <==>
              a.Resolve? && In(s, a.task, Resolving) && !a.fails && a.task in s.store && a.probe.IsRunning?
    ensures Next(s, a).leaked == s.leaked + 1 || Next(s, a).leaked == s.leaked
  {
  }

  lemma {:induction false} LeaksAreForGood(s: State, acts: seq<Action>)
    ensures After(s, acts).leaked >= s.leaked && After(s, acts).capacity == s.capacity
    decreases acts
  {
    if acts != [] {
      LeaksExactly(s, acts[0]);
      LeaksAreForGood(Next(s, acts[0]), acts[1..]);
    }
  }

  /** Once as many slots are lost as there are, no handler gets one again. */
  lemma {:induction false} LeaksStarve(s: State, acts: seq<Action>, later: seq<Action>, task: int)
    requires Loaded(s) && After(s, acts).leaked >= s.capacity
    requires In(After(After(s, acts), later), task, Acquiring)
    ensures var n := After(After(s, acts), later);
            Next(n, Acquire(task)).held == n.held && task !in Next(n, Acquire(task)).jobs
  {
    SlotAccounting(s, acts);
    SlotsBalanceAlways(After(s, acts), later);
    LeaksAreForGood(s, acts);
    LeaksAreForGood(After(s, acts), later);
  }

  // ---- restarts ------------------------------------------------------------

  /** No restart handler past its guard sees a record at its own version. */
  predicate GuardHolds(s: State) {
    && (forall t :: t in s.jobs && s.jobs[t].phase.Killing? && t in s.store ==> s.store[t].version != s.jobs[t].version)
    && (forall i :: 0 <= i < |s.restartSignals| ==> s.restartSignals[i].1 != s.restartSignals[i].2)
  }

  lemma GuardHoldsNext(s: State, a: Action)
    requires GuardHolds(s)
    ensures GuardHolds(Next(s, a))
  {
    if Enabled(s, a) {
      if BeforeSlot(a) {
        GuardKeptBefore(s, a);
      } else if WithSlot(a) || SlotEdge(a) {
        GuardKeptAfter(s, a);
      }
    }
  }

  lemma GuardKeptBefore(s: State, a: Action)
    requires GuardHolds(s) && BeforeSlot(a) && Enabled(s, a)
    ensures GuardHolds(Fire(s, a))
  {
  }

  lemma GuardKeptAfter(s: State, a: Action)
    requires GuardHolds(s) && (WithSlot(a) || SlotEdge(a)) && Enabled(s, a)
    ensures GuardHolds(Fire(s, a))
  {
    var n := Fire(s, a);
    OthersKeep(s, a);
    assert a.task in n.jobs ==> !n.jobs[a.task].phase.Killing?;
    forall t | t in n.jobs && n.jobs[t].phase.Killing? && t in n.store
      ensures n.store[t].version != n.jobs[t].version
    {
      assert (n.jobs - {a.task})[t] == s.jobs[t];
      assert (n.store - {a.task})[t] == s.store[t];
    }
  }

  lemma {:induction false} GuardAlwaysHolds(s: State, acts: seq<Action>)
    requires GuardHolds(s)
    ensures GuardHolds(After(s, acts))
    decreases acts
  {
    if acts != [] {
      GuardHoldsNext(s, acts[0]);
      GuardAlwaysHolds(Next(s, acts[0]), acts[1..]);
    }
  }

  /** Whatever is polled, killed, launched or pruned: the restart path never
      signals a sandbox whose record is at the version being restarted. */
  lemma {:induction false} RestartNeverKillsItsOwnRun(s: State, acts: seq<Action>)
    requires Loaded(s)
    ensures forall i :: 0 <= i < |After(s, acts).restartSignals| ==>
              After(s, acts).restartSignals[i].1 != After(s, acts).restartSignals[i].2
  {
    GuardAlwaysHolds(s, acts);
  }

  /** The restart path signals once, where it passes its guard and can read the
      task's record: the sandbox of that record, for the run that replaces it. */
  lemma SignalsExactly(s: State, a: Action)
    ensures Next(s, a).restartSignals == s.restartSignals +
              if a.KillOld? && In(s, a.task, Killing) && !a.readFails && a.task in s.store
              then [(a.task, s.jobs[a.task].version, s.store[a.task].version)] else []
  {
    assert s.restartSignals + [] == s.restartSignals;
  }

  predicate BeforeLaunch(p: Phase) {
    p.Killing? || p.Acquiring? || p.Resolving? || p.Minting? || p.Launching?
  }

  /** A restart between its kill and its launch. */
  predicate PastKill(s: State, task: int) {
    && task in s.jobs && s.jobs[task].command.RestartCmd?
    && BeforeLaunch(s.jobs[task].phase) && !s.jobs[task].phase.Killing?
  }

  /** It has signalled the sandbox of the record it still finds. */
  predicate SignalledIfThere(s: State, task: int) {
    (PastKill(s, task) && task in s.store) ==> (task, s.jobs[task].version, s.store[task].version) in s.restartSignals
  }

  lemma OtherHandlerKept(s: State, a: Action, task: int)
    requires task in Next(s, a).jobs && (!HandlerStep(a) || a.task != task)
    ensures task in s.jobs && Next(s, a).jobs[task] == s.jobs[task]
  {
    if Enabled(s, a) && HandlerStep(a) {
      OthersKeep(s, a);
      assert task in Fire(s, a).jobs - {a.task} && (s.jobs - {a.task})[task] == (Fire(s, a).jobs - {a.task})[task];
    }
  }

  lemma OwnStepSignals(s: State, a: Action)
    requires HandlerStep(a) && Enabled(s, a) && SignalledIfThere(s, a.task) && !(a.KillOld? && a.readFails)
    ensures SignalledIfThere(Fire(s, a), a.task)
  {
    SignalsExactly(s, a);
    if BeforeSlot(a) {
      OwnEarlyStepSignals(s, a);
    } else {
      OwnLateStepSignals(s, a);
    }
  }

  lemma OwnEarlyStepSignals(s: State, a: Action)
    requires BeforeSlot(a) && Enabled(s, a) && SignalledIfThere(s, a.task) && !(a.KillOld? && a.readFails)
    ensures SignalledIfThere(Fire(s, a), a.task)
  {
  }

  lemma OwnLateStepSignals(s: State, a: Action)
    requires (WithSlot(a) || SlotEdge(a)) && Enabled(s, a) && SignalledIfThere(s, a.task)
    ensures SignalledIfThere(Fire(s, a), a.task)
  {
  }

  lemma OtherStepSignals(s: State, a: Action, task: int)
    requires SignalledIfThere(s, task) && (!HandlerStep(a) || a.task != task)
    ensures SignalledIfThere(Next(s, a), task)
  {
    var n := Next(s, a);
    SignalsExactly(s, a);
    if PastKill(n, task) && task in n.store {
      OtherHandlerKept(s, a, task);
      OtherRecordKept(s, a, task);
    }
  }

  lemma OtherRecordKept(s: State, a: Action, task: int)
    requires task in Next(s, a).store && (!HandlerStep(a) || a.task != task)
    ensures task in s.store && Next(s, a).store[task] == s.store[task]
  {
    if Enabled(s, a) && HandlerStep(a) {
      OthersKeep(s, a);
      assert task in Fire(s, a).store - {a.task} && (s.store - {a.task})[task] == (Fire(s, a).store - {a.task})[task];
    }
  }

  lemma {:induction false} SignalledAlways(s: State, acts: seq<Action>, task: int)
    requires SignalledIfThere(s, task)
    requires forall i :: 0 <= i < |acts| ==> !(acts[i].KillOld? && acts[i].readFails)
    ensures SignalledIfThere(After(s, acts), task)
    decreases acts
  {
    if acts != [] {
      if HandlerStep(acts[0]) && acts[0].task == task && Enabled(s, acts[0]) {
        OwnStepSignals(s, acts[0]);
      } else if !HandlerStep(acts[0]) || acts[0].task != task {
        OtherStepSignals(s, acts[0], task);
      }
      SignalledAlways(Next(s, acts[0]), acts[1..], task);
    }
  }

  /** However handlers interleave, as long as the records can be read: before a
      restart takes a slot or launches, the sandbox on record has been signalled
      on its behalf. */
  lemma {:induction false} OldSandboxIsSignalledFirst(s: State, acts: seq<Action>, task: int)
    requires Loaded(s) && PastKill(After(s, acts), task) && task in After(s, acts).store
    requires forall i :: 0 <= i < |acts| ==> !(acts[i].KillOld? && acts[i].readFails)
    ensures var n := After(s, acts); (task, n.jobs[task].version, n.store[task].version) in n.restartSignals
  {
    SignalledAlways(s, acts, task);
  }

  function LaunchCount(launches: seq<(int, int)>, task: int, version: int): nat {
    if launches == [] then 0
    else LaunchCount(launches[..|launches| - 1], task, version)
         + if launches[|launches| - 1] == (task, version) then 1 else 0
  }

  /** Handlers that end without launching: a cancel, and a start queued behind a live run. */
  predicate Launchless(status: Status, command: Command) {
    command.StopCmd? || (command.StartCmd? && status.Running?)
  }

  /** The handler does not launch this version. */
  predicate Harmless(j: Job, version: int) {
    j.version != version || (j.phase.Begun? && Launchless(j.status, j.command))
  }

  predicate Dispatches(a: Action, task: int) {
    a.Dispatch? && a.task == task
  }

  /** At this version the task is listed as restarting, cancelling, queued to start again, or idle. */
  predicate RestartedAt(a: Action, task: int, version: int) {
    Dispatches(a, task) && a.version == version ==> a.command in {RestartCmd, NoCommand} || Launchless(a.status, a.command)
  }

  /** The step removes the record of this run. */
  predicate Prunes(s: State, a: Action, task: int, version: int) {
    a == Prune(task) && task in s.store && s.store[task].version == version
  }

  /** Launched at most once; if so the launch is recorded, about to be, or the runner is going down. */
  predicate LaunchedOnce(s: State, task: int, version: int) {
    var count := LaunchCount(s.launches, task, version);
    && (task in s.jobs ==>
          s.jobs[task].version == version && (s.jobs[task].command.RestartCmd? || Harmless(s.jobs[task], version)))
    && (task in s.jobs ==> task in s.polled)
    && (task in s.jobs && BeforeLaunch(s.jobs[task].phase) ==> count == 0)
    && count <= 1
    && (count == 1 ==>
          || (task in s.jobs && s.jobs[task].phase.Recording?)
          || (task in s.store && s.store[task].version == version)
          || (s.dead && task in s.polled && (task !in s.jobs || s.jobs[task].phase.Failing?)))
  }

  lemma OtherTaskKeeps(s: State, a: Action, task: int, version: int)
    requires LaunchedOnce(s, task, version) && Enabled(s, a)
    requires HandlerStep(a) && a.task != task
    ensures LaunchedOnce(Fire(s, a), task, version)
  {
    var n := Fire(s, a);
    OthersKeep(s, a);
    assert task in s.jobs <==> task in s.jobs - {a.task};
    assert task in n.jobs <==> task in n.jobs - {a.task};
    assert task in s.jobs ==> (s.jobs - {a.task})[task] == s.jobs[task] == n.jobs[task];
    assert task in s.store <==> task in s.store - {a.task};
    assert task in n.store <==> task in n.store - {a.task};
    assert task in s.store ==> (s.store - {a.task})[task] == s.store[task] == n.store[task];
    assert n.launches == s.launches || n.launches[..|n.launches| - 1] == s.launches;
  }

  lemma OwnStepBeforeSlot(s: State, a: Action, task: int, version: int)
    requires LaunchedOnce(s, task, version) && Enabled(s, a)
    requires BeforeSlot(a) && a.task == task
    requires RestartedAt(a, task, version) && (Dispatches(a, task) ==> a.version == version)
    ensures LaunchedOnce(Fire(s, a), task, version)
  {
  }

  lemma OwnStepAround(s: State, a: Action, task: int, version: int)
    requires LaunchedOnce(s, task, version) && Enabled(s, a)
    requires (a.Acquire? || a.Resolve? || a.Mint?) && a.task == task
    ensures LaunchedOnce(Fire(s, a), task, version)
  {
  }

  lemma OwnLaunch(s: State, a: Action, task: int, version: int)
    requires LaunchedOnce(s, task, version) && Enabled(s, a) && a.Launch? && a.task == task
    ensures LaunchedOnce(Fire(s, a), task, version)
  {
    var n := Fire(s, a);
    assert n.launches == s.launches || n.launches[..|n.launches| - 1] == s.launches;
  }

  lemma OwnStepAfterLaunch(s: State, a: Action, task: int, version: int)
    requires LaunchedOnce(s, task, version) && Enabled(s, a)
    requires (a.WriteRecord? || a.Spawn? || a.Fail?) && a.task == task
    ensures LaunchedOnce(Fire(s, a), task, version)
  {
  }

  lemma LaunchedOnceNext(s: State, a: Action, task: int, version: int)
    requires LaunchedOnce(s, task, version) && RestartedAt(a, task, version) && !Prunes(s, a, task, version)
    requires Dispatches(a, task) && Enabled(s, a) ==> a.version == version
    ensures LaunchedOnce(Next(s, a), task, version)
  {
    if Enabled(s, a) && HandlerStep(a) {
      if a.task != task {
        OtherTaskKeeps(s, a, task, version);
      } else if BeforeSlot(a) {
        OwnStepBeforeSlot(s, a, task, version);
      } else if a.Launch? {
        OwnLaunch(s, a, task, version);
      } else if a.Acquire? || a.Resolve? || a.Mint? {
        OwnStepAround(s, a, task, version);
      } else {
        OwnStepAfterLaunch(s, a, task, version);
      }
    }
  }

  /** No handler of the task will launch this version. */
  predicate NotAt(s: State, task: int, version: int) {
    task in s.jobs ==> Harmless(s.jobs[task], version)
  }

  /** The task is dispatched, if at all, at other versions or to handlers that do not launch. */
  predicate OnlyOthers(acts: seq<Action>, task: int, version: int) {
    forall i :: 0 <= i < |acts| && Dispatches(acts[i], task) ==>
      acts[i].version != version || Launchless(acts[i].status, acts[i].command)
  }

  lemma LaunchesGrow(s: State, a: Action)
    ensures var n := Next(s, a);
            || n.launches == s.launches
            || (a.Launch? && a.task in s.jobs && s.jobs[a.task].phase.Launching?
                && n.launches == s.launches + [(a.task, s.jobs[a.task].version)])
  {
  }

  lemma OneLaunchMore(s: State, a: Action, task: int, version: int)
    requires NotAt(s, task, version)
    ensures LaunchCount(Next(s, a).launches, task, version) == LaunchCount(s.launches, task, version)
  {
    LaunchesGrow(s, a);
    var more := Next(s, a).launches;
    assert more == s.launches || more[..|more| - 1] == s.launches;
  }

  lemma OwnHandlerKept(s: State, a: Action)
    requires HandlerStep(a) && !a.Dispatch? && a.task in Next(s, a).jobs
    ensures a.task in s.jobs && Next(s, a).jobs[a.task].(phase := Begun) == s.jobs[a.task].(phase := Begun)
    ensures s.jobs[a.task].phase.Begun? && Launchless(s.jobs[a.task].status, s.jobs[a.task].command) ==> Next(s, a) == s
  {
  }

  /** A handler works on at the version it was dispatched with, and a harmless one stays harmless. */
  lemma HandlerKept(s: State, a: Action, task: int, version: int)
    requires !Dispatches(a, task) && task in Next(s, a).jobs
    ensures task in s.jobs && Next(s, a).jobs[task].version == s.jobs[task].version
    ensures Harmless(s.jobs[task], version) ==> Harmless(Next(s, a).jobs[task], version)
  {
    if HandlerStep(a) && a.task == task {
      OwnHandlerKept(s, a);
    } else {
      OtherHandlerKept(s, a, task);
    }
  }

  lemma NotAtNext(s: State, a: Action, task: int, version: int)
    requires NotAt(s, task, version) && OnlyOthers([a], task, version)
    ensures NotAt(Next(s, a), task, version)
  {
    assert [a][0] == a;
    if !Dispatches(a, task) && task in Next(s, a).jobs {
      HandlerKept(s, a, task, version);
    }
  }

  lemma {:induction false} OtherRunsLaunchNothing(s: State, acts: seq<Action>, task: int, version: int)
    requires NotAt(s, task, version) && OnlyOthers(acts, task, version)
    ensures NotAt(After(s, acts), task, version)
    ensures LaunchCount(After(s, acts).launches, task, version) == LaunchCount(s.launches, task, version)
    decreases acts
  {
    if acts != [] {
      assert OnlyOthers([acts[0]], task, version) && OnlyOthers(acts[1..], task, version);
      NotAtNext(s, acts[0], task, version);
      OneLaunchMore(s, acts[0], task, version);
      OtherRunsLaunchNothing(Next(s, acts[0]), acts[1..], task, version);
    }
  }

  /** The versions the task is listed at never fall. */
  predicate VersionsRise(acts: seq<Action>, task: int) {
    forall i, j :: 0 <= i < j < |acts| && Dispatches(acts[i], task) && Dispatches(acts[j], task) ==>
      acts[i].version <= acts[j].version
  }

  predicate RestartsOnly(acts: seq<Action>, task: int, version: int) {
    forall i :: 0 <= i < |acts| ==> RestartedAt(acts[i], task, version)
  }

  /** The record of this run is never pruned on the way. */
  predicate RecordKept(s: State, acts: seq<Action>, task: int, version: int)
    decreases acts
  {
    acts == [] || (!Prunes(s, acts[0], task, version) && RecordKept(Next(s, acts[0]), acts[1..], task, version))
  }

  /** Before the restart is polled, while it is, and after, going by the version
      the task was last dispatched at. */
  predicate Staged(s: State, task: int, version: int, last: Option<int>) {
    var count := LaunchCount(s.launches, task, version);
    if last == None || last.value < version then count == 0 && (task in s.jobs ==> s.jobs[task].version < version)
    else if last.value == version then LaunchedOnce(s, task, version)
    else count <= 1 && (task in s.jobs ==> s.jobs[task].version > version)
  }

  function LastAfter(s: State, a: Action, task: int, last: Option<int>): Option<int> {
    if Dispatches(a, task) && Enabled(s, a) then Some(a.version) else last
  }

  lemma StagedNext(s: State, a: Action, task: int, version: int, last: Option<int>)
    requires Staged(s, task, version, last) && RestartedAt(a, task, version) && !Prunes(s, a, task, version)
    requires Dispatches(a, task) && last.Some? ==> last.value <= a.version
    ensures Staged(Next(s, a), task, version, LastAfter(s, a, task, last))
  {
    if Dispatches(a, task) && Enabled(s, a) {
      if last == Some(version) && a.version == version {
        LaunchedOnceNext(s, a, task, version);
      }
    } else if last == Some(version) {
      LaunchedOnceNext(s, a, task, version);
    } else {
      OneLaunchMore(s, a, task, version);
      if !Dispatches(a, task) && task in Next(s, a).jobs {
        HandlerKept(s, a, task, version);
      }
    }
  }

  lemma {:induction false} StagedAlways(s: State, acts: seq<Action>, task: int, version: int, last: Option<int>)
    requires Staged(s, task, version, last) && VersionsRise(acts, task) && RestartsOnly(acts, task, version)
    requires RecordKept(s, acts, task, version)
    requires last.Some? ==> forall i :: 0 <= i < |acts| && Dispatches(acts[i], task) ==> last.value <= acts[i].version
    ensures LaunchCount(After(s, acts).launches, task, version) <= 1
    decreases acts
  {
    if acts != [] {
      StagedNext(s, acts[0], task, version, last);
      StagedAlways(Next(s, acts[0]), acts[1..], task, version, LastAfter(s, acts[0], task, last));
    }
  }

  /** In any interleaving of all handlers, however often the task is polled before
      its restart, during it, at its cancel or with a start queued, and at later
      versions: the restarted run's sandbox is launched at most once. */
  lemma {:induction false} RestartLaunchesAtMostOnce(s: State, acts: seq<Action>, task: int, version: int)
    requires Loaded(s) && VersionsRise(acts, task) && RestartsOnly(acts, task, version)
    requires RecordKept(s, acts, task, version)
    ensures LaunchCount(After(s, acts).launches, task, version) <= 1
  {
    StagedAlways(s, acts, task, version, None);
  }

  // ---- restarts of a row ---------------------------------------------------

  /** Each dispatch of the task lists its row as of times[i]; the times never run back. */
  predicate ListsRow(acts: seq<Action>, task: int, r: Row, ops: seq<Op>, times: seq<nat>) {
    && |times| == |acts|
    && (forall i, j :: 0 <= i < j < |times| ==> times[i] <= times[j])
    && (forall i :: 0 <= i < |times| ==> times[i] <= |ops|)
    && (forall i :: 0 <= i < |acts| && Dispatches(acts[i], task) ==> Lists(acts[i], Tasks.After(r, ops[..times[i]])))
  }

  predicate Lists(a: Action, r: Row)
    requires a.Dispatch?
  {
    a.status == r.status && a.command == r.command && a.version == r.version
  }

  lemma {:induction false} RowVersionsRise(r: Row, ops: seq<Op>, i: nat, j: nat)
    requires i <= j <= |ops|
    ensures Tasks.After(r, ops[..i]).version <= Tasks.After(r, ops[..j]).version
  {
    assert ops[..j] == ops[..i] + ops[i..j];
    AfterInTwo(r, ops[..i], ops[i..j]);
    VersionsNeverDecrease(Tasks.After(r, ops[..i]), ops[i..j]);
  }

  lemma RestartedRowListed(r: Row, ops: seq<Op>, m: nat, time: nat)
    requires Consistent(r) && m < |ops| && ops[m] == User(Restart) && CanRestart(Tasks.After(r, ops[..m]))
    requires time <= |ops|
    ensures var n := Tasks.After(r, ops[..time]);
            n.version == Tasks.After(r, ops[..m]).version + 1 ==>
              n.command in {RestartCmd, NoCommand} || Launchless(n.status, n.command)
  {
    var before, restarted := Tasks.After(r, ops[..m]), Tasks.After(r, ops[..m + 1]);
    ConsistentAfter(r, ops[..m]);
    assert ops[..m + 1] == ops[..m] + [User(Restart)];
    AfterInTwo(r, ops[..m], [User(Restart)]);
    assert restarted == Step(before, User(Restart));
    if time <= m {
      RowVersionsRise(r, ops, time, m);
    } else {
      assert ops[..time] == ops[..m + 1] + ops[m + 1..time];
      AfterInTwo(r, ops[..m + 1], ops[m + 1..time]);
      RestartedRunStartsNoMore(restarted, ops[m + 1..time]);
    }
  }

  /** What the server does with a restarted row decides what the polls list, so
      no hypothesis on the polls is left: restart number m of any history of the
      row is launched at most once. */
  lemma {:induction false} RestartedRowLaunchesOnce(s: State, acts: seq<Action>, task: int,
                                                    r: Row, ops: seq<Op>, times: seq<nat>, m: nat)
    requires Loaded(s) && Consistent(r) && ListsRow(acts, task, r, ops, times)
    requires m < |ops| && ops[m] == User(Restart) && CanRestart(Tasks.After(r, ops[..m]))
    requires RecordKept(s, acts, task, Tasks.After(r, ops[..m]).version + 1)
    ensures LaunchCount(After(s, acts).launches, task, Tasks.After(r, ops[..m]).version + 1) <= 1
  {
    var version := Tasks.After(r, ops[..m]).version + 1;
    forall i, j | 0 <= i < j < |acts| && Dispatches(acts[i], task) && Dispatches(acts[j], task)
      ensures acts[i].version <= acts[j].version
    {
      RowVersionsRise(r, ops, times[i], times[j]);
    }
    forall i | 0 <= i < |acts| && Dispatches(acts[i], task) && acts[i].version == version
      ensures RestartedAt(acts[i], task, version)
    {
      RestartedRowListed(r, ops, m, times[i]);
    }
    RestartLaunchesAtMostOnce(s, acts, task, version);
  }

  // ---- backstops -----------------------------------------------------------

  /** The event a lost sandbox enqueues is its own run's, so it never fails a later run. */
  lemma {:induction false} BackstopIsScoped(s: State, w: nat, code: int, r: Row, ops: seq<Op>)
    requires w < |s.watching| && code != 0
    requires 1 <= s.watching[w].version < r.version
    ensures var t := Next(s, SandboxExits(w, code, true));
            && |t.queue| == |s.queue| + 1
            && t.queue[|s.queue|].task == s.watching[w].task
            && !Applies(Tasks.After(r, ops), t.queue[|s.queue|].event)
  {
    BackstopSparesLaterRuns(r, ops, s.watching[w].version, RunnerEvent(RunFailed, s.watching[w].version, false));
  }

  // ---- one handler run from end to end -------------------------------------

  /** What the store, the backend and the server answer to one handler. */
  datatype Answers = Answers(readFails: bool, killReadFails: bool, guardFails: bool, guardProbe: SandboxState,
                             signalled: bool, resolveFails: bool, probe: SandboxState, removed: bool,
                             mintOk: bool, launch: LaunchResult, writeOk: bool, enqueued: bool)

  datatype Listed = Listed(task: int, status: Status, command: Command, version: int)

  lemma {:induction false} AfterSnoc(s: State, acts: seq<Action>, a: Action)
    ensures After(s, acts + [a]) == Next(After(s, acts), a)
    decreases acts
  {
    if acts == [] {
      assert [a][1..] == [];
    } else {
      assert (acts + [a])[1..] == acts[1..] + [a];
      AfterSnoc(Next(s, acts[0]), acts[1..], a);
    }
  }
}
