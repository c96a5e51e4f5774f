/** The runner's own fields, its handlers and its boot. */
module Runners {
  import opened Options
  import opened Sequences
  import opened Tasks
  import opened RunnerSteps

  /** internal/x/safesem/semaphore.go: its count never goes below zero. */
  class Semaphore {
    const capacity: int
    var count: int

    constructor (capacity: int)
      ensures this.capacity == capacity && count == 0
    {
      this.capacity, count := capacity, 0;
    }

    method TryAcquire(n: int) returns (ok: bool)
      modifies this
      ensures ok == (old(count) + n <= capacity)
      ensures count == if ok then old(count) + n else old(count)
    {
      if count + n <= capacity {
        count := count + n;
        return true;
      }
      return false;
    }

    method Release(n: int)
      modifies this
      ensures count == if old(count) - n < 0 then 0 else old(count) - n
    {
      count := count - n;
      if count < 0 {
        count := 0;
      }
    }

    method Set(n: int)
      modifies this
      ensures count == n
    {
      count := n;
    }
  }

  const MaxInt64 := 9223372036854775807

  /** A record found at boot with what its probe and the server said. */
  datatype Found = Found(task: int, record: Record, probe: Option<SandboxState>,
                         serverRunning: Option<bool>, removed: bool, enqueued: bool)

  function Backstopped(s: State, rec: Found): State {
    if rec.serverRunning == Some(true) then Enqueue(s, rec.task, RunFailed, rec.record.version, rec.enqueued) else s
  }

  function RehydratedOne(s: State, rec: Found): State {
    match rec.probe
    case Some(IsRunning) => s.(watching := s.watching + [Watch(rec.task, rec.record.version, rec.record.handle)])
    case Some(IsExited) => Backstopped(s, rec)
    case Some(IsGone) => Forget(Backstopped(s, rec), rec.task, rec.removed)
    case _ => s
  }

  function Rehydrated(s: State, records: seq<Found>): State
    decreases records
  {
    if records == [] then s else Rehydrated(RehydratedOne(s, records[0]), records[1..])
  }

  /** Boot supervises exactly the running sandboxes, in record order. */
  lemma {:induction false} SupervisesExactlyTheRunning(s: State, records: seq<Found>)
    ensures Rehydrated(s, records).watching == s.watching + RunningOnes(records)
    decreases records
  {
    if records != [] {
      SupervisesExactlyTheRunning(RehydratedOne(s, records[0]), records[1..]);
    }
  }

  /** The runs boot has to report lost: their sandbox has stopped and the server
      still says running. */
  function LostOnes(records: seq<Found>): seq<Queued> {
    if records == [] then []
    else
      var rec := records[0];
      (if rec.probe in {Some(IsExited), Some(IsGone)} && rec.serverRunning == Some(true) && rec.enqueued
       then [Queued(rec.task, RunnerEvent(RunFailed, rec.record.version, false))] else [])
      + LostOnes(records[1..])
  }

  /** Boot reports failed exactly the lost runs, each under its own version. */
  lemma {:induction false} ReportsExactlyTheLost(s: State, records: seq<Found>)
    ensures Rehydrated(s, records).queue == s.queue + LostOnes(records)
    decreases records
  {
    if records != [] {
      ReportsExactlyTheLost(RehydratedOne(s, records[0]), records[1..]);
    }
  }

  predicate Unreported(rec: Found) {
    rec.probe in {Some(IsExited), Some(IsGone)} && rec.serverRunning == Some(true) && !rec.enqueued
  }

  /** Boot ends the runner exactly when the report of a lost run cannot be stored. */
  lemma {:induction false} DiesExactlyUnreported(s: State, records: seq<Found>)
    ensures Rehydrated(s, records).dead <==> s.dead || exists rec :: rec in records && Unreported(rec)
    decreases records
  {
    if records != [] {
      assert records == [records[0]] + records[1..] && records[0] in records;
      assert (exists rec :: rec in records && Unreported(rec)) <==>
             Unreported(records[0]) || exists rec :: rec in records[1..] && Unreported(rec);
      DiesExactlyUnreported(RehydratedOne(s, records[0]), records[1..]);
    }
  }

  predicate Vanished(records: seq<Found>, task: int) {
    exists rec :: rec in records && rec.task == task && rec.probe == Some(IsGone) && rec.removed
  }

  /** Boot forgets exactly the sandboxes that are gone. */
  lemma {:induction false} ForgetsExactlyTheGone(s: State, records: seq<Found>, task: int)
    ensures task in Rehydrated(s, records).store <==> task in s.store && !Vanished(records, task)
    ensures task in Rehydrated(s, records).store ==> Rehydrated(s, records).store[task] == s.store[task]
    decreases records
  {
    if records != [] {
      assert records == [records[0]] + records[1..];
      ForgetsExactlyTheGone(RehydratedOne(s, records[0]), records[1..], task);
    }
  }

  function RunningOnes(records: seq<Found>): seq<Watch> {
    if records == [] then []
    else
      (if records[0].probe == Some(IsRunning)
       then [Watch(records[0].task, records[0].record.version, records[0].record.handle)] else [])
      + RunningOnes(records[1..])
  }

  /** What Start finds behind the task's record. */
  datatype Resolved = AlreadyRunning | Unresolved | Provisionable(reuse: Option<int>)

  /** What the server says of a task; None when it cannot be asked. */
  datatype Answer = NotFound | Archived | Current

  /** A recorded sandbox as pruning finds it: its state, the server's answer, and
      whether the backend destroys it when asked. */
  datatype Candidate = Candidate(task: int, probe: Option<SandboxState>, server: Option<Answer>, destroyed: bool)

  predicate Unprobed(found: seq<Candidate>) {
    exists c :: c in found && c.probe.None?
  }

  predicate Prunable(c: Candidate) {
    c.probe != Some(IsRunning) && c.server in {Some(NotFound), Some(Archived)}
  }

  predicate Pruned(found: seq<Candidate>, task: int) {
    exists c :: c in found && c.task == task && Prunable(c) && c.destroyed
  }

  /** How an attempt to start ends: no slot; its sandbox runs already, the slot
      kept; launched at the handle; or failed, the slot given back. */
  datatype Attempt = NoSlot | SlotKept | Launched(handle: int) | StartFailed

  /** A handler was given the task as listed, since the first `start` steps. */
  ghost predicate Dispatched(trail: seq<Action>, t: Listed, start: nat) {
    exists j :: start <= j < |trail| && trail[j] == Dispatch(t.task, t.status, t.command, t.version)
  }

  lemma DispatchedMore(trail: seq<Action>, longer: seq<Action>, t: Listed, start: nat)
    requires start <= |trail| && trail <= longer
    requires Dispatched(trail, t, start) || trail + [Dispatch(t.task, t.status, t.command, t.version)] <= longer
    ensures Dispatched(longer, t, start)
  {
    if trail + [Dispatch(t.task, t.status, t.command, t.version)] <= longer {
      assert longer[|trail|] == Dispatch(t.task, t.status, t.command, t.version);
    }
  }

  class Runner {
    const sem: Semaphore
    var store: map<int, Record>
    var watching: seq<Watch>
    var queue: seq<Queued>
    var dead: bool
    ghost var jobs: map<int, Job>
    /** The tasks the current poll pass has handed to handlers. */
    ghost var polled: set<int>
    ghost var launches: seq<(int, int)>
    ghost var restartSignals: seq<(int, int, int)>
    ghost var leaked: nat
    ghost var detached: nat
    /** The state boot left and the steps taken since. */
    ghost var boot: State
    ghost var trail: seq<Action>

    ghost function View(): State
      reads this, sem
    {
      State(sem.count, sem.capacity, store, jobs, watching, queue, dead, polled, launches, restartSignals, leaked, detached)
    }

    /** The runner is where its steps since boot lead. */
    ghost predicate Valid()
      reads this, sem
    {
      Loaded(boot) && View() == RunnerSteps.After(boot, trail)
    }

    ghost method Took(before: State, a: Action)
      requires Loaded(boot) && before == RunnerSteps.After(boot, trail) && View() == Next(before, a)
      modifies this`trail
      ensures Valid() && trail == old(trail) + [a]
    {
      AfterSnoc(boot, trail, a);
      trail := trail + [a];
    }

    /** No concurrency limit is the largest count there is. */
    constructor (concurrency: int, store: map<int, Record>)
      ensures fresh(sem) && sem.capacity == (if concurrency <= 0 then MaxInt64 else concurrency)
      ensures View() == State(0, sem.capacity, store, map[], [], [], false, {}, [], [], 0, 0)
    {
      sem := new Semaphore(if concurrency <= 0 then MaxInt64 else concurrency);
      this.store := store;
      watching, queue, dead := [], [], false;
      jobs, polled, launches, restartSignals, leaked, detached := map[], {}, [], [], 0, 0;
      trail := [];
      new;
      boot := View();
    }

    /** Boot: re-attach to running sandboxes, backstop the others, seed the slots. */
    method Load(records: seq<Found>)
      requires View() == State(0, sem.capacity, store, map[], [], queue, dead, {}, [], [], 0, 0)
      modifies this, sem
      ensures View() == Rehydrated(old(View()), records).(held := |watching|)
      ensures Valid() && trail == []
    {
      var running := 0;
      var i := 0;
      assert records[0..] == records;
      while i < |records|
        invariant 0 <= i <= |records| && running == |watching|
        invariant Rehydrated(View(), records[i..]) == Rehydrated(old(View()), records)
        invariant jobs == map[] && polled == {} && leaked == 0 && detached == 0 && launches == [] && restartSignals == []
      {
        var rec := records[i];
        assert records[i..][1..] == records[i + 1..];
        match rec.probe {
          case None =>
          case Some(IsRunning) =>
            watching := watching + [Watch(rec.task, rec.record.version, rec.record.handle)];
            running := running + 1;
          case Some(IsExited) => FailIfTaskRunning(rec);
          case Some(IsGone) =>
            FailIfTaskRunning(rec);
            if rec.removed {
              store := store - {rec.task};
            }
          case Some(UnknownState) =>
        }
        i := i + 1;
      }
      sem.Set(running);
      boot, trail := View(), [];
    }

    method FailIfTaskRunning(rec: Found)
      modifies this`queue, this`dead
      ensures View() == Backstopped(old(View()), rec)
      ensures queue == if rec.serverRunning == Some(true) && rec.enqueued
                       then old(queue) + [Queued(rec.task, RunnerEvent(RunFailed, rec.record.version, false))] else old(queue)
      ensures dead == (old(dead) || (rec.serverRunning == Some(true) && !rec.enqueued))
    {
      if rec.serverRunning != Some(true) {
        return;
      }
      Enqueue(rec.task, RunFailed, rec.record.version, rec.enqueued);
    }

    /** A supervisor's Wait returning: the slot is given back and a lost report made good. */
    method SuperviseReturns(watch: nat, code: int, enqueued: bool)
      requires Valid() && watch < |watching|
      modifies this, sem
      ensures Valid() && old(trail) < trail
      ensures sem.count == old(sem.count) - 1 && watching == Without(old(watching), watch)
      ensures dead == (old(dead) || (code != 0 && !enqueued))
      ensures queue == if code == 0 || !enqueued then old(queue)
                       else old(queue) + [Queued(old(watching)[watch].task, RunnerEvent(RunFailed, old(watching)[watch].version, false))]
    {
      ghost var before := View();
      ReleasesExactlyOne(boot, trail, SandboxExits(watch, code, enqueued));
      var w := watching[watch];
      watching := Without(watching, watch);
      sem.Release(1);
      if code != 0 {
        Enqueue(w.task, RunFailed, w.version, enqueued);
      }
      Took(before, SandboxExits(watch, code, enqueued));
    }

    /** A Wait cut short by the runner's own end: the sandbox lives on, so its
        record and slot stay and nothing is reported. */
    method SuperviseDetaches(watch: nat)
      requires Valid() && watch < |watching|
      modifies this`watching, this`detached, this`trail
      ensures Valid() && old(trail) < trail
      ensures watching == Without(old(watching), watch) && detached == old(detached) + 1
    {
      ghost var before := View();
      watching := Without(watching, watch);
      detached := detached + 1;
      Took(before, Detach(watch));
    }

    /** Removes the sandboxes without a live process whose task is archived or no
        longer known; nothing at all when some sandbox cannot be probed. */
    method Prune(found: seq<Candidate>)
      requires Valid()
      modifies this`store, this`trail
      ensures Valid() && old(trail) <= trail
      ensures forall task :: task in store <==> task in old(store) && (Unprobed(found) || !Pruned(found, task))
      ensures forall task :: task in store ==> store[task] == old(store)[task]
    {
      for i := 0 to |found|
        invariant forall j :: 0 <= j < i ==> found[j].probe.Some?
      {
        if found[i].probe.None? {
          assert Unprobed(found);
          return;
        }
      }
      for i := 0 to |found|
        invariant Valid() && old(trail) <= trail
        invariant forall task :: task in store <==> task in old(store) && !Pruned(found[..i], task)
        invariant forall task :: task in store ==> store[task] == old(store)[task]
      {
        assert found[..i + 1] == found[..i] + [found[i]];
        if found[i].probe == Some(IsRunning) {
          continue;
        }
        if (found[i].server == Some(NotFound) || found[i].server == Some(Archived)) && found[i].destroyed {
          Remove(found[i].task);
        }
      }
      assert found[..|found|] == found;
    }

    method Remove(task: int)
      requires Valid()
      modifies this`store, this`trail
      ensures Valid() && old(trail) < trail && store == old(store) - {task}
    {
      ghost var before := View();
      store := store - {task};
      Took(before, Action.Prune(task));
    }

    method Enqueue(task: int, kind: EventKind, version: int, ok: bool)
      modifies this`queue, this`dead
      ensures View() == RunnerSteps.Enqueue(old(View()), task, kind, version, ok)
    {
      if ok {
        queue := queue + [Queued(task, RunnerEvent(kind, version, false))];
      } else {
        dead := true;
      }
    }

    ghost method SetPhase(task: int, phase: Phase)
      requires task in jobs
      modifies this`jobs
      ensures jobs == old(jobs)[task := old(jobs)[task].(phase := phase)]
    {
      jobs := jobs[task := jobs[task].(phase := phase)];
    }

    method ResolveHandle(task: int, w: Answers) returns (r: Resolved)
      requires Valid() && In(View(), task, Resolving)
      modifies this`store, this`jobs, this`leaked, this`trail
      ensures Valid() && old(trail) < trail
      ensures store == if r.Unresolved? && !w.resolveFails && w.removed then old(store) - {task} else old(store)
      ensures r.AlreadyRunning? ==> jobs == old(jobs) - {task} && leaked == old(leaked) + 1
      ensures r.Unresolved? ==> jobs == old(jobs)[task := old(jobs)[task].(phase := Failing)] && leaked == old(leaked)
      ensures r.Provisionable? ==> jobs == old(jobs)[task := old(jobs)[task].(phase := Minting(r.reuse))] && leaked == old(leaked)
      ensures r.Provisionable? ==> r.reuse == if task in store then Some(store[task].handle) else None
      ensures r.AlreadyRunning? <==> !w.resolveFails && task in old(store) && w.probe == IsRunning
      ensures r.Unresolved? <==> w.resolveFails || (task in old(store) && w.probe == IsGone)
    {
      if w.resolveFails || (task in store && w.probe == IsGone) {
        r := Unresolved;
        DropVanished(task, w);
      } else if task in store && w.probe == IsRunning {
        r := AlreadyRunning;
        ghost var before := View();
        jobs := jobs - {task};
        leaked := leaked + 1;
        Took(before, Resolve(task, w.resolveFails, w.probe, w.removed));
      } else {
        r := Provisionable(if task in store then Some(store[task].handle) else None);
        ghost var before := View();
        SetPhase(task, Minting(r.reuse));
        Took(before, Resolve(task, w.resolveFails, w.probe, w.removed));
      }
    }

    /** A sandbox that is gone takes its record with it; one that cannot be probed does not. */
    method DropVanished(task: int, w: Answers)
      requires Valid() && In(View(), task, Resolving)
      requires w.resolveFails || (task in store && w.probe == IsGone)
      modifies this`store, this`jobs, this`trail
      ensures Valid() && old(trail) < trail
      ensures store == if !w.resolveFails && w.removed then old(store) - {task} else old(store)
      ensures jobs == old(jobs)[task := old(jobs)[task].(phase := Failing)]
    {
      ghost var before := View();
      if !w.resolveFails && w.removed {
        store := store - {task};
      }
      SetPhase(task, Failing);
      Took(before, Resolve(task, w.resolveFails, w.probe, w.removed));
    }

    method MintToken(task: int, ok: bool)
      requires Valid() && task in jobs && jobs[task].phase.Minting?
      modifies this`jobs, this`trail
      ensures Valid() && old(trail) < trail
      ensures jobs == old(jobs)[task := old(jobs)[task].(phase := if ok then Launching(old(jobs)[task].phase.reuse) else Failing)]
    {
      ghost var before := View();
      SetPhase(task, if ok then Launching(jobs[task].phase.reuse) else Failing);
      Took(before, Mint(task, ok));
    }

    method LaunchSandbox(task: int, version: int, w: Answers) returns (h: Option<int>)
      requires Valid() && task in jobs && jobs[task].phase.Launching? && jobs[task].version == version
      modifies this`store, this`jobs, this`launches, this`trail
      ensures Valid() && old(trail) < trail
      ensures h == if w.launch.Launched? then Some(w.launch.handle) else None
      ensures jobs == old(jobs)[task := old(jobs)[task].(phase := if h.Some? then Recording(h.value) else Failing)]
      ensures store == if w.launch.LaunchGone? && w.removed then old(store) - {task} else old(store)
      ensures launches == if h.Some? then old(launches) + [(task, version)] else old(launches)
    {
      ghost var before := View();
      match w.launch {
        case Launched(handle) =>
          h := Some(handle);
          launches := launches + [(task, version)];
          SetPhase(task, Recording(handle));
        case LaunchGone =>
          h := None;
          if w.removed {
            store := store - {task};
          }
          SetPhase(task, Failing);
        case LaunchFailed =>
          h := None;
          SetPhase(task, Failing);
      }
      Took(before, Launch(task, w.launch, w.removed));
    }

    method RecordHandle(task: int, version: int, h: int, ok: bool)
      requires Valid() && In(View(), task, Recording(h)) && jobs[task].version == version
      modifies this`store, this`jobs, this`dead, this`trail
      ensures Valid() && old(trail) < trail
      ensures jobs == old(jobs)[task := old(jobs)[task].(phase := if ok then Spawning(h) else Failing)]
      ensures store == if ok then old(store)[task := Record(version, h)] else old(store)
      ensures dead == (old(dead) || !ok)
    {
      ghost var before := View();
      if ok {
        store := store[task := Record(version, h)];
        SetPhase(task, Spawning(h));
      } else {
        dead := true;
        SetPhase(task, Failing);
      }
      Took(before, WriteRecord(task, ok));
    }

    method SpawnSupervisor(task: int, version: int, h: int)
      requires Valid() && In(View(), task, Spawning(h)) && jobs[task].version == version
      modifies this`watching, this`jobs, this`trail
      ensures Valid() && old(trail) < trail
      ensures jobs == old(jobs) - {task} && watching == old(watching) + [Watch(task, version, h)]
    {
      ghost var before := View();
      watching := watching + [Watch(task, version, h)];
      jobs := jobs - {task};
      Took(before, Spawn(task));
    }

    /** Ensures the task's sandbox runs, holding the caller's slot: nil without
        launching if it runs already; otherwise launched, recorded and supervised. */
    method Start(task: int, version: int, w: Answers) returns (r: Attempt)
      requires Valid() && In(View(), task, Resolving) && jobs[task].version == version
      modifies this
      ensures Valid() && old(trail) < trail && boot == old(boot)
      ensures polled == old(polled) && restartSignals == old(restartSignals) && queue == old(queue)
      ensures !r.NoSlot?
      ensures r.StartFailed? ==> In(View(), task, Failing) && jobs[task].version == version && jobs - {task} == old(jobs) - {task}
      ensures !r.StartFailed? ==> jobs == old(jobs) - {task}
      ensures r.SlotKept? <==> !w.resolveFails && task in old(store) && w.probe == IsRunning
      ensures r.SlotKept? ==> store == old(store) && watching == old(watching) && launches == old(launches)
      ensures r.Launched? ==> store == old(store)[task := Record(version, r.handle)] && launches == old(launches) + [(task, version)]
      ensures watching == if r.Launched? then old(watching) + [Watch(task, version, r.handle)] else old(watching)
      ensures r.StartFailed? ==> store == old(store) || store == old(store) - {task}
      ensures leaked == if r.SlotKept? then old(leaked) + 1 else old(leaked)
    {
      var resolved := ResolveHandle(task, w);
      if resolved.AlreadyRunning? {
        return SlotKept;
      }
      if resolved.Unresolved? {
        return StartFailed;
      }
      r := Provision(task, version, w);
    }

    /** Mints the token, launches, records the handle and only then supervises. */
    method Provision(task: int, version: int, w: Answers) returns (r: Attempt)
      requires Valid() && task in jobs && jobs[task].phase.Minting? && jobs[task].version == version
      modifies this`store, this`jobs, this`watching, this`launches, this`dead, this`trail
      ensures Valid() && old(trail) < trail
      ensures r.Launched? || r.StartFailed?
      ensures r.StartFailed? ==> jobs == old(jobs)[task := old(jobs)[task].(phase := Failing)]
      ensures r.Launched? ==> jobs == old(jobs) - {task}
      ensures r.Launched? ==> store == old(store)[task := Record(version, r.handle)] && launches == old(launches) + [(task, version)]
      ensures watching == if r.Launched? then old(watching) + [Watch(task, version, r.handle)] else old(watching)
      ensures r.StartFailed? ==> store == old(store) || store == old(store) - {task}
    {
      MintToken(task, w.mintOk);
      if !w.mintOk {
        return StartFailed;
      }
      var h := LaunchSandbox(task, version, w);
      if h.None? {
        return StartFailed;
      }
      RecordHandle(task, version, h.value, w.writeOk);
      if !w.writeOk {
        return StartFailed;
      }
      SpawnSupervisor(task, version, h.value);
      return Attempt.Launched(h.value);
    }

    method TakeSlot(task: int) returns (ok: bool)
      requires Valid() && In(View(), task, Acquiring)
      modifies this`jobs, this`trail, sem
      ensures Valid() && old(trail) < trail
      ensures ok <==> old(sem.count) + 1 <= sem.capacity
      ensures sem.count == if ok then old(sem.count) + 1 else old(sem.count)
      ensures jobs == if ok then old(jobs)[task := old(jobs)[task].(phase := Resolving)] else old(jobs) - {task}
    {
      ghost var before := View();
      ok := sem.TryAcquire(1);
      if ok {
        SetPhase(task, Resolving);
      } else {
        jobs := jobs - {task};
      }
      Took(before, Acquire(task));
    }

    /** Takes a slot and starts; a failed start gives the slot back and reports the run failed. */
    method AcquireAndStart(task: int, version: int, w: Answers) returns (r: Attempt)
      requires Valid() && In(View(), task, Acquiring) && jobs[task].version == version
      modifies this, sem
      ensures Valid() && old(trail) < trail && boot == old(boot)
      ensures polled == old(polled) && restartSignals == old(restartSignals) && jobs == old(jobs) - {task}
      ensures r.NoSlot? <==> old(sem.count) + 1 > sem.capacity
      ensures sem.count == if r.SlotKept? || r.Launched? then old(sem.count) + 1 else old(sem.count)
      ensures watching == if r.Launched? then old(watching) + [Watch(task, version, r.handle)] else old(watching)
      ensures r.Launched? ==> store == old(store)[task := Record(version, r.handle)]
      ensures r.SlotKept? ==> task in old(store) && w.probe == IsRunning
      ensures r.NoSlot? || r.SlotKept? ==> store == old(store)
      ensures r.StartFailed? ==> store == old(store) || store == old(store) - {task}
      ensures r.StartFailed? && w.enqueued ==> queue == old(queue) + [Queued(task, RunnerEvent(RunFailed, version, false))]
      ensures r.StartFailed? && !w.enqueued ==> queue == old(queue) && dead
      ensures !r.StartFailed? ==> queue == old(queue)
    {
      var ok := TakeSlot(task);
      if !ok {
        return NoSlot;
      }
      r := Start(task, version, w);
      if r.StartFailed? {
        GiveBack(task, version, w.enqueued);
      }
    }

    method GiveBack(task: int, version: int, enqueued: bool)
      requires Valid() && In(View(), task, Failing) && jobs[task].version == version
      modifies this, sem
      ensures Valid() && old(trail) < trail && boot == old(boot)
      ensures polled == old(polled) && restartSignals == old(restartSignals)
      ensures jobs == old(jobs) - {task} && store == old(store) && watching == old(watching)
      ensures sem.count == old(sem.count) - 1
      ensures queue == if enqueued then old(queue) + [Queued(task, RunnerEvent(RunFailed, version, false))] else old(queue)
      ensures !enqueued ==> dead
    {
      ghost var before := View();
      ReleasesExactlyOne(boot, trail, Fail(task, enqueued));
      sem.Release(1);
      jobs := jobs - {task};
      Enqueue(task, RunFailed, version, enqueued);
      Took(before, Fail(task, enqueued));
    }

    /** What an attempt to start the listed run did to slots, records, supervisors and outbox. */
    ghost predicate Attempted(before: State, t: Listed, w: Answers, r: Attempt)
      reads this, sem
    {
      && (r.NoSlot? <==> before.held + 1 > before.capacity)
      && (r.SlotKept? ==> t.task in before.store && w.probe == IsRunning)
      && sem.count == (if r.SlotKept? || r.Launched? then before.held + 1 else before.held)
      && watching == (if r.Launched? then before.watching + [Watch(t.task, t.version, r.handle)] else before.watching)
      && (r.Launched? ==> store == before.store[t.task := Record(t.version, r.handle)])
      && (r.StartFailed? ==> store == before.store || store == before.store - {t.task})
      && (r.NoSlot? || r.SlotKept? ==> store == before.store)
      && queue == (if r.StartFailed? && w.enqueued
                   then before.queue + [Queued(t.task, RunnerEvent(RunFailed, t.version, false))] else before.queue)
      && (r.StartFailed? && !w.enqueued ==> dead)
    }

    /** Whether the restart still has to launch its run. */
    method PassGuard(t: Listed, w: Answers) returns (again: bool)
      requires Valid() && t.command == RestartCmd && t.task in jobs && jobs[t.task] == Job(t.status, t.command, t.version, Begun)
      modifies this`jobs, this`trail
      ensures Valid() && old(trail) < trail
      ensures again <==> !(w.readFails || (t.task in store && store[t.task].version == t.version))
      ensures jobs == if again then old(jobs)[t.task := old(jobs)[t.task].(phase := Killing)] else old(jobs) - {t.task}
    {
      ghost var before := View();
      again := !(w.readFails || (t.task in store && store[t.task].version == t.version));
      if again {
        SetPhase(t.task, Killing);
      } else {
        jobs := jobs - {t.task};
      }
      Took(before, GuardRestart(t.task, w.readFails));
    }

    method SignalOld(t: Listed, w: Answers)
      requires Valid() && In(View(), t.task, Killing) && jobs[t.task].version == t.version
      modifies this`jobs, this`restartSignals, this`trail
      ensures Valid() && old(trail) < trail
      ensures jobs == old(jobs)[t.task := old(jobs)[t.task].(phase := Acquiring)]
      ensures restartSignals == if w.killReadFails || t.task !in store then old(restartSignals)
                                else old(restartSignals) + [(t.task, t.version, store[t.task].version)]
    {
      ghost var before := View();
      if !w.killReadFails && t.task in store {
        restartSignals := restartSignals + [(t.task, t.version, store[t.task].version)];
      }
      SetPhase(t.task, Acquiring);
      Took(before, KillOld(t.task, w.killReadFails));
    }

    /** A restart already launched at this version changes nothing; otherwise
        the old sandbox is signalled and a new one started. */
    method HandleRestart(t: Listed, w: Answers) returns (r: Option<Attempt>)
      requires Valid() && t.command == RestartCmd && t.task in jobs && jobs[t.task] == Job(t.status, t.command, t.version, Begun)
      modifies this, sem
      ensures Valid() && old(trail) < trail && boot == old(boot)
      ensures polled == old(polled) && jobs == old(jobs) - {t.task}
      ensures r.None? <==> w.readFails || (t.task in old(store) && old(store)[t.task].version == t.version)
      ensures r.None? ==> View() == old(View()).(jobs := jobs)
      ensures restartSignals == if r.None? || w.killReadFails || t.task !in old(store) then old(restartSignals)
                                else old(restartSignals) + [(t.task, t.version, old(store)[t.task].version)]
      ensures r.Some? ==> Attempted(old(View()), t, w, r.value)
    {
      var again := PassGuard(t, w);
      if !again {
        return None;
      }
      SignalOld(t, w);
      var a := AcquireAndStart(t.task, t.version, w);
      r := Some(a);
    }

    /** A start waits while the task or its sandbox still runs. */
    method HandleStart(t: Listed, w: Answers) returns (r: Option<Attempt>)
      requires Valid() && t.command == StartCmd && t.task in jobs && jobs[t.task] == Job(t.status, t.command, t.version, Begun)
      modifies this, sem
      ensures Valid() && old(trail) < trail && boot == old(boot)
      ensures polled == old(polled) && jobs == old(jobs) - {t.task}
      ensures r.None? <==> t.status == Running || w.guardFails || (t.task in old(store) && w.guardProbe == IsRunning)
      ensures r.None? ==> View() == old(View()).(jobs := jobs)
      ensures restartSignals == old(restartSignals)
      ensures r.Some? ==> Attempted(old(View()), t, w, r.value)
    {
      ghost var before := View();
      if t.status == Running || w.guardFails || (t.task in store && w.guardProbe == IsRunning) {
        jobs := jobs - {t.task};
        Took(before, GuardStart(t.task, w.guardFails, w.guardProbe));
        return None;
      }
      SetPhase(t.task, Acquiring);
      Took(before, GuardStart(t.task, w.guardFails, w.guardProbe));
      var a := AcquireAndStart(t.task, t.version, w);
      r := Some(a);
    }

    /** A stop with no running sandbox to signal reports the run stopped itself. */
    method HandleStop(t: Listed, w: Answers)
      requires Valid() && t.command == StopCmd && t.task in jobs && jobs[t.task] == Job(t.status, t.command, t.version, Begun)
      modifies this
      ensures Valid() && old(trail) < trail && boot == old(boot)
      ensures polled == old(polled) && jobs == old(jobs) - {t.task}
      ensures dead == (old(dead) || !(w.guardFails || (t.task in store && w.signalled) || w.enqueued))
      ensures queue == if w.guardFails || (t.task in store && w.signalled) || !w.enqueued then old(queue)
                       else old(queue) + [Queued(t.task, RunnerEvent(Stopped, t.version, false))]
      ensures store == old(store) && watching == old(watching)
    {
      ghost var before := View();
      jobs := jobs - {t.task};
      if !(w.guardFails || (t.task in store && w.signalled)) {
        Enqueue(t.task, Stopped, t.version, w.enqueued);
      }
      Took(before, Action.HandleStop(t.task, w.guardFails, w.signalled, w.enqueued));
    }

    method TakeListed(t: Listed)
      requires Valid() && t.task !in polled && t.task !in jobs && t.command != NoCommand
      modifies this`jobs, this`polled, this`trail
      ensures Valid() && trail == old(trail) + [Dispatch(t.task, t.status, t.command, t.version)]
      ensures jobs == old(jobs)[t.task := Job(t.status, t.command, t.version, Begun)]
      ensures polled == old(polled) + {t.task}
    {
      ghost var before := View();
      jobs := jobs[t.task := Job(t.status, t.command, t.version, Begun)];
      polled := polled + {t.task};
      Took(before, Dispatch(t.task, t.status, t.command, t.version));
    }

    method Handle(t: Listed, w: Answers)
      requires Valid() && t.task !in polled && t.command != NoCommand && jobs == map[]
      modifies this, sem
      ensures Valid() && boot == old(boot) && jobs == map[] && polled == old(polled) + {t.task}
      ensures old(trail) + [Dispatch(t.task, t.status, t.command, t.version)] <= trail
    {
      TakeListed(t);
      match t.command {
        case StopCmd => HandleStop(t, w);
        case RestartCmd => var _ := HandleRestart(t, w);
        case StartCmd => var _ := HandleStart(t, w);
      }
    }

    /** The pass is over once its handlers are; a runner going down begins no other. */
    method EndPass()
      requires Valid() && jobs == map[]
      modifies this`polled, this`trail
      ensures Valid() && old(trail) <= trail && (!dead ==> polled == {})
    {
      if !dead {
        ghost var before := View();
        polled := {};
        Took(before, PollEnds);
      }
    }

    /** One poll pass, its handlers run one after another; the machine's steps
        cover every interleaving of them. A failed durable write ends no pass:
        every listed task still gets its handler. No pass begins after one. */
    method Poll(tasks: seq<Listed>, answers: seq<Answers>)
      requires Valid() && |answers| == |tasks| && jobs == map[] && (!dead ==> polled == {})
      requires forall i :: 0 <= i < |tasks| ==> tasks[i].command != NoCommand
      requires forall i, j :: 0 <= i < j < |tasks| ==> tasks[i].task != tasks[j].task
      modifies this, sem
      ensures Valid() && old(trail) <= trail && boot == old(boot) && jobs == map[] && (!dead ==> polled == {})
      ensures sem.count == |watching| + leaked + detached
      ensures old(dead) ==> trail == old(trail)
      ensures !old(dead) ==> forall i :: 0 <= i < |tasks| ==> Dispatched(trail, tasks[i], |old(trail)|)
    {
      if !dead {
        ghost var start := |trail|;
        for i := 0 to |tasks|
          invariant Valid() && old(trail) <= trail && boot == old(boot) && jobs == map[]
          invariant forall j :: i <= j < |tasks| ==> tasks[j].task !in polled
          invariant forall j :: 0 <= j < i ==> Dispatched(trail, tasks[j], start)
        {
          ghost var before := trail;
          Handle(tasks[i], answers[i]);
          forall j | 0 <= j <= i ensures Dispatched(trail, tasks[j], start) {
            DispatchedMore(before, trail, tasks[j], start);
          }
        }
        ghost var handled := trail;
        EndPass();
        forall j | 0 <= j < |tasks| ensures Dispatched(trail, tasks[j], start) {
          DispatchedMore(handled, trail, tasks[j], start);
        }
      }
      SlotAccounting(boot, trail);
      assert Holders(View()) == {};
    }
  }
}
