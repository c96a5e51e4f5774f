/** The run protocol with the drivers' config file in it: the persisted cursor,
    the drains that read it and the saves that move it, stepping in any
    interleaving with everything else the protocol does. Follows
    internal/runner/agent/driver.go and internal/gritzclient/events.go. */
module RunDelivery {
  import opened Options
  import opened Tasks
  import opened P = RunProtocol
  import D = Drivers

  /** What a driver's drain goes by: the cursor it loaded, or, once it opened on
      the newest page of a longer stream without one, the row it opened at. */
  datatype Trip = Loaded(token: Option<nat>) | Opened(from: nat) | Committed

  /** A cursor k stands just past the first k events. delivered holds the events
      in the batches of the runs that saved; skipped is the furthest row a run
      that saved had opened at without a cursor. */
  datatype Sandbox = Sandbox(world: World, trips: map<nat, Trip>, saved: Option<nat>, delivered: set<nat>, skipped: nat)

  datatype Step =
    | Protocol(act: P.Action)
    | Load(i: nat)      // the driver reads its config file
    | SaveSetup(i: nat) // a setup command is done: the config is saved with the cursor as loaded
    | Open(i: nat)      // the first page of a drain that has no cursor and needs more than one page
    | Save(i: nat)      // the prompt succeeded and the config with the drained cursor is on disk

  predicate OnTrip(n: Sandbox, i: nat) {
    i in n.trips && !n.trips[i].Committed?
  }

  /** A drain without a cursor whose first page is not the whole stream has to open first. */
  predicate CanDrain(n: Sandbox, i: nat) {
    OnTrip(n, i) && (n.trips[i] == Loaded(None) ==> |n.world.stream| <= D.EventPageSize)
  }

  predicate Enabled(n: Sandbox, a: Step) {
    match a
    case Protocol(act) => P.Enabled(n.world, act) && (act.Drain? ==> CanDrain(n, act.i))
    case Load(i) => i < |n.world.drivers| && n.world.drivers[i].phase.Acked? && i !in n.trips
    case SaveSetup(i) =>
      i < |n.world.drivers| && n.world.drivers[i].phase.Acked? && i in n.trips && n.trips[i].Loaded?
    case Open(i) =>
      && i < |n.world.drivers| && n.world.drivers[i].phase.Acked?
      && i in n.trips && n.trips[i] == Loaded(None) && |n.world.stream| > D.EventPageSize
    case Save(i) => i < |n.world.drivers| && n.world.drivers[i].phase.Drained? && OnTrip(n, i)
  }

  /** The row a drain starts from. */
  function From(t: Trip): nat
    requires !t.Committed?
  {
    match t
    case Loaded(Some(k)) => k
    case Loaded(None) => 0
    case Opened(from) => from
  }

  function Batch(from: nat, end: nat): (events: set<nat>)
    ensures forall k: nat :: k in events <==> from <= k < end
    decreases end
  {
    if from >= end then {} else Batch(from, end - 1) + {end - 1}
  }

  function Fire(n: Sandbox, a: Step): Sandbox
    requires Enabled(n, a)
  {
    match a
    case Protocol(act) => n.(world := P.Fire(n.world, act))
    case Load(i) => n.(trips := n.trips[i := Loaded(n.saved)])
    case SaveSetup(i) => n.(saved := n.trips[i].token)
    case Open(i) => n.(trips := n.trips[i := Opened(D.OpensAt(|n.world.stream|))])
    case Save(i) =>
      var from, to := From(n.trips[i]), n.world.drivers[i].phase.cursor;
      n.(trips := n.trips[i := Committed],
         saved := if to == 0 then None else Some(to),
         delivered := n.delivered + Batch(from, to),
         skipped := if n.trips[i].Opened? && from > n.skipped then from else n.skipped)
  }

  function Next(n: Sandbox, a: Step): Sandbox {
    if Enabled(n, a) then Fire(n, a) else n
  }

  function After(n: Sandbox, acts: seq<Step>): Sandbox
    decreases acts
  {
    if acts == [] then n else After(Next(n, acts[0]), acts[1..])
  }

  predicate Initial(n: Sandbox) {
    P.Initial(n.world) && n.trips == map[] && n.saved == None && n.delivered == {} && n.skipped == 0
  }

  // ---- nothing behind a cursor is undelivered ------------------------------

  function Position(token: Option<nat>): nat {
    if token.Some? then token.value else 0
  }

  /** Every event before row k, from the skipped ones on, has been delivered. */
  ghost predicate DeliveredTo(n: Sandbox, k: nat) {
    forall j: nat :: n.skipped <= j < k ==> j in n.delivered
  }

  ghost predicate Covered(n: Sandbox) {
    && DeliveredTo(n, Position(n.saved))
    && (forall i :: i in n.trips && n.trips[i].Loaded? ==> DeliveredTo(n, Position(n.trips[i].token)))
    && (forall i :: i in n.trips ==> i < |n.world.drivers|)
  }

  lemma SaveCovers(n: Sandbox, i: nat)
    requires Covered(n) && Enabled(n, Save(i))
    ensures DeliveredTo(Fire(n, Save(i)), n.world.drivers[i].phase.cursor)
    ensures Covered(Fire(n, Save(i)))
  {
    var m, to := Fire(n, Save(i)), n.world.drivers[i].phase.cursor;
    var from := From(n.trips[i]);
    forall j: nat | m.skipped <= j < to ensures j in m.delivered {
      if j < from {
        assert n.trips[i].Loaded? && j < Position(n.trips[i].token);
      }
    }
    forall k: nat | DeliveredTo(n, k) ensures DeliveredTo(m, k) {
    }
    forall j | j in m.trips && m.trips[j].Loaded? ensures DeliveredTo(m, Position(m.trips[j].token)) {
      assert m.trips[j] == n.trips[j];
    }
  }

  lemma CoveredNext(n: Sandbox, a: Step)
    requires Covered(n)
    ensures Covered(Next(n, a))
  {
    if Enabled(n, a) {
      match a {
        case Save(i) => SaveCovers(n, i);
        case Load(i) =>
        case SaveSetup(i) =>
        case Open(i) =>
        case Protocol(act) =>
          assert |P.Fire(n.world, act).drivers| >= |n.world.drivers|;
      }
    }
  }

  lemma {:induction false} CoveredAlways(n: Sandbox, acts: seq<Step>)
    requires Covered(n)
    ensures Covered(After(n, acts))
    decreases acts
  {
    if acts != [] {
      CoveredNext(n, acts[0]);
      CoveredAlways(Next(n, acts[0]), acts[1..]);
    }
  }

  /** Only one kind of step skips an event, and it does so exactly when the run
      that saves had opened past it. */
  lemma SkipsExactly(n: Sandbox, a: Step, k: nat)
    requires n.skipped <= k
    ensures k < Next(n, a).skipped <==>
              a.Save? && Enabled(n, a) && n.trips[a.i].Opened? && k < n.trips[a.i].from
  {
  }

  /** Which is when no cursor was saved and a full page of events came after it. */
  lemma OpensPastExactly(n: Sandbox, i: nat, k: nat)
    requires Enabled(n, Open(i))
    ensures k < From(Fire(n, Open(i)).trips[i]) <==> k + D.EventPageSize < |n.world.stream|
  {
  }

  // ---- a drained event is delivered by the save ----------------------------

  lemma {:induction false} DrainStands(n: Sandbox, acts: seq<Step>, i: nat, to: nat)
    requires i < |n.world.drivers| && n.world.drivers[i].phase in {Drained(to), Exited}
    ensures i < |After(n, acts).world.drivers| && After(n, acts).world.drivers[i].phase in {Drained(to), Exited}
    decreases acts
  {
    if acts != [] {
      var next := Next(n, acts[0]);
      assert i < |next.world.drivers| && next.world.drivers[i].phase in {Drained(to), Exited};
      DrainStands(next, acts[1..], i, to);
    }
  }

  /** Whatever else steps in between: once a run that drained after event k was
      appended has saved, k is in its batch or in an earlier one, unless a run
      that saved had opened past it. */
  lemma {:induction false} NextSaveDelivers(n: Sandbox, acts: seq<Step>, i: nat, rest: seq<Step>, k: nat)
    requires Initial(n) && k < |After(n, acts).world.stream|
    requires Enabled(After(n, acts), Protocol(Drain(i)))
    requires Enabled(After(Next(After(n, acts), Protocol(Drain(i))), rest), Save(i))
    ensures var saved := Next(After(Next(After(n, acts), Protocol(Drain(i))), rest), Save(i));
            k in saved.delivered || k < saved.skipped
  {
    var m := After(n, acts);
    var drained := Next(m, Protocol(Drain(i)));
    CoveredAlways(n, acts);
    CoveredNext(m, Protocol(Drain(i)));
    CoveredAlways(drained, rest);
    DrainStands(drained, rest, i, |m.world.stream|);
    SaveCovers(After(drained, rest), i);
  }

  /** A setup save leaves the cursor where the driver found it. */
  lemma SetupKeepsCursor(n: Sandbox, i: nat)
    requires Enabled(n, Load(i))
    ensures Enabled(Next(n, Load(i)), SaveSetup(i))
    ensures Next(Next(n, Load(i)), SaveSetup(i)).saved == n.saved
  {
  }

  // ---- an owed wake --------------------------------------------------------

  predicate Repeats(n: Sandbox, a: Step) {
    a.Protocol? && Enabled(n, a) && P.StartsAgain(n.world, a.act)
  }

  /** The hypothesis: each run's `started` is applied at most once. */
  predicate EachStartedOnce(n: Sandbox, acts: seq<Step>)
    decreases acts
  {
    acts == [] || (!Repeats(n, acts[0]) && EachStartedOnce(Next(n, acts[0]), acts[1..]))
  }

  /** The current run has drained and wake event k has been appended since. */
  predicate OwedFor(w: World, i: nat, k: nat) {
    && i < |w.drivers| && w.drivers[i].version == w.row.version && w.row.status.Running?
    && w.drivers[i].phase.Drained? && w.drivers[i].phase.cursor <= k < |w.stream| && w.stream[k]
  }

  ghost predicate Good(n: Sandbox) {
    P.Shape(n.world) && P.NoLostWake(n.world) && Covered(n)
  }

  lemma GoodNext(n: Sandbox, a: Step)
    requires Good(n) && !Repeats(n, a)
    ensures Good(Next(n, a))
  {
    CoveredNext(n, a);
    if a.Protocol? && Enabled(n, a) {
      P.ShapeKept(n.world, a.act);
      P.WakeLostExactly(n.world, a.act);
    }
  }

  lemma {:induction false} GoodAlways(n: Sandbox, acts: seq<Step>)
    requires Good(n) && EachStartedOnce(n, acts)
    ensures Good(After(n, acts))
    decreases acts
  {
    if acts != [] {
      GoodNext(n, acts[0]);
      GoodAlways(Next(n, acts[0]), acts[1..]);
    }
  }

  /** Over every interleaving: while a wake is owed the next run is queued, and
      the event is delivered already or at or after the saved cursor, unless a
      run that saved had opened past it. */
  lemma {:induction false} OwedWakeAwaits(n: Sandbox, acts: seq<Step>, i: nat, k: nat)
    requires Initial(n) && EachStartedOnce(n, acts) && OwedFor(After(n, acts).world, i, k)
    ensures var m := After(n, acts);
            m.world.row.command.StartCmd? && (Position(m.saved) <= k || k in m.delivered || k < m.skipped)
  {
    GoodAlways(n, acts);
    assert P.Owed(After(n, acts).world, i);
  }

  // ---- the run that follows ------------------------------------------------

  /** The owing run ends, the next one starts and reads the config. */
  function Restarting(n: Sandbox, i: nat): seq<Step> {
    var j := |n.world.drivers|;
    [Protocol(ReportOutcome(i, false)), Protocol(Launch), Protocol(ReportStarted(j, true)), Load(j)]
  }

  /** It drains and saves. */
  function Draining(n: Sandbox, j: nat): seq<Step> {
    (if n.saved == None && |n.world.stream| > D.EventPageSize then [Open(j)] else []) + [Protocol(Drain(j)), Save(j)]
  }

  function NextRun(n: Sandbox, i: nat): seq<Step> {
    Restarting(n, i) + Draining(n, |n.world.drivers|)
  }

  lemma {:induction false} AfterInTwo(n: Sandbox, acts: seq<Step>, more: seq<Step>)
    ensures After(n, acts + more) == After(After(n, acts), more)
    ensures EachStartedOnce(n, acts + more) <==> EachStartedOnce(n, acts) && EachStartedOnce(After(n, acts), more)
    decreases acts
  {
    if acts == [] {
      assert acts + more == more;
    } else {
      assert (acts + more)[1..] == acts[1..] + more;
      AfterInTwo(Next(n, acts[0]), acts[1..], more);
    }
  }

  lemma AfterOne(n: Sandbox, a: Step, rest: seq<Step>)
    ensures After(n, [a] + rest) == After(Next(n, a), rest)
    ensures EachStartedOnce(n, [a] + rest) <==> !Repeats(n, a) && EachStartedOnce(Next(n, a), rest)
  {
    assert ([a] + rest)[1..] == rest;
  }

  lemma EndsOwing(n: Sandbox, i: nat, k: nat)
    requires Good(n) && OwedFor(n.world, i, k)
    ensures var m := After(n, [Protocol(ReportOutcome(i, false)), Protocol(Launch)]);
            var j, v := |n.world.drivers|, n.world.row.version + 1;
            && m == n.(world := m.world)
            && m.world.row == n.world.row.(status := Pending, command := StartCmd, version := v)
            && m.world.stream == n.world.stream
            && |m.world.drivers| == j + 1 && m.world.drivers[j] == Driver(v, Fetched)
  {
    var a, b := Protocol(ReportOutcome(i, false)), Protocol(Launch);
    assert P.Owed(n.world, i);
    AfterOne(n, a, [b]);
    AfterOne(Next(n, a), b, []);
    assert [a] + [b] == [a, b] && [b] + [] == [b];
  }

  lemma StartsPending(n: Sandbox, j: nat)
    requires j < |n.world.drivers| && n.world.drivers[j] == Driver(n.world.row.version, Fetched) && j !in n.trips
    requires n.world.row.status.Pending? && n.world.row.command.StartCmd? && !n.world.row.archived
    ensures var m := After(n, [Protocol(ReportStarted(j, true)), Load(j)]);
            && m == n.(world := m.world, trips := n.trips[j := Loaded(n.saved)])
            && m.world.row == n.world.row.(status := Running, command := NoCommand)
            && m.world.stream == n.world.stream
            && m.world.drivers == n.world.drivers[j := Driver(n.world.row.version, Acked)]
  {
    var a, b := Protocol(ReportStarted(j, true)), Load(j);
    AfterOne(n, a, [b]);
    AfterOne(Next(n, a), b, []);
    assert [a] + [b] == [a, b] && [b] + [] == [b];
  }

  /** The owing run's own `stopped` provisions the next run, which starts and loads the saved cursor. */
  lemma RestartsOwing(n: Sandbox, i: nat, k: nat)
    requires Good(n) && OwedFor(n.world, i, k)
    ensures var m := After(n, Restarting(n, i));
            var j, v := |n.world.drivers|, n.world.row.version + 1;
            && m == n.(world := m.world, trips := n.trips[j := Loaded(n.saved)])
            && m.world.row == n.world.row.(status := Running, command := NoCommand, version := v)
            && m.world.stream == n.world.stream
            && |m.world.drivers| == j + 1 && m.world.drivers[j] == Driver(v, Acked)
  {
    var j := |n.world.drivers|;
    var ends, starts := [Protocol(ReportOutcome(i, false)), Protocol(Launch)], [Protocol(ReportStarted(j, true)), Load(j)];
    EndsOwing(n, i, k);
    StartsPending(After(n, ends), j);
    AfterInTwo(n, ends, starts);
    assert ends + starts == Restarting(n, i);
  }

  /** Where a run with the saved cursor drains from. */
  function Resumes(n: Sandbox): nat {
    if n.saved.Some? then n.saved.value else D.OpensAt(|n.world.stream|)
  }

  lemma DrainsAndSaves(n: Sandbox, j: nat)
    requires j < |n.world.drivers| && n.world.drivers[j].phase.Acked? && j in n.trips && n.trips[j] == Loaded(n.saved)
    ensures var m := After(n, Draining(n, j));
            m.delivered == n.delivered + Batch(Resumes(n), |n.world.stream|) && m.world.row == n.world.row
  {
    var a, b, c := Open(j), Protocol(Drain(j)), Save(j);
    var opens := n.saved == None && |n.world.stream| > D.EventPageSize;
    var m := if opens then Next(n, a) else n;
    assert From(m.trips[j]) == Resumes(n) && CanDrain(m, j);
    if opens {
      AfterOne(n, a, [b, c]);
    } else {
      assert [] + [b, c] == [b, c];
    }
    AfterOne(m, b, [c]);
    AfterOne(Next(m, b), c, []);
    assert [b] + [c] == [b, c] && [c] + [] == [c];
    assert After(n, Draining(n, j)) == Next(Next(m, b), c);
  }

  /** When the owing run's `stopped` lands and the next run drains and saves, the
      owed wake is delivered, exactly unless no cursor had been saved and a full
      page of events had followed it. */
  lemma NextRunDelivers(n: Sandbox, i: nat, k: nat)
    requires Good(n) && OwedFor(n.world, i, k) && n.skipped <= k
    ensures var m := After(n, NextRun(n, i));
            && m.world.row == n.world.row.(status := Running, command := NoCommand, version := n.world.row.version + 1)
            && (k in m.delivered <==>
                  k in n.delivered || n.saved.Some? || |n.world.stream| <= k + D.EventPageSize)
  {
    var m, j := After(n, Restarting(n, i)), |n.world.drivers|;
    RestartsOwing(n, i, k);
    DrainsAndSaves(m, j);
    assert Draining(m, j) == Draining(n, j);
    AfterInTwo(n, Restarting(n, i), Draining(n, j));
  }

  // ---- the exception is real -----------------------------------------------

  function Burst(count: nat): seq<Step> {
    if count == 0 then [] else [Protocol(Attach(true))] + Burst(count - 1)
  }

  lemma {:induction false} BurstLands(n: Sandbox, count: nat)
    requires n.world.row.status.Running? && !n.world.row.archived
    ensures var m := After(n, Burst(count));
            && m == n.(world := m.world) && m.world.drivers == n.world.drivers
            && m.world.row == (if count == 0 then n.world.row else n.world.row.(command := StartCmd))
            && |m.world.stream| == |n.world.stream| + count && n.world.stream <= m.world.stream
            && (forall j :: |n.world.stream| <= j < |m.world.stream| ==> m.world.stream[j])
    ensures EachStartedOnce(n, Burst(count))
    decreases count
  {
    if count > 0 {
      AfterOne(n, Protocol(Attach(true)), Burst(count - 1));
      BurstLands(Next(n, Protocol(Attach(true))), count - 1);
    }
  }

  const FirstRun: seq<Step> :=
    [Protocol(Launch), Protocol(ReportStarted(0, true)), Load(0), Protocol(Drain(0))]

  lemma FirstRunDrains(n: Sandbox)
    requires Initial(n) && n.world.row.status.Pending? && |n.world.stream| <= D.EventPageSize
    ensures var m := After(n, FirstRun);
            && m.world.row == n.world.row.(status := Running, command := NoCommand)
            && m.world.drivers == [Driver(n.world.row.version, Drained(|n.world.stream|))]
            && m.world.stream == n.world.stream && m.saved == None && m.delivered == {} && m.skipped == 0
            && m.trips == map[0 := Loaded(None)]
    ensures EachStartedOnce(n, FirstRun)
  {
    var a, b, c, d := Protocol(Launch), Protocol(ReportStarted(0, true)), Load(0), Protocol(Drain(0));
    var w1, w2 := Next(n, a), Next(Next(n, a), b);
    AfterOne(n, a, [b, c, d]);
    AfterOne(w1, b, [c, d]);
    AfterOne(w2, c, [d]);
    AfterOne(Next(w2, c), d, []);
    assert [a] + [b, c, d] == FirstRun && [b] + [c, d] == [b, c, d] && [c] + [d] == [c, d] && [d] + [] == [d];
    assert w1.world.drivers == [Driver(n.world.row.version, Fetched)];
    assert w2.world.drivers == [Driver(n.world.row.version, Acked)];
  }

  /** A wake and fifty more events during a first run that never saves: the wake
      is owed, and the next run's drain passes it over. */
  lemma UnsavedRunSkipsWake(n: Sandbox)
    requires Initial(n) && n.world.row.status.Pending? && |n.world.stream| <= D.EventPageSize
    ensures var acts := FirstRun + Burst(D.EventPageSize + 1);
            var m, k := After(n, acts), |n.world.stream|;
            && EachStartedOnce(n, acts) && OwedFor(m.world, 0, k) && k >= m.skipped
            && k !in After(m, NextRun(m, 0)).delivered
  {
    var acts := FirstRun + Burst(D.EventPageSize + 1);
    FirstRunDrains(n);
    BurstLands(After(n, FirstRun), D.EventPageSize + 1);
    AfterInTwo(n, FirstRun, Burst(D.EventPageSize + 1));
    GoodAlways(n, acts);
    NextRunDelivers(After(n, acts), 0, |n.world.stream|);
  }

  /** Nor does a first run that saves help when there was nothing to read: an empty
      stream has no cursor, and the next run opens as if it were the first. */
  lemma EmptySaveSkipsWake(n: Sandbox)
    requires Initial(n) && n.world.row.status.Pending? && n.world.stream == []
    ensures var acts := (FirstRun + [Save(0)]) + Burst(D.EventPageSize + 1);
            var m := After(n, acts);
            && EachStartedOnce(n, acts) && OwedFor(m.world, 0, 0) && m.saved == None && m.skipped == 0
            && 0 !in After(m, NextRun(m, 0)).delivered
  {
    var drained := After(n, FirstRun);
    FirstRunDrains(n);
    AfterInTwo(n, FirstRun, [Save(0)]);
    AfterOne(drained, Save(0), []);
    assert [Save(0)] + [] == [Save(0)];
    var saved := After(n, FirstRun + [Save(0)]);
    assert saved == Next(drained, Save(0));
    BurstLands(saved, D.EventPageSize + 1);
    AfterInTwo(n, FirstRun + [Save(0)], Burst(D.EventPageSize + 1));
    GoodAlways(n, (FirstRun + [Save(0)]) + Burst(D.EventPageSize + 1));
    NextRunDelivers(After(saved, Burst(D.EventPageSize + 1)), 0, 0);
  }
}
