/** The shim's lifecycle broadcaster with its sticky exit, and the hooks that
    drive it. Follows internal/runner/microvmshim/lifecycle.go and the hooks and
    supervision in microvmshim.go. */
module Sticky {
  import opened Options

  /** An exit carries the code on the wire; run says whose it is, for the
      statements below only. */
  datatype Event = DriverExited(code: int, run: nat) | OtherEvent(name: string)

  const CHANNEL_SIZE := 16

  type Channels = map<nat, seq<Event>>

  /** The last exit and what each subscriber's channel holds. */
  datatype Board = Board(sticky: Option<Event>, subs: Channels)

  function Sent(channel: seq<Event>, ev: Event): seq<Event> {
    if |channel| < CHANNEL_SIZE then channel + [ev] else channel
  }

  function Published(b: Board, ev: Event): Board {
    Board(if ev.DriverExited? then Some(ev) else b.sticky, map i | i in b.subs :: Sent(b.subs[i], ev))
  }

  function PublishedAll(b: Board, evs: seq<Event>): Board
    decreases evs
  {
    if evs == [] then b else PublishedAll(Published(b, evs[0]), evs[1..])
  }

  /** A subscriber that reads nothing has the first sixteen events published since it joined. */
  lemma {:induction false} UnreadChannelHolds(b: Board, evs: seq<Event>, i: nat)
    requires i in b.subs && |b.subs[i]| <= 16
    ensures var n := 16 - |b.subs[i]|;
            && PublishedAll(b, evs).subs.Keys == b.subs.Keys
            && PublishedAll(b, evs).subs[i] == b.subs[i] + if |evs| <= n then evs else evs[..n]
    decreases evs
  {
    if evs != [] {
      UnreadChannelHolds(Published(b, evs[0]), evs[1..], i);
    } else {
      assert b.subs[i] + [] == b.subs[i];
    }
  }

  /** The last exit among the events, or what was there before. */
  function LastExit(before: Option<Event>, evs: seq<Event>): Option<Event> {
    if evs == [] then before
    else if evs[|evs| - 1].DriverExited? then Some(evs[|evs| - 1])
    else LastExit(before, evs[..|evs| - 1])
  }

  /** What sticks is the latest exit, whatever else is published. */
  lemma {:induction false} LatestExitSticks(b: Board, evs: seq<Event>)
    ensures PublishedAll(b, evs).sticky == LastExit(b.sticky, evs)
    decreases evs
  {
    if evs != [] {
      LatestExitSticks(Published(b, evs[0]), evs[1..]);
      LastExitCons(b.sticky, evs);
    }
  }

  lemma {:induction false} LastExitCons(before: Option<Event>, evs: seq<Event>)
    requires evs != []
    ensures LastExit(before, evs) == LastExit(if evs[0].DriverExited? then Some(evs[0]) else before, evs[1..])
    decreases evs
  {
    var front := evs[..|evs| - 1];
    if front == [] {
      assert evs[1..] == [];
    } else {
      LastExitCons(before, front);
      assert front[1..] == evs[1..][..|evs| - 2];
    }
  }

  class Lifecycle {
    var sticky: Option<Event>
    var subs: Channels
    var next: nat

    ghost function View(): Board
      reads this
    {
      Board(sticky, subs)
    }

    /** Channel ids are never handed out twice. */
    ghost predicate Valid()
      reads this
    {
      forall i :: i in subs ==> i < next
    }

    constructor ()
      ensures Valid() && View() == Board(None, map[])
    {
      sticky, subs, next := None, map[], 0;
    }

    method Publish(ev: Event)
      requires Valid()
      modifies this
      ensures Valid() && View() == Published(old(View()), ev) && next == old(next)
    {
      if ev.DriverExited? {
        sticky := Some(ev);
      }
      ghost var before := subs;
      var left := subs.Keys;
      while left != {}
        invariant left <= subs.Keys == before.Keys && next == old(next)
        invariant sticky == Published(old(View()), ev).sticky
        invariant forall i :: i in before ==> subs[i] == if i in left then before[i] else Sent(before[i], ev)
      {
        var i :| i in left;
        if |subs[i]| < CHANNEL_SIZE {
          subs := subs[i := subs[i] + [ev]];
        }
        left := left - {i};
      }
    }

    method Reset()
      requires Valid()
      modifies this
      ensures Valid() && View() == old(View()).(sticky := None) && next == old(next)
    {
      sticky := None;
    }

    method Subscribe() returns (id: nat, replay: Option<Event>)
      requires Valid()
      modifies this
      ensures Valid() && id !in old(subs) && replay == old(sticky)
      ensures View() == Board(old(sticky), old(subs)[id := []])
    {
      id, replay := next, sticky;
      subs := subs[id := []];
      next := next + 1;
    }

    method Unsubscribe(id: nat)
      requires Valid()
      modifies this
      ensures Valid() && View() == Board(old(sticky), old(subs) - {id}) && next == old(next)
    {
      subs := subs - {id};
    }

    /** The handler takes the oldest event out of its channel. */
    method Receive(id: nat) returns (ev: Event)
      requires Valid() && id in subs && subs[id] != []
      modifies this
      ensures Valid() && next == old(next) && ev == old(subs)[id][0]
      ensures View() == Board(old(sticky), old(subs)[id := old(subs)[id][1..]])
    {
      ev := subs[id][0];
      subs := subs[id := subs[id][1..]];
    }
  }

  class Server<Bundle(==)> {
    const lc: Lifecycle
    var started: bool
    var bundle: Option<Bundle>
    var current: Option<nat>
    var runs: nat

    ghost predicate Valid()
      reads this, lc
    {
      lc.Valid() && (started ==> bundle.Some?)
    }

    constructor ()
      ensures Valid() && fresh(lc) && !started && current.None? && runs == 0
      ensures lc.View() == Board(None, map[])
    {
      lc := new Lifecycle();
      started, bundle, current, runs := false, None, None, 0;
    }

    /** Clears the sticky exit and launches the driver as run number runs. A
        driver that cannot be started leaves the previous one current. */
    method Spawn(launches: bool) returns (ok: bool)
      requires Valid()
      modifies this, lc
      ensures Valid() && ok == launches && started == old(started) && bundle == old(bundle)
      ensures runs == old(runs) + 1 && current == if ok then Some(runs) else old(current)
      ensures lc.View() == old(lc.View()).(sticky := None)
    {
      lc.Reset();
      runs := runs + 1;
      if launches {
        current := Some(runs);
      }
      ok := launches;
    }

    /** fetched is the decoded bundle, None when it could not be had. */
    method RunHook(fetched: Option<Bundle>, provisions: bool, launches: bool) returns (ok: bool)
      requires Valid()
      modifies this, lc
      ensures Valid()
      ensures old(started) ==> ok && runs == old(runs) && current == old(current) && bundle == old(bundle)
      ensures old(started) ==> lc.View() == old(lc.View())
      ensures !old(started) && (fetched.None? || !provisions) ==>
        !ok && !started && runs == old(runs) && current == old(current) && lc.View() == old(lc.View())
      ensures !old(started) && fetched.Some? && provisions ==>
        && ok == launches && started && bundle == fetched && runs == old(runs) + 1
        && current == (if launches then Some(runs) else old(current))
        && lc.View() == old(lc.View()).(sticky := None)
    {
      if started {
        return true;
      }
      if fetched.None? {
        return false;
      }
      if !provisions {
        return false;
      }
      bundle, started := fetched, true;
      ok := Spawn(launches);
    }

    method ResumeHook(launches: bool) returns (ok: bool)
      requires Valid()
      modifies this, lc
      ensures Valid() && started == old(started) && bundle == old(bundle)
      ensures !started ==> ok && runs == old(runs) && current == old(current) && lc.View() == old(lc.View())
      ensures started ==> ok == launches && runs == old(runs) + 1
      ensures started ==> current == if launches then Some(runs) else old(current)
      ensures started ==> lc.View() == old(lc.View()).(sticky := None)
    {
      if !started {
        return true;
      }
      ok := Spawn(launches);
    }

    method SuspendHook()
      requires Valid()
      modifies lc
      ensures Valid() && lc.View() == old(lc.View()).(sticky := None)
    {
      lc.Reset();
    }

    /** The supervising goroutine of one run, once its driver has exited. */
    method Supervise(run: nat, code: int)
      requires Valid()
      modifies lc
      ensures Valid() && lc.View() == Published(old(lc.View()), DriverExited(code, run))
    {
      lc.Publish(DriverExited(code, run));
    }
  }
}

/** The shim and its subscribers as a state machine over every interleaving. */
module StickyDelivery {
  import opened Options
  import opened Sticky

  /** What one subscriber was given at registration and has read since. late
      says it registered after the suspend that ended a run; since is how many
      exits had been published and were not going to reach it. */
  datatype Reader = Reader(replay: Option<Event>, got: seq<Event>, birth: nat, late: bool, since: nat)

  /** launching and live are the runs whose supervising goroutine has not
      published yet; exits is every exit published so far. */
  datatype World = World(started: bool, suspended: bool, runs: nat, launching: set<nat>, live: set<nat>,
                         board: Board, readers: map<nat, Reader>, exits: seq<Event>)

  datatype Action =
    | RunHook(ready: bool)
    | ResumeHook
    | Launched(run: nat, ok: bool)
    | Exited(run: nat, code: int)
    | SuspendHook
    | Subscribe(id: nat)
    | Unsubscribe(id: nat)
    | Receive(id: nat)

  const BOOTED := World(false, false, 0, {}, {}, Board(None, map[]), map[], [])

  /** A run begins with the reset in spawn; its driver starts later. */
  function Spawning(w: World): World {
    w.(started := true, suspended := false, runs := w.runs + 1, launching := w.launching + {w.runs + 1},
       board := w.board.(sticky := None))
  }

  predicate Spawns(w: World, a: Action) {
    (a.RunHook? && a.ready && !w.started) || (a.ResumeHook? && w.started)
  }

  function Joining(w: World): Reader {
    Reader(w.board.sticky, [], w.runs, w.suspended,
           if w.board.sticky.Some? && |w.exits| > 0 then |w.exits| - 1 else |w.exits|)
  }

  function Next(w: World, a: Action): World {
    if Spawns(w, a) then Spawning(w)
    else match a
      case RunHook(_) => w
      case ResumeHook => w
      case Launched(run, ok) =>
        if run !in w.launching then w
        else w.(launching := w.launching - {run}, live := if ok then w.live + {run} else w.live)
      case Exited(run, code) =>
        if run !in w.live then w
        else
          var ev := DriverExited(code, run);
          w.(live := w.live - {run}, board := Published(w.board, ev), exits := w.exits + [ev])
      case SuspendHook => w.(suspended := true, board := w.board.(sticky := None))
      case Subscribe(id) =>
        if id in w.readers then w
        else w.(board := w.board.(subs := w.board.subs[id := []]), readers := w.readers[id := Joining(w)])
      case Unsubscribe(id) =>
        w.(board := w.board.(subs := w.board.subs - {id}), readers := w.readers - {id})
      case Receive(id) =>
        if id !in w.readers || id !in w.board.subs || w.board.subs[id] == [] then w
        else w.(board := w.board.(subs := w.board.subs[id := w.board.subs[id][1..]]),
                readers := w.readers[id := w.readers[id].(got := w.readers[id].got + [w.board.subs[id][0]])])
  }

  function After(w: World, actions: seq<Action>): World
    decreases actions
  {
    if actions == [] then w else After(Next(w, actions[0]), actions[1..])
  }

  /** Everything a subscriber was handed: the replay, what it read, what waits. */
  function Received(w: World, id: nat): seq<Event>
    requires id in w.readers && id in w.board.subs
  {
    var r := w.readers[id];
    (if r.replay.Some? then [r.replay.value] else []) + r.got + w.board.subs[id]
  }

  // ---- no channel overflows: nothing lost, nothing twice --------------------

  predicate Fits(w: World, a: Action) {
    a.Exited? && a.run in w.live ==> forall id :: id in w.board.subs ==> |w.board.subs[id]| < CHANNEL_SIZE
  }

  predicate HoldsSuffix(w: World, id: nat)
    requires id in w.readers && id in w.board.subs
  {
    w.readers[id].since <= |w.exits| && Received(w, id) == w.exits[w.readers[id].since..]
  }

  ghost predicate Bookkept(w: World) {
    && w.board.subs.Keys == w.readers.Keys
    && (w.board.sticky.Some? ==> w.exits != [] && w.board.sticky.value == w.exits[|w.exits| - 1])
    && (forall e :: e in w.exits ==> e.DriverExited?)
  }

  ghost predicate Delivered(w: World) {
    Bookkept(w) && forall id :: id in w.readers ==> HoldsSuffix(w, id)
  }

  lemma BookkeepingKept(w: World, a: Action)
    requires Bookkept(w)
    ensures Bookkept(Next(w, a))
  {
  }

  /** One exit published: a subscriber that held every exit since it joined
      still does exactly when its channel had room. */
  lemma RoomIsWhatItTakes(w: World, run: nat, code: int, id: nat)
    requires Bookkept(w) && run in w.live && id in w.readers && HoldsSuffix(w, id)
    ensures HoldsSuffix(Next(w, Exited(run, code)), id) <==> |w.board.subs[id]| < CHANNEL_SIZE
  {
    var next := Next(w, Exited(run, code));
    var ev, since := DriverExited(code, run), w.readers[id].since;
    assert next.exits[since..] == w.exits[since..] + [ev];
    if |w.board.subs[id]| < CHANNEL_SIZE {
      assert Received(next, id) == Received(w, id) + [ev];
    } else {
      assert Received(next, id) == Received(w, id);
      assert |next.exits[since..]| == |Received(w, id)| + 1;
    }
  }

  lemma ReadingKeeps(w: World, id: nat)
    requires Delivered(w) && id in w.readers && w.board.subs[id] != []
    ensures HoldsSuffix(Next(w, Receive(id)), id)
  {
    var r, channel := w.readers[id], w.board.subs[id];
    assert [channel[0]] + channel[1..] == channel;
    assert (r.got + [channel[0]]) + channel[1..] == r.got + channel;
    assert Received(Next(w, Receive(id)), id) == Received(w, id);
  }

  lemma UntouchedKeeps(w: World, a: Action, id: nat)
    requires Delivered(w) && id in w.readers && id in Next(w, a).readers
    requires !a.Exited? && !(a.Receive? && a.id == id)
    ensures id in Next(w, a).board.subs && HoldsSuffix(Next(w, a), id)
  {
    var next := Next(w, a);
    assert next.readers[id] == w.readers[id] && next.board.subs[id] == w.board.subs[id] && next.exits == w.exits;
  }

  lemma ReaderKept(w: World, a: Action, id: nat)
    requires Delivered(w) && Fits(w, a) && id in w.readers && id in Next(w, a).readers
    ensures id in Next(w, a).board.subs && HoldsSuffix(Next(w, a), id)
  {
    if a.Exited? {
      if a.run in w.live {
        RoomIsWhatItTakes(w, a.run, a.code, id);
      }
    } else if a.Receive? && a.id == id {
      if w.board.subs[id] != [] {
        ReadingKeeps(w, id);
      }
    } else {
      UntouchedKeeps(w, a, id);
    }
  }

  lemma JoinerHoldsSuffix(w: World, id: nat)
    requires Bookkept(w) && id !in w.readers
    ensures HoldsSuffix(Next(w, Subscribe(id)), id)
  {
  }

  lemma DeliveredNext(w: World, a: Action)
    requires Delivered(w) && Fits(w, a)
    ensures Delivered(Next(w, a))
  {
    BookkeepingKept(w, a);
    forall id | id in Next(w, a).readers ensures HoldsSuffix(Next(w, a), id) {
      if id in w.readers {
        ReaderKept(w, a, id);
      } else {
        JoinerHoldsSuffix(w, id);
      }
    }
  }

  // ---- resets only between runs: which exits a subscriber is owed ------------

  /** Spawning and suspending wait for the previous exit to be published. */
  predicate Waits(w: World, a: Action) {
    Spawns(w, a) || a.SuspendHook? ==> w.launching == {} && w.live == {}
  }

  predicate Unpublished(w: World) {
    w.launching != {} || w.live != {}
  }

  predicate Ascending(exits: seq<Event>) {
    && (forall i :: 0 <= i < |exits| ==> exits[i].DriverExited?)
    && forall i, j :: 0 <= i < j < |exits| ==> exits[i].run < exits[j].run
  }

  ghost predicate InTurn(w: World) {
    && (forall run :: run in w.launching || run in w.live ==> run == w.runs)
    && w.launching !! w.live
    && (w.suspended ==> !Unpublished(w))
    && Ascending(w.exits)
    && (forall e :: e in w.exits ==> if Unpublished(w) then e.run < w.runs else e.run <= w.runs)
    && (w.board.sticky.Some? <==> !w.suspended && w.exits != [] && w.exits[|w.exits| - 1].run == w.runs)
  }

  /** Whether a subscriber is owed a run's exit: it joined before the reset that
      ended the run. */
  predicate OwedExit(r: Reader, run: nat) {
    if r.late then run > r.birth else run >= r.birth
  }

  predicate OwedFrom(w: World, r: Reader) {
    && r.birth <= w.runs && r.since <= |w.exits|
    && (r.late && r.birth == w.runs ==> w.suspended)
    && (forall e :: e in w.exits ==> e.DriverExited?)
    && (forall i :: 0 <= i < |w.exits| ==> (i >= r.since <==> OwedExit(r, w.exits[i].run)))
    && (r.replay.Some? ==> !r.late && r.replay.value.DriverExited? && r.replay.value.run == r.birth)
  }

  ghost predicate Orderly(w: World) {
    Bookkept(w) && InTurn(w) && forall id :: id in w.readers ==> OwedFrom(w, w.readers[id])
  }

  lemma InTurnNext(w: World, a: Action)
    requires Bookkept(w) && InTurn(w) && Waits(w, a)
    ensures InTurn(Next(w, a))
  {
  }

  lemma OwedNext(w: World, a: Action, id: nat)
    requires Orderly(w) && Waits(w, a) && id in w.readers && id in Next(w, a).readers
    ensures OwedFrom(Next(w, a), Next(w, a).readers[id])
  {
  }

  lemma JoinerIsOwed(w: World, id: nat)
    requires Orderly(w) && id !in w.readers
    ensures OwedFrom(Next(w, Subscribe(id)), Joining(w))
  {
  }

  lemma OrderlyNext(w: World, a: Action)
    requires Orderly(w) && Waits(w, a)
    ensures Orderly(Next(w, a))
  {
    BookkeepingKept(w, a);
    InTurnNext(w, a);
    forall id | id in Next(w, a).readers ensures OwedFrom(Next(w, a), Next(w, a).readers[id]) {
      if id in w.readers {
        OwedNext(w, a, id);
      } else {
        JoinerIsOwed(w, id);
      }
    }
  }

  /** Run number run is neither starting nor live, nor ever will be. */
  predicate IsOver(w: World, run: nat) {
    run <= w.runs && run !in w.launching && run !in w.live
  }

  function ExitsOf(exits: seq<Event>, run: nat): nat {
    if exits == [] then 0
    else ExitsOf(exits[..|exits| - 1], run)
         + if exits[|exits| - 1].DriverExited? && exits[|exits| - 1].run == run then 1 else 0
  }

  lemma {:induction false} OverPublishesNothing(w: World, actions: seq<Action>, run: nat)
    requires IsOver(w, run)
    ensures IsOver(After(w, actions), run) && ExitsOf(After(w, actions).exits, run) == ExitsOf(w.exits, run)
    decreases actions
  {
    if actions != [] {
      var next := Next(w, actions[0]);
      assert next.exits == w.exits || next.exits[..|next.exits| - 1] == w.exits;
      OverPublishesNothing(next, actions[1..], run);
    }
  }

  /** A driver that could not be launched never exits, and one that was launched
      exits once: after its exit, or its failed launch, none is published. */
  lemma {:induction false} ExitsAtMostOnce(w: World, a: Action, actions: seq<Action>, run: nat)
    requires run <= w.runs && w.launching !! w.live
    requires (a == Launched(run, false) && run in w.launching) || (a.Exited? && a.run == run && run in w.live)
    ensures ExitsOf(After(Next(w, a), actions).exits, run) == ExitsOf(w.exits, run) + if a.Exited? then 1 else 0
  {
    var next := Next(w, a);
    assert a.Exited? ==> next.exits[..|next.exits| - 1] == w.exits;
    OverPublishesNothing(next, actions, run);
  }

  /** The first run starts the shim for good: a run hook after that does nothing,
      and before it a resume does nothing. */
  lemma {:induction false} RunHookStartsOnce(w: World, ready: bool, actions: seq<Action>)
    requires w.started
    ensures var n := After(w, actions); n.started && Next(n, RunHook(ready)) == n
    ensures Next(BOOTED, ResumeHook) == BOOTED && Next(BOOTED, RunHook(false)) == BOOTED
    decreases actions
  {
    if actions != [] {
      RunHookStartsOnce(Next(w, actions[0]), ready, actions[1..]);
    }
  }

  // ---- whole runs ----------------------------------------------------------

  ghost predicate Fitting(w: World, actions: seq<Action>)
    decreases actions
  {
    actions == [] || (Fits(w, actions[0]) && Fitting(Next(w, actions[0]), actions[1..]))
  }

  ghost predicate Waiting(w: World, actions: seq<Action>)
    decreases actions
  {
    actions == [] || (Waits(w, actions[0]) && Waiting(Next(w, actions[0]), actions[1..]))
  }

  lemma {:induction false} DeliveredAlways(w: World, actions: seq<Action>)
    requires Delivered(w) && Fitting(w, actions)
    ensures Delivered(After(w, actions))
    decreases actions
  {
    if actions != [] {
      DeliveredNext(w, actions[0]);
      DeliveredAlways(Next(w, actions[0]), actions[1..]);
    }
  }

  lemma {:induction false} OrderlyAlways(w: World, actions: seq<Action>)
    requires Orderly(w) && Waiting(w, actions)
    ensures Orderly(After(w, actions))
    decreases actions
  {
    if actions != [] {
      OrderlyNext(w, actions[0]);
      OrderlyAlways(Next(w, actions[0]), actions[1..]);
    }
  }

  /** Over every run in which no channel overflows, a subscriber has been handed
      an unbroken stretch of the exits up to the latest, each once and in order,
      however the hooks were timed. */
  lemma NothingMissedOrRepeated(actions: seq<Action>, id: nat)
    requires Fitting(BOOTED, actions) && id in After(BOOTED, actions).readers
    ensures var w := After(BOOTED, actions);
      id in w.board.subs && HoldsSuffix(w, id)
  {
    DeliveredAlways(BOOTED, actions);
  }

  lemma SuffixIsOwed(exits: seq<Event>, r: Reader, received: seq<Event>)
    requires r.since <= |exits| && received == exits[r.since..] && Ascending(exits)
    requires forall i :: 0 <= i < |exits| ==> (i >= r.since <==> OwedExit(r, exits[i].run))
    ensures forall e :: e in received <==> e in exits && e.DriverExited? && OwedExit(r, e.run)
    ensures Ascending(received)
  {
    forall e | e in exits && e.DriverExited? && OwedExit(r, e.run) ensures e in received {
      var i :| 0 <= i < |exits| && exits[i] == e;
      assert received[i - r.since] == e;
    }
  }

  /** When the hooks also wait for exits, that stretch is exactly the exits the
      subscriber is owed: one for each finished run from the one it joined
      during, none of an earlier run, and a replay is only ever that run's. */
  lemma EveryOwedExitOnce(actions: seq<Action>, id: nat)
    requires Fitting(BOOTED, actions) && Waiting(BOOTED, actions) && id in After(BOOTED, actions).readers
    ensures var w := After(BOOTED, actions); var r := w.readers[id];
      && id in w.board.subs
      && (forall e :: e in Received(w, id) <==> e in w.exits && e.DriverExited? && OwedExit(r, e.run))
      && Ascending(Received(w, id))
      && (r.replay.Some? ==> r.replay.value.DriverExited? && r.replay.value.run == r.birth && !r.late)
  {
    DeliveredAlways(BOOTED, actions);
    OrderlyAlways(BOOTED, actions);
    var w := After(BOOTED, actions);
    SuffixIsOwed(w.exits, w.readers[id], Received(w, id));
  }

  /** A subscriber that joins after a run's exit and before the reset that ends
      the run is handed that exit at once. */
  lemma LateJoinerGetsReplay(actions: seq<Action>)
    requires Waiting(BOOTED, actions)
    ensures var w := After(BOOTED, actions);
      var finished := exists e :: e in w.exits && e.DriverExited? && e.run == w.runs;
      Joining(w).replay.Some? <==> finished && !w.suspended
  {
    OrderlyAlways(BOOTED, actions);
    var w := After(BOOTED, actions);
    if e :| e in w.exits && e.DriverExited? && e.run == w.runs {
      var i :| 0 <= i < |w.exits| && w.exits[i] == e;
      assert i == |w.exits| - 1;
    }
  }

  /** A replay, if there is one, is the exit of the latest run. */
  predicate StickyIsCurrent(w: World) {
    w.board.sticky.Some? ==> w.board.sticky.value.DriverExited? && w.board.sticky.value.run == w.runs
  }

  /** Why the hooks must wait: a step makes the replay stale exactly when it is
      the exit of a run that a later one has overtaken. */
  lemma StaleExactly(w: World, a: Action)
    requires StickyIsCurrent(w)
    ensures !StickyIsCurrent(Next(w, a)) <==> a.Exited? && a.run in w.live && a.run != w.runs
  {
  }

  /** If a run is still live when a later one has begun, its exit becomes the
      replay of the later run. */
  lemma StaleReplay(w: World, run: nat, code: int)
    requires run in w.live && run < w.runs
    ensures var r := Joining(Next(w, Exited(run, code)));
      r.birth == w.runs && r.replay == Some(DriverExited(code, run)) && run < r.birth
  {
  }

  lemma Unfold(w: World, a: Action, rest: seq<Action>)
    ensures After(w, [a] + rest) == After(Next(w, a), rest)
  {
    assert ([a] + rest)[1..] == rest;
  }

  /** And such a state is reached: a resume while the first driver still runs
      hands its exit to whoever joins during the second. */
  lemma ResumeTooEarly(code: int)
    ensures var w := After(BOOTED, [RunHook(true), Launched(1, true), ResumeHook]);
      && 1 in w.live && w.runs == 2 && StickyIsCurrent(w)
      && !StickyIsCurrent(Next(w, Exited(1, code)))
      && Joining(Next(w, Exited(1, code))).replay == Some(DriverExited(code, 1))
  {
    var w1 := Next(BOOTED, RunHook(true));
    var w2 := Next(w1, Launched(1, true));
    var w3 := Next(w2, ResumeHook);
    Unfold(BOOTED, RunHook(true), [Launched(1, true), ResumeHook]);
    Unfold(w1, Launched(1, true), [ResumeHook]);
    Unfold(w2, ResumeHook, []);
    StaleReplay(w3, 1, code);
  }
}
