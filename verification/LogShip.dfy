/** The log shipper: a bounded masked buffer, chunk cutting and head-of-line
    retry. Follows internal/runner/logship/logship.go. */
module LogShip {
  import opened Options
  import opened ByteTries
  import opened Redact

  datatype Chunk = Chunk(version: int, data: Bytes)

  datatype Config = Config(secrets: Secrets, chunkSize: nat, maxPending: nat)

  predicate ValidConfig(cfg: Config) {
    cfg.chunkSize >= 1
  }

  const DefaultChunkSize := 32768
  const DefaultMaxPending := 1048576

  /** The shipper's fields. */
  datatype Ship = Ship(held: Bytes, buf: Bytes, version: int, inflight: Option<Chunk>)

  /** What became of a chunk once cut: `lost` counts the times the server
      stored it but the acknowledgement did not come back. */
  datatype Fate = InFlight | Delivered | Refused
  datatype Entry = Entry(chunk: Chunk, lost: nat, fate: Fate)

  /** The history the claims are about: the masked bytes accepted into the
      buffer, the chunks cut so far, and the server's log. */
  datatype Trail = Trail(accepted: Bytes, entries: seq<Entry>, server: seq<Chunk>)

  datatype World = World(ship: Ship, trail: Trail)

  // ---- what writers may do at any moment -----------------------------------

  datatype WriterOp = Write(p: Bytes) | SetVersion(v: int) | FlushMask

  function Written(cfg: Config, w: World, p: Bytes): World {
    var scanned := Scan(cfg.secrets, w.ship.held + p, false);
    var full := w.ship.buf + scanned.emit;
    if |full| > cfg.maxPending
    then w.(ship := w.ship.(held := scanned.held))
    else w.(ship := w.ship.(held := scanned.held, buf := full),
            trail := w.trail.(accepted := w.trail.accepted + scanned.emit))
  }

  function MaskFlushed(cfg: Config, w: World): World {
    var emit := Masked(cfg.secrets, w.ship.held);
    w.(ship := w.ship.(held := [], buf := w.ship.buf + emit),
       trail := w.trail.(accepted := w.trail.accepted + emit))
  }

  function Wrote(cfg: Config, w: World, op: WriterOp): World {
    match op
    case Write(p) => Written(cfg, w, p)
    case SetVersion(v) => w.(ship := w.ship.(version := v))
    case FlushMask => MaskFlushed(cfg, w)
  }

  function WroteAll(cfg: Config, w: World, ops: seq<WriterOp>): World
    decreases ops
  {
    if ops == [] then w else WroteAll(cfg, Wrote(cfg, w, ops[0]), ops[1..])
  }

  // ---- the sender ----------------------------------------------------------

  /** How one AppendLogChunk ends: acknowledged; stored but the reply lost;
      failed transiently; refused for good. */
  datatype Reply = Ack | AckLost | Transient | Permanent

  /** What happens around one pass of the drain loop: the writers' operations
      before it, whether the context is already done, the reply to its request,
      and whether a retry's sleep runs to its end. */
  datatype Tick = Tick(writes: seq<WriterOp>, done: bool, reply: Reply, slept: bool)

  predicate Cuttable(cfg: Config, s: Ship, partial: bool) {
    s.buf != [] && (partial || |s.buf| >= cfg.chunkSize)
  }

  function CutSize(cfg: Config, s: Ship): nat {
    if |s.buf| < cfg.chunkSize then |s.buf| else cfg.chunkSize
  }

  function Cut(cfg: Config, w: World): World {
    var n := CutSize(cfg, w.ship);
    var c := Chunk(w.ship.version, w.ship.buf[..n]);
    World(w.ship.(buf := w.ship.buf[n..], inflight := Some(c)),
          w.trail.(entries := w.trail.entries + [Entry(c, 0, InFlight)]))
  }

  function Replied(w: World, reply: Reply): World
    requires w.ship.inflight.Some? && w.trail.entries != []
  {
    var last := |w.trail.entries| - 1;
    var e := w.trail.entries[last];
    var stored := if reply.Ack? || reply.AckLost? then w.trail.server + [w.ship.inflight.value] else w.trail.server;
    var e' := match reply
              case Ack => e.(fate := Delivered)
              case AckLost => e.(lost := e.lost + 1)
              case Transient => e
              case Permanent => e.(fate := Refused);
    World(if reply.Ack? || reply.Permanent? then w.ship.(inflight := None) else w.ship,
          w.trail.(entries := w.trail.entries[last := e'], server := stored))
  }

  /** One pass of the loop: cut if nothing is in flight, send, settle. */
  function Pass(cfg: Config, w: World, reply: Reply): World
    requires w.ship.inflight.Some? ==> w.trail.entries != []
  {
    Replied(if w.ship.inflight.None? then Cut(cfg, w) else w, reply)
  }

  /** Whether a pass leaves the allowance: cutting less than a full chunk uses it up. */
  predicate StillPartial(cfg: Config, s: Ship, partial: bool) {
    partial && !(s.inflight.None? && |s.buf| < cfg.chunkSize)
  }

  /** What one pass of the drain loop decides: over, or again with the allowance left. */
  datatype Turned = Over(ok: bool) | Again(partial: bool)

  function TurnOf(cfg: Config, w: World, partial: bool, tick: Tick): (r: (World, Turned))
    requires w.ship.inflight.Some? ==> w.trail.entries != []
    ensures r.0.ship.inflight.Some? ==> r.0.trail.entries != []
  {
    WritersLeaveTheRest(cfg, w, tick.writes);
    var now := WroteAll(cfg, w, tick.writes);
    if tick.done then (now, Over(false))
    else if now.ship.inflight.None? && !Cuttable(cfg, now.ship, partial) then (now, Over(true))
    else
      var sent := Pass(cfg, now, tick.reply);
      if (tick.reply.Transient? || tick.reply.AckLost?) && !tick.slept then (sent, Over(false))
      else (sent, Again(StillPartial(cfg, now.ship, partial)))
  }

  datatype Drained = Drained(world: World, ok: bool)

  function DrainRun(cfg: Config, w: World, partial: bool, ticks: seq<Tick>): Drained
    requires w.ship.inflight.Some? ==> w.trail.entries != []
    decreases ticks
  {
    if ticks == [] then Drained(w, false)
    else
      var (n, turned) := TurnOf(cfg, w, partial, ticks[0]);
      match turned
      case Over(ok) => Drained(n, ok)
      case Again(still) => DrainRun(cfg, n, still, ticks[1..])
  }

  lemma {:induction false} WritersLeaveTheRest(cfg: Config, w: World, ops: seq<WriterOp>)
    ensures var n := WroteAll(cfg, w, ops);
            n.ship.inflight == w.ship.inflight && n.trail.entries == w.trail.entries && n.trail.server == w.trail.server
    decreases ops
  {
    if ops != [] {
      WritersLeaveTheRest(cfg, Wrote(cfg, w, ops[0]), ops[1..]);
    }
  }

  // ---- conservation --------------------------------------------------------

  function CutBytes(es: seq<Entry>): Bytes {
    if es == [] then [] else CutBytes(es[..|es| - 1]) + es[|es| - 1].chunk.data
  }

  function Times(c: Chunk, n: nat): seq<Chunk> {
    seq(n, _ => c)
  }

  /** The server's log the history calls for: each chunk in cut order, once if
      delivered plus once per lost acknowledgement. */
  function ServerLog(es: seq<Entry>): seq<Chunk> {
    if es == [] then []
    else
      var e := es[|es| - 1];
      ServerLog(es[..|es| - 1]) + Times(e.chunk, e.lost + if e.fate.Delivered? then 1 else 0)
  }

  ghost predicate Conserved(cfg: Config, w: World) {
    var es := w.trail.entries;
    && w.trail.accepted == CutBytes(es) + w.ship.buf
    && w.trail.server == ServerLog(es)
    && (forall i :: 0 <= i < |es| ==> 1 <= |es[i].chunk.data| <= cfg.chunkSize)
    && (forall i :: 0 <= i < |es| - 1 ==> !es[i].fate.InFlight?)
    && (w.ship.inflight.Some? ==> es != [] && es[|es| - 1].fate.InFlight? && es[|es| - 1].chunk == w.ship.inflight.value)
    && (w.ship.inflight.None? ==> es == [] || !es[|es| - 1].fate.InFlight?)
  }

  lemma {:induction false} WritersConserve(cfg: Config, w: World, ops: seq<WriterOp>)
    requires Conserved(cfg, w)
    ensures Conserved(cfg, WroteAll(cfg, w, ops))
    decreases ops
  {
    if ops != [] {
      WriterConserves(cfg, w, ops[0]);
      WritersConserve(cfg, Wrote(cfg, w, ops[0]), ops[1..]);
    }
  }

  lemma WriterConserves(cfg: Config, w: World, op: WriterOp)
    requires Conserved(cfg, w)
    ensures Conserved(cfg, Wrote(cfg, w, op))
  {
    var n := Wrote(cfg, w, op);
    var cut := CutBytes(w.trail.entries);
    assert n.trail.accepted == cut + n.ship.buf by {
      match op {
        case Write(p) =>
          var emit := Scan(cfg.secrets, w.ship.held + p, false).emit;
          assert cut + (w.ship.buf + emit) == (cut + w.ship.buf) + emit;
        case FlushMask =>
          var emit := Masked(cfg.secrets, w.ship.held);
          assert cut + (w.ship.buf + emit) == (cut + w.ship.buf) + emit;
        case SetVersion(_) =>
      }
    }
  }

  lemma CutConserves(cfg: Config, w: World)
    requires ValidConfig(cfg) && Conserved(cfg, w) && w.ship.inflight.None? && w.ship.buf != []
    ensures Conserved(cfg, Cut(cfg, w))
  {
    var es, fs := w.trail.entries, Cut(cfg, w).trail.entries;
    var n := CutSize(cfg, w.ship);
    assert fs[..|fs| - 1] == es;
    assert w.ship.buf == w.ship.buf[..n] + w.ship.buf[n..];
    assert CutBytes(es) + (w.ship.buf[..n] + w.ship.buf[n..]) == (CutBytes(es) + w.ship.buf[..n]) + w.ship.buf[n..];
    assert ServerLog(fs) == ServerLog(es);
  }

  lemma ReplyConserves(cfg: Config, w: World, reply: Reply)
    requires Conserved(cfg, w) && w.ship.inflight.Some?
    ensures Conserved(cfg, Replied(w, reply))
  {
    var es, fs := w.trail.entries, Replied(w, reply).trail.entries;
    var last := |es| - 1;
    assert fs[..last] == es[..last];
    var c := es[last].chunk;
    assert Times(c, es[last].lost) + [c] == Times(c, es[last].lost + 1);
    assert ServerLog(es[..last]) + (Times(c, es[last].lost) + [c]) == ServerLog(es) + [c];
  }

  lemma PassConserves(cfg: Config, w: World, reply: Reply)
    requires ValidConfig(cfg) && Conserved(cfg, w)
    requires w.ship.inflight.None? ==> w.ship.buf != []
    ensures Conserved(cfg, Pass(cfg, w, reply))
  {
    if w.ship.inflight.None? {
      CutConserves(cfg, w);
    }
    ReplyConserves(cfg, if w.ship.inflight.None? then Cut(cfg, w) else w, reply);
  }

  lemma {:induction false} DrainConserves(cfg: Config, w: World, partial: bool, ticks: seq<Tick>)
    requires ValidConfig(cfg) && Conserved(cfg, w)
    ensures Conserved(cfg, DrainRun(cfg, w, partial, ticks).world)
    decreases ticks
  {
    if ticks != [] {
      WritersConserve(cfg, w, ticks[0].writes);
      WritersLeaveTheRest(cfg, w, ticks[0].writes);
      var now := WroteAll(cfg, w, ticks[0].writes);
      if !ticks[0].done && (now.ship.inflight.Some? || Cuttable(cfg, now.ship, partial)) {
        PassConserves(cfg, now, ticks[0].reply);
        DrainConserves(cfg, Pass(cfg, now, ticks[0].reply), StillPartial(cfg, now.ship, partial), ticks[1..]);
      }
    }
  }

  /** What a program around the shipper does: write, or drain (Run and Flush),
      drains being serialised by the semaphore. */
  datatype Action = Writers(op: WriterOp) | Drains(partial: bool, ticks: seq<Tick>)

  function Next(cfg: Config, w: World, a: Action): World
    requires w.ship.inflight.Some? ==> w.trail.entries != []
  {
    match a
    case Writers(op) => Wrote(cfg, w, op)
    case Drains(partial, ticks) => DrainRun(cfg, w, partial, ticks).world
  }

  ghost function After(cfg: Config, w: World, acts: seq<Action>): World
    requires ValidConfig(cfg) && Conserved(cfg, w)
    decreases acts
  {
    if acts == [] then w
    else
      StepConserves(cfg, w, acts[0]);
      After(cfg, Next(cfg, w, acts[0]), acts[1..])
  }

  lemma StepConserves(cfg: Config, w: World, a: Action)
    requires ValidConfig(cfg) && Conserved(cfg, w)
    ensures Conserved(cfg, Next(cfg, w, a))
  {
    match a {
      case Writers(op) => WriterConserves(cfg, w, op);
      case Drains(partial, ticks) => DrainConserves(cfg, w, partial, ticks);
    }
  }

  const NewWorld := World(Ship([], [], 0, None), Trail([], [], []))

  /** For every interleaving of writes, version stamps, mask flushes, drains and
      send outcomes: accepted bytes are the cut chunks plus the buffer, and the
      server's log is the cut chunks in order, each once if delivered, again for
      every lost acknowledgement, and missing only if refused or still in flight. */
  lemma {:induction false} NothingIsLostOrReordered(cfg: Config, acts: seq<Action>)
    requires ValidConfig(cfg)
    ensures Conserved(cfg, After(cfg, NewWorld, acts))
  {
    ConservedAfter(cfg, NewWorld, acts);
  }

  lemma {:induction false} ConservedAfter(cfg: Config, w: World, acts: seq<Action>)
    requires ValidConfig(cfg) && Conserved(cfg, w)
    ensures Conserved(cfg, After(cfg, w, acts))
    decreases acts
  {
    if acts != [] {
      StepConserves(cfg, w, acts[0]);
      ConservedAfter(cfg, Next(cfg, w, acts[0]), acts[1..]);
    }
  }

  lemma WriteRespectsCap(cfg: Config, w: World, p: Bytes)
    ensures var before, after := |w.ship.buf|, |Written(cfg, w, p).ship.buf|;
            before <= after && (after == before || after <= cfg.maxPending)
  {
  }

  // ---- a drain that returns true is complete -------------------------------

  function ShortCount(cfg: Config, es: seq<Entry>): nat {
    if es == [] then 0
    else ShortCount(cfg, es[..|es| - 1]) + if |es[|es| - 1].chunk.data| < cfg.chunkSize then 1 else 0
  }

  lemma {:induction false} WritersExtend(cfg: Config, w: World, ops: seq<WriterOp>)
    ensures w.trail.accepted <= WroteAll(cfg, w, ops).trail.accepted
    decreases ops
  {
    if ops != [] {
      WritersExtend(cfg, Wrote(cfg, w, ops[0]), ops[1..]);
    }
  }

  lemma CutExtends(cfg: Config, w: World)
    requires ValidConfig(cfg) && w.ship.buf != []
    ensures var n := Cut(cfg, w);
            && n.trail.accepted == w.trail.accepted && n.ship.buf == w.ship.buf[CutSize(cfg, w.ship)..]
            && CutBytes(w.trail.entries) <= CutBytes(n.trail.entries)
            && ShortCount(cfg, n.trail.entries)
               == ShortCount(cfg, w.trail.entries) + (if |w.ship.buf| < cfg.chunkSize then 1 else 0)
  {
    var es := Cut(cfg, w).trail.entries;
    assert es[..|es| - 1] == w.trail.entries;
  }

  lemma ReplyExtends(cfg: Config, w: World, reply: Reply)
    requires w.ship.inflight.Some? && w.trail.entries != []
    ensures var n := Replied(w, reply);
            && n.trail.accepted == w.trail.accepted && n.ship.buf == w.ship.buf
            && CutBytes(n.trail.entries) == CutBytes(w.trail.entries)
            && ShortCount(cfg, n.trail.entries) == ShortCount(cfg, w.trail.entries)
  {
    var es, fs := w.trail.entries, Replied(w, reply).trail.entries;
    assert fs[..|fs| - 1] == es[..|es| - 1];
  }

  lemma PassExtends(cfg: Config, w: World, reply: Reply)
    requires ValidConfig(cfg) && Conserved(cfg, w)
    requires w.ship.inflight.None? ==> w.ship.buf != []
    ensures var n := Pass(cfg, w, reply);
            var cuts := w.ship.inflight.None?;
            && Conserved(cfg, n)
            && n.trail.accepted == w.trail.accepted
            && CutBytes(w.trail.entries) <= CutBytes(n.trail.entries)
            && n.ship.buf == (if cuts then w.ship.buf[CutSize(cfg, w.ship)..] else w.ship.buf)
            && ShortCount(cfg, n.trail.entries)
               == ShortCount(cfg, w.trail.entries) + (if cuts && |w.ship.buf| < cfg.chunkSize then 1 else 0)
  {
    PassConserves(cfg, w, reply);
    if w.ship.inflight.None? {
      CutExtends(cfg, w);
      ReplyExtends(cfg, Cut(cfg, w), reply);
    } else {
      ReplyExtends(cfg, w, reply);
    }
  }

  /** With `partial`, a drain that returns true has cut every byte accepted at entry. */
  lemma {:induction false} DrainCovers(cfg: Config, w: World, partial: bool, ticks: seq<Tick>)
    requires ValidConfig(cfg) && Conserved(cfg, w)
    requires DrainRun(cfg, w, partial, ticks).ok
    ensures var now := DrainRun(cfg, w, partial, ticks).world;
            && CutBytes(w.trail.entries) <= CutBytes(now.trail.entries)
            && (partial ==> w.trail.accepted <= CutBytes(now.trail.entries))
    decreases ticks
  {
    WritersConserve(cfg, w, ticks[0].writes);
    WritersLeaveTheRest(cfg, w, ticks[0].writes);
    WritersExtend(cfg, w, ticks[0].writes);
    var now := WroteAll(cfg, w, ticks[0].writes);
    if now.ship.inflight.Some? || Cuttable(cfg, now.ship, partial) {
      PassExtends(cfg, now, ticks[0].reply);
      var sent := Pass(cfg, now, ticks[0].reply);
      DrainCovers(cfg, sent, StillPartial(cfg, now.ship, partial), ticks[1..]);
      assert partial && !StillPartial(cfg, now.ship, partial) ==> sent.trail.accepted == CutBytes(sent.trail.entries);
    }
  }

  lemma {:induction false} DrainSettles(cfg: Config, w: World, partial: bool, ticks: seq<Tick>)
    requires ValidConfig(cfg) && Conserved(cfg, w)
    requires DrainRun(cfg, w, partial, ticks).ok
    ensures var now := DrainRun(cfg, w, partial, ticks).world;
            && now.ship.inflight.None? && |now.ship.buf| < cfg.chunkSize
            && ShortCount(cfg, now.trail.entries) <= ShortCount(cfg, w.trail.entries) + (if partial then 1 else 0)
    decreases ticks
  {
    WritersConserve(cfg, w, ticks[0].writes);
    WritersLeaveTheRest(cfg, w, ticks[0].writes);
    var now := WroteAll(cfg, w, ticks[0].writes);
    if now.ship.inflight.Some? || Cuttable(cfg, now.ship, partial) {
      PassExtends(cfg, now, ticks[0].reply);
      DrainSettles(cfg, Pass(cfg, now, ticks[0].reply), StillPartial(cfg, now.ship, partial), ticks[1..]);
    }
  }

  /** When a drain returns true, every chunk ever cut is acknowledged or
      permanently refused; with `partial` that includes every byte buffered at
      entry; less than a chunk is left, and at most one short chunk was newly
      cut, whatever the writers did meanwhile. */
  lemma {:induction false} DrainCompletes(cfg: Config, w: World, partial: bool, ticks: seq<Tick>)
    requires ValidConfig(cfg) && Conserved(cfg, w)
    requires DrainRun(cfg, w, partial, ticks).ok
    ensures var now := DrainRun(cfg, w, partial, ticks).world;
            && (forall i :: 0 <= i < |now.trail.entries| ==> !now.trail.entries[i].fate.InFlight?)
            && (partial ==> w.trail.accepted <= CutBytes(now.trail.entries))
            && |now.ship.buf| < cfg.chunkSize
            && ShortCount(cfg, now.trail.entries) <= ShortCount(cfg, w.trail.entries) + (if partial then 1 else 0)
  {
    DrainConserves(cfg, w, partial, ticks);
    DrainSettles(cfg, w, partial, ticks);
    DrainCovers(cfg, w, partial, ticks);
  }

  // ---- and it terminates ---------------------------------------------------

  /** No writers, no cancellation. */
  predicate Quiet(ticks: seq<Tick>) {
    forall i :: 0 <= i < |ticks| ==> ticks[i].writes == [] && !ticks[i].done && ticks[i].slept
  }

  /** The passes whose request is settled, that is all but the transient failures. */
  function Settling(ticks: seq<Tick>): nat {
    if ticks == [] then 0
    else (if ticks[0].reply.Ack? || ticks[0].reply.Permanent? then 1 else 0) + Settling(ticks[1..])
  }

  /** Without writers, and once at most |buffer| + 1 requests have been settled
      however many failed transiently in between, a partial drain has returned
      true with an empty buffer. */
  lemma {:induction false} QuietDrainTerminates(cfg: Config, w: World, partial: bool, ticks: seq<Tick>)
    requires ValidConfig(cfg) && Conserved(cfg, w) && Quiet(ticks)
    requires Settling(ticks) > |w.ship.buf| + if w.ship.inflight.Some? then 1 else 0
    ensures var end := DrainRun(cfg, w, partial, ticks);
            end.ok && (partial ==> end.world.ship.buf == [])
    decreases ticks
  {
    assert ticks[0].writes == [];
    if w.ship.inflight.Some? || Cuttable(cfg, w.ship, partial) {
      PassExtends(cfg, w, ticks[0].reply);
      var sent := Pass(cfg, w, ticks[0].reply);
      assert Quiet(ticks[1..]);
      var partial' := StillPartial(cfg, w.ship, partial);
      QuietDrainTerminates(cfg, sent, partial', ticks[1..]);
      if partial && !partial' {
        QuietBufferOnlyShrinks(cfg, sent, partial', ticks[1..]);
      }
    }
  }

  lemma {:induction false} QuietBufferOnlyShrinks(cfg: Config, w: World, partial: bool, ticks: seq<Tick>)
    requires ValidConfig(cfg) && Conserved(cfg, w) && Quiet(ticks)
    ensures |DrainRun(cfg, w, partial, ticks).world.ship.buf| <= |w.ship.buf|
    decreases ticks
  {
    if ticks != [] {
      assert ticks[0].writes == [];
      if w.ship.inflight.Some? || Cuttable(cfg, w.ship, partial) {
        PassExtends(cfg, w, ticks[0].reply);
        assert Quiet(ticks[1..]);
        QuietBufferOnlyShrinks(cfg, Pass(cfg, w, ticks[0].reply),
                               StillPartial(cfg, w.ship, partial), ticks[1..]);
      }
    }
  }

  // ---- what each request does ----------------------------------------------

  function CountOf(es: seq<Entry>, fate: Fate): nat {
    if es == [] then 0
    else CountOf(es[..|es| - 1], fate) + if es[|es| - 1].fate == fate then 1 else 0
  }

  /** Whether the pass sends a request: the context is not done and a chunk is in
      flight or may be cut. */
  predicate Sends(cfg: Config, w: World, partial: bool, tick: Tick) {
    var now := WroteAll(cfg, w, tick.writes);
    !tick.done && (now.ship.inflight.Some? || Cuttable(cfg, now.ship, partial))
  }

  lemma ReplyCounts(w: World, reply: Reply, fate: Fate)
    requires w.ship.inflight.Some? && w.trail.entries != []
    requires w.trail.entries[|w.trail.entries| - 1].fate.InFlight? && !fate.InFlight?
    ensures CountOf(Replied(w, reply).trail.entries, fate) == CountOf(w.trail.entries, fate)
      + if (reply.Ack? && fate.Delivered?) || (reply.Permanent? && fate.Refused?) then 1 else 0
  {
    var es, fs := w.trail.entries, Replied(w, reply).trail.entries;
    assert fs[..|fs| - 1] == es[..|es| - 1];
  }

  lemma CutCounts(cfg: Config, w: World, fate: Fate)
    requires !fate.InFlight?
    ensures CountOf(Cut(cfg, w).trail.entries, fate) == CountOf(w.trail.entries, fate)
  {
    var es := Cut(cfg, w).trail.entries;
    assert es[..|es| - 1] == w.trail.entries;
  }

  /** One more of the fate, when the reply is the one that leads to it. */
  function Settled(reply: Reply, fate: Fate): nat {
    if (reply.Ack? && fate.Delivered?) || (reply.Permanent? && fate.Refused?) then 1 else 0
  }

  lemma PassCounts(cfg: Config, w: World, reply: Reply, fate: Fate)
    requires ValidConfig(cfg) && Conserved(cfg, w) && !fate.InFlight? && (w.ship.inflight.None? ==> w.ship.buf != [])
    ensures CountOf(Pass(cfg, w, reply).trail.entries, fate) == CountOf(w.trail.entries, fate) + Settled(reply, fate)
  {
    if w.ship.inflight.None? {
      CutConserves(cfg, w);
      CutCounts(cfg, w, fate);
      ReplyCounts(Cut(cfg, w), reply, fate);
    } else {
      ReplyCounts(w, reply, fate);
    }
  }

  /** A pass is the writers' turns and then, when something may be sent, one request. */
  lemma TurnIsPass(cfg: Config, w: World, partial: bool, tick: Tick)
    requires ValidConfig(cfg) && Conserved(cfg, w)
    ensures var now := WroteAll(cfg, w, tick.writes);
            && Conserved(cfg, now) && now.trail.entries == w.trail.entries
            && TurnOf(cfg, w, partial, tick).0 == if Sends(cfg, w, partial, tick) then Pass(cfg, now, tick.reply) else now
  {
    WritersConserve(cfg, w, tick.writes);
    WritersLeaveTheRest(cfg, w, tick.writes);
  }

  /** A chunk is delivered by an acknowledgement and given up by a permanent
      refusal, and by nothing else. */
  lemma EachReplySettlesItsChunk(cfg: Config, w: World, partial: bool, tick: Tick, fate: Fate)
    requires ValidConfig(cfg) && Conserved(cfg, w) && !fate.InFlight?
    ensures CountOf(TurnOf(cfg, w, partial, tick).0.trail.entries, fate)
         == CountOf(w.trail.entries, fate) + if Sends(cfg, w, partial, tick) then Settled(tick.reply, fate) else 0
  {
    TurnIsPass(cfg, w, partial, tick);
    if Sends(cfg, w, partial, tick) {
      PassCounts(cfg, WroteAll(cfg, w, tick.writes), tick.reply, fate);
    }
  }

  /** After any other reply the same chunk is in flight, to be sent again before
      anything newer; without a request only the writers have changed anything. */
  lemma OtherRepliesRetry(cfg: Config, w: World, partial: bool, tick: Tick)
    requires ValidConfig(cfg) && Conserved(cfg, w)
    ensures var now, n := WroteAll(cfg, w, tick.writes), TurnOf(cfg, w, partial, tick).0;
            var head := if now.ship.inflight.Some? then now.ship.inflight else Cut(cfg, now).ship.inflight;
            if Sends(cfg, w, partial, tick)
            then tick.reply in {AckLost, Transient} ==> n.ship.inflight == head
            else n == now
  {
    TurnIsPass(cfg, w, partial, tick);
  }

  /** A pass ends the drain in success exactly when nothing may be sent, and in
      failure exactly when the context ends, before the request or in the sleep
      that a retry waits for. */
  lemma PassEndsExactly(cfg: Config, w: World, partial: bool, tick: Tick)
    requires ValidConfig(cfg) && Conserved(cfg, w)
    ensures var turned, sends := TurnOf(cfg, w, partial, tick).1, Sends(cfg, w, partial, tick);
            && (turned == Over(true) <==> !tick.done && !sends)
            && (turned == Over(false) <==> tick.done || (sends && !tick.slept && tick.reply in {AckLost, Transient}))
  {
    WritersLeaveTheRest(cfg, w, tick.writes);
  }

  predicate NeverPermanent(ticks: seq<Tick>) {
    forall i :: 0 <= i < |ticks| ==> !ticks[i].reply.Permanent?
  }

  /** Without a permanent refusal no chunk is given up, however long the drain
      retries: every chunk cut is delivered or still in flight. */
  lemma {:induction false} OnlyPermanentRefuses(cfg: Config, w: World, partial: bool, ticks: seq<Tick>)
    requires ValidConfig(cfg) && Conserved(cfg, w) && NeverPermanent(ticks)
    ensures CountOf(DrainRun(cfg, w, partial, ticks).world.trail.entries, Refused) == CountOf(w.trail.entries, Refused)
    decreases ticks
  {
    if ticks != [] {
      EachReplySettlesItsChunk(cfg, w, partial, ticks[0], Refused);
      OneTurn(cfg, w, partial, ticks[0]);
      var (n, turned) := TurnOf(cfg, w, partial, ticks[0]);
      if turned.Again? {
        OnlyPermanentRefuses(cfg, n, turned.partial, ticks[1..]);
      }
    }
  }

  lemma OneTurn(cfg: Config, w: World, partial: bool, tick: Tick)
    requires ValidConfig(cfg) && Conserved(cfg, w)
    ensures Conserved(cfg, TurnOf(cfg, w, partial, tick).0)
  {
    TurnIsPass(cfg, w, partial, tick);
    if Sends(cfg, w, partial, tick) {
      PassConserves(cfg, WroteAll(cfg, w, tick.writes), tick.reply);
    }
  }

  // ---- versions ------------------------------------------------------------

  predicate NeverStamps(ops: seq<WriterOp>) {
    forall i :: 0 <= i < |ops| ==> !ops[i].SetVersion?
  }

  lemma {:induction false} VersionStays(cfg: Config, w: World, ops: seq<WriterOp>)
    requires NeverStamps(ops)
    ensures WroteAll(cfg, w, ops).ship.version == w.ship.version
    decreases ops
  {
    if ops != [] {
      VersionStays(cfg, Wrote(cfg, w, ops[0]), ops[1..]);
    }
  }

  /** A stamp is what chunks carry from then on, and no earlier chunk. */
  lemma {:induction false} ChunksCarryTheStamp(cfg: Config, w: World, v: int, partial: bool, ticks: seq<Tick>)
    requires ValidConfig(cfg) && Conserved(cfg, w)
    requires forall i :: 0 <= i < |ticks| ==> NeverStamps(ticks[i].writes)
    ensures var stamped := Wrote(cfg, w, SetVersion(v));
            Carries(w.trail.entries, DrainRun(cfg, stamped, partial, ticks).world.trail.entries, v)
  {
    DrainCarries(cfg, Wrote(cfg, w, SetVersion(v)), partial, ticks);
  }

  /** es is before, the last of it perhaps settled, and chunks stamped v. */
  predicate Carries(before: seq<Entry>, es: seq<Entry>, v: int) {
    && |before| <= |es|
    && (forall i :: 0 <= i < |before| ==> es[i].chunk == before[i].chunk)
    && (forall i :: |before| <= i < |es| ==> es[i].chunk.version == v)
  }

  lemma TurnCarries(cfg: Config, w: World, partial: bool, tick: Tick)
    requires ValidConfig(cfg) && Conserved(cfg, w) && NeverStamps(tick.writes)
    ensures var n := TurnOf(cfg, w, partial, tick).0;
            n.ship.version == w.ship.version && Carries(w.trail.entries, n.trail.entries, w.ship.version)
  {
    VersionStays(cfg, w, tick.writes);
    WritersLeaveTheRest(cfg, w, tick.writes);
  }

  lemma {:induction false} DrainCarries(cfg: Config, w: World, partial: bool, ticks: seq<Tick>)
    requires ValidConfig(cfg) && Conserved(cfg, w)
    requires forall i :: 0 <= i < |ticks| ==> NeverStamps(ticks[i].writes)
    ensures Carries(w.trail.entries, DrainRun(cfg, w, partial, ticks).world.trail.entries, w.ship.version)
    decreases ticks
  {
    if ticks != [] {
      TurnCarries(cfg, w, partial, ticks[0]);
      OneTurn(cfg, w, partial, ticks[0]);
      var (n, turned) := TurnOf(cfg, w, partial, ticks[0]);
      if turned.Again? {
        DrainCarries(cfg, n, turned.partial, ticks[1..]);
      }
    }
  }

  // ---- from the writes to the server ---------------------------------------

  /** A write is kept whole when it fits and dropped whole when it does not;
      either way the mask has seen it. */
  lemma WriteIsWhole(cfg: Config, w: World, p: Bytes)
    ensures var scanned, n := Scan(cfg.secrets, w.ship.held + p, false), Written(cfg, w, p);
            var kept := if |w.ship.buf| + |scanned.emit| <= cfg.maxPending then scanned.emit else [];
            n.ship.buf == w.ship.buf + kept && n.trail.accepted == w.trail.accepted + kept && n.ship.held == scanned.held
  {
  }

  function Writes(ps: seq<Bytes>): (ops: seq<WriterOp>)
    ensures |ops| == |ps| && forall i :: 0 <= i < |ps| ==> ops[i] == Write(ps[i])
  {
    seq(|ps|, i requires 0 <= i < |ps| => Write(ps[i]))
  }

  /** Dropped writes cost nothing but themselves: the mask is where the whole
      stream leaves it. */
  lemma {:induction false} MaskStaysInStep(cfg: Config, w: World, ps: seq<Bytes>)
    ensures WroteAll(cfg, w, Writes(ps)).ship.held == Fed(cfg.secrets, w.ship.held, ps).held
    decreases ps
  {
    if ps != [] {
      assert Writes(ps)[1..] == Writes(ps[1..]);
      MaskStaysInStep(cfg, Written(cfg, w, ps[0]), ps[1..]);
    }
  }

  /** Writes that fit the cap together are all accepted. */
  lemma {:induction false} FittingWritesAreKept(cfg: Config, w: World, ps: seq<Bytes>)
    requires |w.ship.buf| + |Fed(cfg.secrets, w.ship.held, ps).emit| <= cfg.maxPending
    ensures var n := WroteAll(cfg, w, Writes(ps));
            var fed := Fed(cfg.secrets, w.ship.held, ps);
            n == w.(ship := w.ship.(held := fed.held, buf := w.ship.buf + fed.emit),
                    trail := w.trail.(accepted := w.trail.accepted + fed.emit))
    decreases ps
  {
    if ps == [] {
      assert w.ship.buf + [] == w.ship.buf && w.trail.accepted + [] == w.trail.accepted;
    } else {
      assert Writes(ps)[1..] == Writes(ps[1..]);
      var now := Scan(cfg.secrets, w.ship.held + ps[0], false);
      var rest := Fed(cfg.secrets, now.held, ps[1..]).emit;
      FittingWritesAreKept(cfg, Written(cfg, w, ps[0]), ps[1..]);
      Regrouped(w.ship.buf, now.emit, rest);
      Regrouped(w.trail.accepted, now.emit, rest);
    }
  }

  function DataOf(chunks: seq<Chunk>): Bytes {
    if chunks == [] then [] else DataOf(chunks[..|chunks| - 1]) + chunks[|chunks| - 1].data
  }

  predicate NeverLost(ticks: seq<Tick>) {
    forall i :: 0 <= i < |ticks| ==> !ticks[i].reply.AckLost?
  }

  /** Every entry delivered, once. */
  predicate DeliveredOnce(es: seq<Entry>) {
    forall i :: 0 <= i < |es| ==> es[i].fate.Delivered? && es[i].lost == 0
  }

  lemma {:induction false} DeliveredData(es: seq<Entry>)
    requires DeliveredOnce(es)
    ensures DataOf(ServerLog(es)) == CutBytes(es)
  {
    if es != [] {
      var n := |es| - 1;
      DeliveredData(es[..n]);
      assert ServerLog(es) == ServerLog(es[..n]) + [es[n].chunk];
      assert ServerLog(es)[..|ServerLog(es)| - 1] == ServerLog(es[..n]);
    }
  }

  /** Every entry but the one in flight has been delivered, none twice. */
  predicate CleanSoFar(w: World) {
    forall i :: 0 <= i < |w.trail.entries| ==> !w.trail.entries[i].fate.Refused? && w.trail.entries[i].lost == 0
  }

  lemma {:induction false} DrainStaysClean(cfg: Config, w: World, partial: bool, ticks: seq<Tick>)
    requires ValidConfig(cfg) && Conserved(cfg, w) && CleanSoFar(w)
    requires Quiet(ticks) && NeverPermanent(ticks) && NeverLost(ticks)
    ensures var now := DrainRun(cfg, w, partial, ticks).world;
            CleanSoFar(now) && now.trail.accepted == w.trail.accepted
    decreases ticks
  {
    if ticks != [] {
      assert ticks[0].writes == [];
      OneTurn(cfg, w, partial, ticks[0]);
      var (n, turned) := TurnOf(cfg, w, partial, ticks[0]);
      if turned.Again? {
        assert Quiet(ticks[1..]) && NeverPermanent(ticks[1..]) && NeverLost(ticks[1..]);
        DrainStaysClean(cfg, n, turned.partial, ticks[1..]);
      }
    }
  }

  /** From the first write to the server: a stream written in any pieces that fit
      the cap, then flushed past any number of transient failures, reaches the
      server as exactly its mask, in order and once. */
  lemma {:induction false} FlushShipsTheMaskedStream(cfg: Config, ps: seq<Bytes>, ticks: seq<Tick>)
    requires ValidConfig(cfg) && |Fed(cfg.secrets, [], ps).emit| <= cfg.maxPending
    requires Quiet(ticks) && NeverPermanent(ticks) && NeverLost(ticks)
    requires Settling(ticks) > |Masked(cfg.secrets, Joined(ps))|
    ensures var flushed := MaskFlushed(cfg, WroteAll(cfg, NewWorld, Writes(ps)));
            flushed.ship.inflight.None?
            && var end := DrainRun(cfg, flushed, true, ticks);
               end.ok && DataOf(end.world.trail.server) == Masked(cfg.secrets, Joined(ps))
  {
    var written := WroteAll(cfg, NewWorld, Writes(ps));
    var flushed := MaskFlushed(cfg, written);
    FittingWritesAreKept(cfg, NewWorld, ps);
    ChoppingIsInvisible(cfg.secrets, [], ps);
    assert [] + Joined(ps) == Joined(ps);
    assert flushed.ship.buf == flushed.trail.accepted == Masked(cfg.secrets, Joined(ps)) by {
      assert [] + Fed(cfg.secrets, [], ps).emit == Fed(cfg.secrets, [], ps).emit;
    }
    assert Conserved(cfg, flushed) by {
      assert [] + flushed.ship.buf == flushed.ship.buf;
    }
    QuietDrainTerminates(cfg, flushed, true, ticks);
    DrainStaysClean(cfg, flushed, true, ticks);
    DrainCompletes(cfg, flushed, true, ticks);
    DrainConserves(cfg, flushed, true, ticks);
    var end := DrainRun(cfg, flushed, true, ticks).world;
    assert end.trail.accepted == CutBytes(end.trail.entries) + end.ship.buf;
    DeliveredData(end.trail.entries);
  }

  // ---- the shipper as the driver uses it -----------------------------------

  class Shipper {
    const chunkSize: nat
    const maxPending: nat
    const mask: Writer
    var version: int
    var buf: Bytes
    var inflight: Option<Chunk>
    ghost var trail: Trail

    ghost function Cfg(): Config {
      Config(mask.secrets, chunkSize, maxPending)
    }

    ghost function View(): World
      reads this, mask
    {
      World(Ship(mask.held, buf, version, inflight), trail)
    }

    ghost predicate Valid()
      reads this, mask, mask.markers
    {
      mask.Valid() && ValidConfig(Cfg()) && Conserved(Cfg(), View())
    }

    /** Zero tunables take their defaults; names are the secrets' in lexical order. */
    constructor (names: seq<Bytes>, values: map<Bytes, Bytes>, chunkSize: nat, maxPending: nat)
      requires forall name :: name in names ==> name in values
      ensures Valid() && fresh(mask) && fresh(mask.markers) && View() == NewWorld
      ensures Cfg() == Config(Masks(names, values), if chunkSize == 0 then DefaultChunkSize else chunkSize,
                              if maxPending == 0 then DefaultMaxPending else maxPending)
    {
      this.chunkSize := if chunkSize == 0 then DefaultChunkSize else chunkSize;
      this.maxPending := if maxPending == 0 then DefaultMaxPending else maxPending;
      mask := new Writer(names, values);
      version, buf, inflight := 0, [], None;
      trail := Trail([], [], []);
    }

    method SetVersion(v: int)
      requires Valid()
      modifies this
      ensures Valid() && View() == Wrote(Cfg(), old(View()), WriterOp.SetVersion(v))
    {
      version := v;
    }

    /** Buffers the masked bytes, or drops them all past the cap; `full` says a chunk's worth is ready. */
    method Write(p: Bytes) returns (full: bool)
      requires Valid()
      modifies this, mask
      ensures Valid() && View() == Wrote(Cfg(), old(View()), WriterOp.Write(p))
      ensures full == (|buf| >= chunkSize)
    {
      WriterConserves(Cfg(), View(), WriterOp.Write(p));
      var before := |buf|;
      var emit := mask.Write(p);
      buf := buf + emit;
      if |buf| > maxPending {
        buf := buf[..before];
      } else {
        trail := trail.(accepted := trail.accepted + emit);
      }
      full := |buf| >= chunkSize;
    }

    method FlushMask()
      requires Valid()
      modifies this, mask
      ensures Valid() && View() == Wrote(Cfg(), old(View()), WriterOp.FlushMask)
    {
      WriterConserves(Cfg(), View(), WriterOp.FlushMask);
      var emit := mask.Flush();
      buf := buf + emit;
      trail := trail.(accepted := trail.accepted + emit);
    }

    /** The other goroutines' turns, in order. */
    method LetWriters(ops: seq<WriterOp>)
      requires Valid()
      modifies this, mask
      ensures Valid() && View() == WroteAll(Cfg(), old(View()), ops)
    {
      var i := 0;
      assert ops[0..] == ops;
      while i < |ops|
        invariant 0 <= i <= |ops| && Valid()
        invariant WroteAll(Cfg(), View(), ops[i..]) == WroteAll(Cfg(), old(View()), ops)
      {
        assert ops[i..][0] == ops[i] && ops[i..][1..] == ops[i + 1..];
        match ops[i] {
          case Write(p) => var _ := Write(p);
          case SetVersion(v) => SetVersion(v);
          case FlushMask => FlushMask();
        }
        i := i + 1;
      }
    }

    /** Takes up to a chunk off the front of the buffer to deliver next, or nothing. */
    method CutNext(partial: bool) returns (n: nat)
      requires Valid() && inflight.None?
      modifies this`buf, this`trail, this`inflight
      ensures Valid()
      ensures n == if Cuttable(Cfg(), old(View()).ship, partial) then CutSize(Cfg(), old(View()).ship) else 0
      ensures View() == if n == 0 then old(View()) else Cut(Cfg(), old(View()))
    {
      if |buf| == 0 || (|buf| < chunkSize && !partial) {
        return 0;
      }
      CutConserves(Cfg(), View());
      n := if |buf| < chunkSize then |buf| else chunkSize;
      inflight := Some(Chunk(version, buf[..n]));
      trail := trail.(entries := trail.entries + [Entry(inflight.value, 0, InFlight)]);
      buf := buf[n..];
    }

    /** One request for the chunk in flight, which a transient failure leaves in flight. */
    method Send(reply: Reply)
      requires Valid() && inflight.Some?
      modifies this`inflight, this`trail
      ensures Valid() && View() == Replied(old(View()), reply)
    {
      ReplyConserves(Cfg(), View(), reply);
      trail := Replied(View(), reply).trail;
      if reply.Ack? || reply.Permanent? {
        inflight := None;
      }
    }

    /** One pass of the drain loop: nothing when the drain is over, else whether a short chunk is still allowed. */
    method Turn(partial: bool, tick: Tick) returns (r: Turned)
      requires Valid()
      modifies this, mask
      ensures Valid() && (View(), r) == TurnOf(Cfg(), old(View()), partial, tick)
    {
      LetWriters(tick.writes);
      if tick.done {
        return Over(false);
      }
      var still := partial;
      if inflight.None? {
        var n := CutNext(partial);
        if n == 0 {
          return Over(true);
        }
        if n < chunkSize {
          still := false;
        }
      }
      Send(tick.reply);
      if (tick.reply.Transient? || tick.reply.AckLost?) && !tick.slept {
        return Over(false);
      }
      return Again(still);
    }

    /** Cuts and sends until nothing may be cut or the context is done. */
    method Drain(partialAtEntry: bool, ticks: seq<Tick>) returns (ok: bool)
      requires Valid()
      modifies this, mask
      ensures Valid()
      ensures Drained(View(), ok) == DrainRun(Cfg(), old(View()), partialAtEntry, ticks)
    {
      var partial := partialAtEntry;
      var i := 0;
      assert ticks[0..] == ticks;
      while i < |ticks|
        invariant 0 <= i <= |ticks| && Valid()
        invariant DrainRun(Cfg(), View(), partial, ticks[i..]) == DrainRun(Cfg(), old(View()), partialAtEntry, ticks)
      {
        assert ticks[i..][1..] == ticks[i + 1..];
        var turned := Turn(partial, ticks[i]);
        if turned.Over? {
          return turned.ok;
        }
        partial := turned.partial;
        i := i + 1;
      }
      ok := false;
    }

    /** Sends everything buffered, the mask's tail included; false only when the context expired first. */
    method Flush(ticks: seq<Tick>) returns (ok: bool)
      requires Valid()
      modifies this, mask
      ensures Valid()
      ensures Drained(View(), ok) == DrainRun(Cfg(), MaskFlushed(Cfg(), old(View())), true, ticks)
    {
      FlushMask();
      ok := Drain(true, ticks);
    }
  }
}
