/** Streaming secret masking over a byte trie. Follows internal/x/redact/redact.go. */
module Redact {
  import opened ByteTries
  import opened Options

  /** Secret values and the markers that replace them; no value is empty. */
  type Secrets = m: map<Bytes, Bytes> | [] !in m

  /** "[gritz:masked " in bytes. */
  const MARKER_OPENING: Bytes := [91, 103, 114, 105, 116, 122, 58, 109, 97, 115, 107, 101, 100, 32]

  const MARKER_CLOSING: byte := 93

  function Marker(name: Bytes): Bytes {
    MARKER_OPENING + name + [MARKER_CLOSING]
  }

  /** What is shown for a secret is "[gritz:masked <name>]", and tells names apart. */
  lemma MarkerNamesSecret(name: Bytes, other: Bytes)
    ensures |MARKER_OPENING| == |"[gritz:masked "|
    ensures forall i :: 0 <= i < |MARKER_OPENING| ==> MARKER_OPENING[i] as int == "[gritz:masked "[i] as int
    ensures MARKER_OPENING <= Marker(name) && Marker(name)[|MARKER_OPENING|..] == name + [']' as int as byte]
    ensures Marker(name) == Marker(other) ==> name == other
  {
    assert Marker(name)[|MARKER_OPENING|..][..|Marker(name)| - |MARKER_OPENING| - 1] == name;
    assert Marker(other)[|MARKER_OPENING|..][..|Marker(other)| - |MARKER_OPENING| - 1] == other;
  }

  /** The values of the named secrets and their markers: empty values are
      dropped, and of two names with one value the earlier stands. */
  function Masks(names: seq<Bytes>, values: map<Bytes, Bytes>): Secrets
    requires forall name :: name in names ==> name in values
  {
    if names == [] then map[]
    else
      var rest := Masks(names[1..], values);
      var value := values[names[0]];
      if value == [] then rest else rest[value := Marker(names[0])]
  }

  predicate FirstWith(names: seq<Bytes>, values: map<Bytes, Bytes>, value: Bytes, i: nat)
    requires forall name :: name in names ==> name in values
  {
    i < |names| && values[names[i]] == value && forall j :: 0 <= j < i ==> values[names[j]] != value
  }

  /** Which values are masked, and by whose marker. */
  lemma {:induction false} FirstNameStands(names: seq<Bytes>, values: map<Bytes, Bytes>, value: Bytes)
    requires forall name :: name in names ==> name in values
    ensures value in Masks(names, values) <==> value != [] && exists i :: 0 <= i < |names| && values[names[i]] == value
    ensures forall i: nat :: value != [] && FirstWith(names, values, value, i) ==>
              value in Masks(names, values) && Masks(names, values)[value] == Marker(names[i])
  {
    if names != [] {
      var rest := names[1..];
      FirstNameStands(rest, values, value);
      assert forall i :: 0 < i < |names| ==> names[i] == rest[i - 1];
      assert forall i :: 0 <= i < |rest| ==> rest[i] == names[i + 1];
      forall i: nat | value != [] && FirstWith(names, values, value, i)
        ensures value in Masks(names, values) && Masks(names, values)[value] == Marker(names[i])
      {
        assert i > 0 ==> FirstWith(rest, values, value, i - 1) && values[names[0]] != value;
      }
    }
  }

  /** The length of the longest secret that is a prefix of p, at most `upTo`. */
  function LongestUpTo(secrets: Secrets, p: Bytes, upTo: nat): (n: nat)
    requires upTo <= |p|
    ensures n <= upTo
    ensures n > 0 ==> p[..n] in secrets
    ensures forall k :: n < k <= upTo ==> p[..k] !in secrets
  {
    if upTo == 0 then 0
    else if p[..upTo] in secrets then upTo
    else LongestUpTo(secrets, p, upTo - 1)
  }

  function Longest(secrets: Secrets, p: Bytes): (n: nat)
    ensures n <= |p|
  {
    LongestUpTo(secrets, p, |p|)
  }

  /** Some secret starts with p and runs past its end. */
  predicate Partial(secrets: Secrets, p: Bytes) {
    exists k :: k in secrets && p < k
  }

  datatype Scanned = Scanned(emit: Bytes, held: Bytes)

  /** How many bytes the scan decides on at the front of buf, and what they become. */
  function Taken(secrets: Secrets, buf: Bytes): (n: nat)
    requires buf != []
    ensures 1 <= n <= |buf|
  {
    if Longest(secrets, buf) == 0 then 1 else Longest(secrets, buf)
  }

  function Emitted(secrets: Secrets, buf: Bytes): Bytes
    requires buf != []
  {
    var n := Longest(secrets, buf);
    if n == 0 then [buf[0]] else secrets[buf[..n]]
  }

  /** One pass over the bytes in hand: what goes out and what is held back. */
  function Scan(secrets: Secrets, buf: Bytes, final: bool): Scanned
    decreases |buf|
  {
    if buf == [] || (Partial(secrets, buf) && !final) then Scanned([], buf)
    else
      var rest := Scan(secrets, buf[Taken(secrets, buf)..], final);
      Scanned(Emitted(secrets, buf) + rest.emit, rest.held)
  }

  /** The whole stream masked at once: leftmost-longest. */
  function Masked(secrets: Secrets, s: Bytes): Bytes {
    Scan(secrets, s, true).emit
  }

  // ---- an independent reading of leftmost-longest --------------------------

  /** A stream cut into literal bytes and secrets. */
  datatype Piece = Literal(b: byte) | Secret(value: Bytes)

  function RawOf(p: Piece): Bytes {
    match p case Literal(b) => [b] case Secret(v) => v
  }

  function Raw(ps: seq<Piece>): Bytes {
    if ps == [] then [] else RawOf(ps[0]) + Raw(ps[1..])
  }

  function Shown(secrets: Secrets, ps: seq<Piece>): Bytes
    requires forall i :: 0 <= i < |ps| && ps[i].Secret? ==> ps[i].value in secrets
  {
    if ps == [] then []
    else (match ps[0] case Literal(b) => [b] case Secret(v) => secrets[v]) + Shown(secrets, ps[1..])
  }

  /** Every literal byte starts no secret, and every secret is the longest that starts where it does. */
  ghost predicate LeftmostLongest(secrets: Secrets, ps: seq<Piece>) {
    ps == [] ||
    (&& (match ps[0]
         case Literal(_) => forall k :: k in secrets ==> !(k <= Raw(ps))
         case Secret(v) => v in secrets && forall k :: k in secrets && k <= Raw(ps) ==> |k| <= |v|)
     && LeftmostLongest(secrets, ps[1..]))
  }

  lemma {:induction false} PiecesAreSecrets(secrets: Secrets, ps: seq<Piece>)
    requires LeftmostLongest(secrets, ps)
    ensures forall i :: 0 <= i < |ps| && ps[i].Secret? ==> ps[i].value in secrets
  {
    if ps != [] {
      PiecesAreSecrets(secrets, ps[1..]);
    }
  }

  lemma LongestIsLongest(secrets: Secrets, p: Bytes)
    ensures forall k :: k in secrets && k <= p ==> |k| <= Longest(secrets, p)
  {
    forall k | k in secrets && k <= p
      ensures |k| <= Longest(secrets, p)
    {
      assert p[..|k|] == k;
    }
  }

  /** Any leftmost-longest cutting of a stream shows exactly what Masked emits. */
  lemma {:induction false} MaskedIsLeftmostLongest(secrets: Secrets, ps: seq<Piece>)
    requires LeftmostLongest(secrets, ps)
    requires forall i :: 0 <= i < |ps| && ps[i].Secret? ==> ps[i].value in secrets
    ensures Masked(secrets, Raw(ps)) == Shown(secrets, ps)
  {
    if ps != [] {
      var s := Raw(ps);
      LongestIsLongest(secrets, s);
      MaskedIsLeftmostLongest(secrets, ps[1..]);
      match ps[0] {
        case Literal(b) =>
          assert Longest(secrets, s) == 0 by {
            assert s[..Longest(secrets, s)] <= s;
          }
          assert s[1..] == Raw(ps[1..]);
        case Secret(v) =>
          var n := Longest(secrets, s);
          assert v <= s && |v| <= n;
          assert s[..n] <= s;
          assert n == |v| && s[..n] == v;
          assert s[n..] == Raw(ps[1..]);
      }
    }
  }

  function PieceAt(secrets: Secrets, s: Bytes): Piece
    requires s != []
  {
    var n := Longest(secrets, s);
    if n == 0 then Literal(s[0]) else Secret(s[..n])
  }

  lemma PieceIsFront(secrets: Secrets, s: Bytes)
    requires s != []
    ensures RawOf(PieceAt(secrets, s)) == s[..Taken(secrets, s)]
  {
  }

  ghost function Pieces(secrets: Secrets, s: Bytes): seq<Piece>
    decreases |s|
  {
    if s == [] then [] else [PieceAt(secrets, s)] + Pieces(secrets, s[Taken(secrets, s)..])
  }

  lemma RawCons(p: Piece, ps: seq<Piece>)
    ensures Raw([p] + ps) == RawOf(p) + Raw(ps)
  {
    assert ([p] + ps)[1..] == ps;
  }

  lemma {:induction false} PiecesJoinUp(secrets: Secrets, s: Bytes)
    ensures Raw(Pieces(secrets, s)) == s
    decreases |s|
  {
    if s != [] {
      var rest := s[Taken(secrets, s)..];
      PiecesJoinUp(secrets, rest);
      RawCons(PieceAt(secrets, s), Pieces(secrets, rest));
      PieceIsFront(secrets, s);
    }
  }

  lemma FirstPieceIsLongest(secrets: Secrets, s: Bytes)
    requires s != []
    ensures var n := Longest(secrets, s);
            if n == 0 then forall k :: k in secrets ==> !(k <= s)
            else s[..n] in secrets && forall k :: k in secrets && k <= s ==> |k| <= n
  {
    LongestIsLongest(secrets, s);
    forall k | k in secrets && k <= s
      ensures 0 < |k| <= Longest(secrets, s)
    {
      assert k != [];
    }
  }

  /** Every stream has such a cutting, so Masked is determined by it alone. */
  lemma {:induction false} EveryStreamIsCut(secrets: Secrets, s: Bytes)
    ensures Raw(Pieces(secrets, s)) == s && LeftmostLongest(secrets, Pieces(secrets, s))
    decreases |s|
  {
    PiecesJoinUp(secrets, s);
    if s != [] {
      var rest := s[Taken(secrets, s)..];
      EveryStreamIsCut(secrets, rest);
      FirstPieceIsLongest(secrets, s);
      assert Pieces(secrets, s)[1..] == Pieces(secrets, rest);
    }
  }

  // ---- one stream, one masking, in whatever pieces it is written ------------

  lemma LongestSettled(secrets: Secrets, buf: Bytes, more: Bytes)
    requires !Partial(secrets, buf)
    ensures Longest(secrets, buf + more) == Longest(secrets, buf)
  {
    var all := buf + more;
    var n, m := Longest(secrets, buf), Longest(secrets, all);
    assert m <= |buf|;
    assert buf[..m] == all[..m];
    assert all[..n] == buf[..n];
  }

  lemma FrontSettled(secrets: Secrets, buf: Bytes, more: Bytes)
    requires buf != [] && !Partial(secrets, buf)
    ensures Taken(secrets, buf + more) == Taken(secrets, buf)
    ensures Emitted(secrets, buf + more) == Emitted(secrets, buf)
    ensures (buf + more)[Taken(secrets, buf)..] == buf[Taken(secrets, buf)..] + more
  {
    LongestSettled(secrets, buf, more);
    var n := Longest(secrets, buf);
    assert (buf + more)[..n] == buf[..n];
  }

  /** What a write emits and holds determines the rest, whatever arrives later. */
  lemma {:induction false} HeldCarriesOn(secrets: Secrets, buf: Bytes, more: Bytes)
    ensures var now := Scan(secrets, buf, false);
            Masked(secrets, buf + more) == now.emit + Masked(secrets, now.held + more)
    decreases |buf|
  {
    if buf == [] || Partial(secrets, buf) {
      NothingBefore(Masked(secrets, buf + more));
    } else {
      FrontSettled(secrets, buf, more);
      var rest := buf[Taken(secrets, buf)..];
      HeldCarriesOn(secrets, rest, more);
      var now := Scan(secrets, rest, false);
      MaskedGoesOn(secrets, buf + more);
      Regrouped(Emitted(secrets, buf), now.emit, Masked(secrets, now.held + more));
    }
  }

  lemma MaskedGoesOn(secrets: Secrets, s: Bytes)
    requires s != []
    ensures Masked(secrets, s) == Emitted(secrets, s) + Masked(secrets, s[Taken(secrets, s)..])
  {
  }

  lemma NothingBefore(s: Bytes)
    ensures [] + s == s
  {
  }

  /** Feeding the writes one after another, starting with `held` held back. */
  function Fed(secrets: Secrets, held: Bytes, writes: seq<Bytes>): Scanned
    decreases |writes|
  {
    if writes == [] then Scanned([], held)
    else
      var now := Scan(secrets, held + writes[0], false);
      var rest := Fed(secrets, now.held, writes[1..]);
      Scanned(now.emit + rest.emit, rest.held)
  }

  function Joined(writes: seq<Bytes>): Bytes {
    if writes == [] then [] else writes[0] + Joined(writes[1..])
  }

  /** Writing in any pieces and then flushing emits the mask of the whole stream. */
  lemma {:induction false} ChoppingIsInvisible(secrets: Secrets, held: Bytes, writes: seq<Bytes>)
    ensures var fed := Fed(secrets, held, writes);
            fed.emit + Scan(secrets, fed.held, true).emit == Masked(secrets, held + Joined(writes))
    decreases |writes|
  {
    if writes == [] {
      assert held + [] == held;
    } else {
      var now := Scan(secrets, held + writes[0], false);
      HeldCarriesOn(secrets, held + writes[0], Joined(writes[1..]));
      Regrouped(held, writes[0], Joined(writes[1..]));
      ChoppingIsInvisible(secrets, now.held, writes[1..]);
      var rest := Fed(secrets, now.held, writes[1..]);
      Regrouped(now.emit, rest.emit, Scan(secrets, rest.held, true).emit);
    }
  }

  lemma Regrouped(a: Bytes, b: Bytes, c: Bytes)
    ensures (a + b) + c == a + (b + c)
  {
  }

  /** Bytes are held back only while they are a live prefix of some secret, and
      after a flush none are. */
  lemma {:induction false} HeldIsLivePrefix(secrets: Secrets, buf: Bytes, final: bool)
    ensures var held := Scan(secrets, buf, final).held;
            held == [] || (!final && Partial(secrets, held))
    decreases |buf|
  {
    if buf == [] || (Partial(secrets, buf) && !final) {
    } else {
      HeldIsLivePrefix(secrets, buf[Taken(secrets, buf)..], final);
    }
  }

  /** What a walk of the trie finds is what the scan goes by. */
  lemma LookupDecides(secrets: Secrets, p: Bytes, n: nat, partial: bool)
    requires n <= |p| && (n > 0 ==> p[..n] in secrets)
    requires forall k :: n < k <= |p| ==> p[..k] !in secrets
    requires partial <==> exists key :: key in secrets && p < key
    ensures n == Longest(secrets, p) && partial == Partial(secrets, p)
  {
    var longest := Longest(secrets, p);
    assert longest > 0 ==> p[..longest] in secrets;
  }

  class Writer {
    const markers: Trie<Bytes>
    var held: Bytes
    ghost const secrets: Secrets

    ghost predicate Valid()
      reads this, markers
    {
      markers.Valid() && markers.Contents() == secrets
    }

    /** names in lexical order, so that the smallest of the names sharing a value
        is put last and stands. */
    constructor (names: seq<Bytes>, values: map<Bytes, Bytes>)
      requires forall name :: name in names ==> name in values
      ensures Valid() && fresh(markers) && held == [] && secrets == Masks(names, values)
    {
      markers := new Trie<Bytes>();
      held := [];
      secrets := Masks(names, values);
      new;
      var i := |names|;
      assert names[i..] == [];
      while i > 0
        invariant 0 <= i <= |names| && markers.Valid() && fresh(markers) && held == []
        invariant markers.Contents() == Masks(names[i..], values)
      {
        i := i - 1;
        assert names[i..][0] == names[i] && names[i..][1..] == names[i + 1..];
        if values[names[i]] != [] {
          markers.Put(values[names[i]], Marker(names[i]));
        }
      }
      assert names[0..] == names;
    }

    method Write(p: Bytes) returns (emit: Bytes)
      requires Valid()
      modifies this
      ensures Valid() && Scanned(emit, held) == Scan(secrets, old(held) + p, false)
    {
      emit := Consume(p, false);
    }

    method Flush() returns (emit: Bytes)
      requires Valid()
      modifies this
      ensures Valid() && held == [] && emit == Masked(secrets, old(held))
    {
      HeldIsLivePrefix(secrets, held, true);
      assert held + [] == held;
      emit := Consume([], true);
    }

    /** The trie's walk over the bytes in hand. */
    method Walk(p: Bytes) returns (n: nat, marker: Option<Bytes>, partial: bool)
      requires Valid()
      ensures n == Longest(secrets, p) && partial == Partial(secrets, p)
      ensures if n == 0 then marker == None else p[..n] in secrets && marker == Some(secrets[p[..n]])
    {
      n, marker, partial := markers.Lookup(p);
      assert partial <==> exists key :: key in secrets && p < key by {
        if partial {
          var key :| key in markers.Contents() && p < key;
          assert key in secrets;
        }
        if key :| key in secrets && p < key {
          assert key in markers.Contents();
        }
      }
      LookupDecides(secrets, p, n, partial);
    }

    /** Decides the byte or secret at i: literal bytes wait from lit on, a secret
        puts them out with its marker. */
    method Decide(buf: Bytes, ghost final: bool, out: Bytes, lit: nat, i: nat, n: nat, marker: Option<Bytes>)
      returns (out': Bytes, lit': nat, i': nat)
      requires lit <= i < |buf| && !(Partial(secrets, buf[i..]) && !final)
      requires n == Longest(secrets, buf[i..]) && (n > 0 ==> marker == Some(Emitted(secrets, buf[i..])))
      requires Resumes(secrets, buf, final, out, lit, i)
      ensures lit' <= i' && i < i' <= |buf| && Resumes(secrets, buf, final, out', lit', i')
    {
      if n == 0 {
        TakesLiteral(secrets, buf, final, out, lit, i);
        return out, lit, i + 1;
      }
      TakesSecret(secrets, buf, final, out, lit, i, marker.value);
      return out + buf[lit..i] + marker.value, i + n, i + n;
    }

    method Consume(p: Bytes, final: bool) returns (emit: Bytes)
      requires Valid()
      modifies this
      ensures Valid() && Scanned(emit, held) == Scan(secrets, old(held) + p, final)
    {
      var buf := held + p;
      var out: Bytes := [];
      var lit, i := 0, 0;
      Starts(secrets, buf, final);
      while i < |buf|
        invariant 0 <= lit <= i <= |buf| && Resumes(secrets, buf, final, out, lit, i)
      {
        var n, marker, partial := Walk(buf[i..]);
        if partial && !final {
          break;
        }
        out, lit, i := Decide(buf, final, out, lit, i, n, marker);
      }
      Ends(secrets, buf, final, out, lit, i);
      emit := out + buf[lit..i];
      held := buf[i..];
    }
  }

  /** The scan of buf is out, the literal run from lit to i, and then the scan
      of what remains. */
  ghost predicate Resumes(secrets: Secrets, buf: Bytes, final: bool, out: Bytes, lit: nat, i: nat)
    requires lit <= i <= |buf|
  {
    var todo := Scan(secrets, buf[i..], final);
    Scan(secrets, buf, final) == Scanned((out + buf[lit..i]) + todo.emit, todo.held)
  }

  lemma Starts(secrets: Secrets, buf: Bytes, final: bool)
    ensures Resumes(secrets, buf, final, [], 0, 0)
  {
    assert buf[0..] == buf && [] + buf[0..0] == [];
    var emit := Scan(secrets, buf, final).emit;
    assert [] + emit == emit;
  }

  lemma Ends(secrets: Secrets, buf: Bytes, final: bool, out: Bytes, lit: nat, i: nat)
    requires lit <= i <= |buf| && (i == |buf| || (Partial(secrets, buf[i..]) && !final))
    requires Resumes(secrets, buf, final, out, lit, i)
    ensures Scan(secrets, buf, final) == Scanned(out + buf[lit..i], buf[i..])
  {
    var done := out + buf[lit..i];
    assert done + [] == done;
  }

  /** One decision of the scan, at i. */
  lemma Takes(secrets: Secrets, buf: Bytes, final: bool, done: Bytes, i: nat)
    requires i < |buf| && !(Partial(secrets, buf[i..]) && !final)
    ensures var rest := buf[i..];
            var n := Taken(secrets, rest);
            var todo := Scan(secrets, buf[i + n..], final);
            var now := Scan(secrets, rest, final);
            done + now.emit == (done + Emitted(secrets, rest)) + todo.emit && now.held == todo.held
  {
    var rest := buf[i..];
    var n := Taken(secrets, rest);
    assert rest[n..] == buf[i + n..];
    Regrouped(done, Emitted(secrets, rest), Scan(secrets, buf[i + n..], final).emit);
  }

  lemma TakesLiteral(secrets: Secrets, buf: Bytes, final: bool, out: Bytes, lit: nat, i: nat)
    requires lit <= i < |buf| && !(Partial(secrets, buf[i..]) && !final) && Longest(secrets, buf[i..]) == 0
    requires Resumes(secrets, buf, final, out, lit, i)
    ensures Resumes(secrets, buf, final, out, lit, i + 1)
  {
    Takes(secrets, buf, final, out + buf[lit..i], i);
    OneMoreLiteral(out, buf, lit, i);
  }

  lemma TakesSecret(secrets: Secrets, buf: Bytes, final: bool, out: Bytes, lit: nat, i: nat, marker: Bytes)
    requires lit <= i < |buf| && !(Partial(secrets, buf[i..]) && !final) && Longest(secrets, buf[i..]) > 0
    requires Resumes(secrets, buf, final, out, lit, i) && marker == Emitted(secrets, buf[i..])
    ensures var j := i + Longest(secrets, buf[i..]);
            Resumes(secrets, buf, final, out + buf[lit..i] + marker, j, j)
  {
    Takes(secrets, buf, final, out + buf[lit..i], i);
    NoLiteral(out + buf[lit..i] + marker, buf, i + Longest(secrets, buf[i..]));
  }

  lemma NoLiteral(out: Bytes, buf: Bytes, i: nat)
    requires i <= |buf|
    ensures out + buf[i..i] == out
  {
  }

  lemma OneMoreLiteral(out: Bytes, buf: Bytes, lit: nat, i: nat)
    requires lit <= i < |buf|
    ensures out + buf[lit..i] + [buf[i..][0]] == out + buf[lit..i + 1]
  {
  }
}
