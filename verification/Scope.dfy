/** Capability scopes: the printer, the parser and the matcher. Follows
    internal/auth/authscope/parse.go and scope.go. */
module Scopes {
  import opened Options
  import opened Strings
  import Json

  type Op = seq<string>
  type Table = Json.Table

  /** Nil predicates and empty ones are different values with one meaning. */
  datatype Scope = Scope(op: Op, preds: Option<Table>) {
    function Pins(): Table {
      if preds.None? then map[] else preds.value
    }
  }

  datatype Attr = Attr(name: string, value: string)

  // ---- matching ------------------------------------------------------------

  /** The value of the first attribute with the name. */
  function AttrValue(attrs: seq<Attr>, name: string): (r: Option<string>)
    ensures r.Some? <==> exists a :: a in attrs && a.name == name
  {
    if attrs == [] then None
    else if attrs[0].name == name then Some(attrs[0].value)
    else AttrValue(attrs[1..], name)
  }

  predicate CoversOp(s: Scope, op: Op) {
    |s.op| == |op| && forall i :: 0 <= i < |op| ==> s.op[i] == "*" || s.op[i] == op[i]
  }

  predicate Permits(s: Scope, op: Op, attrs: seq<Attr>) {
    CoversOp(s, op) && forall k :: k in s.Pins() ==> AttrValue(attrs, k) == Some(s.Pins()[k])
  }

  predicate Allow(scopes: seq<Scope>, op: Op, attrs: seq<Attr>) {
    exists i :: 0 <= i < |scopes| && Permits(scopes[i], op, attrs)
  }

  predicate AllowOp(scopes: seq<Scope>, op: Op) {
    exists i :: 0 <= i < |scopes| && CoversOp(scopes[i], op)
  }

  /** The first attribute of a name counts. */
  lemma {:induction false} FirstValueCounts(attrs: seq<Attr>, more: seq<Attr>, name: string, value: string)
    ensures AttrValue(attrs + more, name)
         == if AttrValue(attrs, name).Some? then AttrValue(attrs, name) else AttrValue(more, name)
    ensures AttrValue([Attr(name, value)], name) == Some(value)
  {
    if attrs == [] {
      assert attrs + more == more;
    } else {
      assert (attrs + more)[1..] == attrs[1..] + more;
      FirstValueCounts(attrs[1..], more, name, value);
    }
  }

  /** A star stands for any one segment and a name for itself alone; a scope
      covers no operation of another length. */
  lemma SegmentsCover(s: Scope, op: Op, i: nat)
    requires i < |s.op|
    ensures |op| != |s.op| ==> !CoversOp(s, op)
    ensures |op| == |s.op| && s.op[i] != "*" ==> (CoversOp(s, op) <==> op[i] == s.op[i] && CoversOp(s.(op := s.op[i := "*"]), op))
    ensures |op| == |s.op| ==> (CoversOp(s.(op := s.op[i := "*"]), op) <==> CoversOp(s, op[i := s.op[i]]))
    ensures CoversOp(s, s.op)
  {
  }

  /** A scope is its operation and its pins: each pin more is one more thing to hold. */
  lemma PinsNarrow(s: Scope, k: string, v: string, op: Op, attrs: seq<Attr>)
    requires k !in s.Pins()
    ensures Permits(s.(preds := Some(s.Pins()[k := v])), op, attrs) <==> Permits(s, op, attrs) && AttrValue(attrs, k) == Some(v)
    ensures Permits(s.(preds := None), op, attrs) <==> CoversOp(s, op)
  {
    var more := s.Pins()[k := v];
    assert forall x :: x in more <==> x in s.Pins() || x == k;
  }

  /** A set of scopes allows what any of them permits. */
  lemma SetsAdd(some: seq<Scope>, others: seq<Scope>, s: Scope, op: Op, attrs: seq<Attr>)
    ensures Allow(some + others, op, attrs) <==> Allow(some, op, attrs) || Allow(others, op, attrs)
    ensures !Allow([], op, attrs) && (Allow([s], op, attrs) <==> Permits(s, op, attrs))
  {
    var all := some + others;
    if i :| 0 <= i < |some| && Permits(some[i], op, attrs) {
      assert all[i] == some[i];
    }
    if i :| 0 <= i < |others| && Permits(others[i], op, attrs) {
      assert all[|some| + i] == others[i];
    }
    assert [s][0] == s;
  }

  // ---- printing and parsing ------------------------------------------------

  function Join(op: Op): string {
    if op == [] then "" else if |op| == 1 then op[0] else op[0] + (['.'] + Join(op[1..]))
  }

  function Split(s: string): (op: Op)
    ensures op != [] && forall seg :: seg in op ==> '.' !in seg
    decreases |s|
  {
    if '.' !in s then [s] else [Before(s, '.')] + Split(Rest(s, '.'))
  }

  /** The wire form, given the JSON the predicates are written as. */
  function Print(s: Scope, json: string): string {
    if s.Pins() == map[] then Join(s.op) else Join(s.op) + ([':'] + json)
  }

  function ParseOp(raw: string): Option<Op> {
    if "" in Split(raw) then None else Some(Split(raw))
  }

  function Parse(s: string): Option<Scope> {
    var op := ParseOp(Before(s, ':'));
    if op.None? then None
    else if ':' !in s then Some(Scope(op.value, None))
    else
      var preds := Json.Read(Rest(s, ':'));
      if preds.None? then None else Some(Scope(op.value, preds))
  }

  /** All of the scopes parsed in order, None as soon as one is malformed. */
  function Parsed(strs: seq<string>): Option<seq<Scope>> {
    if strs == [] then Some([])
    else
      var rest := Parsed(strs[..|strs| - 1]);
      var last := Parse(strs[|strs| - 1]);
      if rest.None? || last.None? then None else Some(rest.value + [last.value])
  }

  lemma {:induction false} ParsedFails(strs: seq<string>, i: nat)
    requires i < |strs| && Parse(strs[i]).None?
    ensures Parsed(strs).None?
  {
    if i < |strs| - 1 {
      ParsedFails(strs[..|strs| - 1], i);
    }
  }

  method ParseScopes(strs: seq<string>) returns (r: Option<seq<Scope>>)
    ensures r == Parsed(strs)
  {
    var parsed: seq<Scope> := [];
    for i := 0 to |strs|
      invariant Parsed(strs[..i]) == Some(parsed)
    {
      var one := Parse(strs[i]);
      if one.None? {
        ParsedFails(strs, i);
        return None;
      }
      assert strs[..i + 1][..i] == strs[..i];
      parsed := parsed + [one.value];
    }
    assert strs[..|strs|] == strs;
    r := Some(parsed);
  }

  // ---- building ------------------------------------------------------------

  /** The value of the last attribute with the name. */
  function LastValue(attrs: seq<Attr>, name: string): Option<string> {
    if attrs == [] then None
    else if attrs[|attrs| - 1].name == name then Some(attrs[|attrs| - 1].value)
    else LastValue(attrs[..|attrs| - 1], name)
  }

  /** m holds for each name its last value in attrs, and nothing else. */
  ghost predicate Folded(m: Table, attrs: seq<Attr>) {
    forall k :: LastValue(attrs, k) == if k in m then Some(m[k]) else None
  }

  /** The last attribute of a name counts in building. */
  lemma {:induction false} LastValueCounts(attrs: seq<Attr>, more: seq<Attr>, name: string, value: string)
    ensures LastValue(attrs + more, name)
         == if LastValue(more, name).Some? then LastValue(more, name) else LastValue(attrs, name)
    ensures LastValue([Attr(name, value)], name) == Some(value)
  {
    if more == [] {
      assert attrs + more == attrs;
    } else {
      assert (attrs + more)[..|attrs + more| - 1] == attrs + more[..|more| - 1];
      LastValueCounts(attrs, more[..|more| - 1], name, value);
    }
  }

  method New(op: Op, attrs: seq<Attr>) returns (s: Scope)
    ensures s.op == op && (s.preds.None? <==> attrs == []) && Folded(s.Pins(), attrs)
  {
    if attrs == [] {
      return Scope(op, None);
    }
    var preds: Table := map[];
    for i := 0 to |attrs|
      invariant Folded(preds, attrs[..i])
    {
      assert attrs[..i + 1][..i] == attrs[..i];
      preds := preds[attrs[i].name := attrs[i].value];
    }
    assert attrs[..|attrs|] == attrs;
    s := Scope(op, Some(preds));
  }

  // ---- what a scope means --------------------------------------------------

  function Attributes(keys: seq<string>, m: Table): seq<Attr>
    requires forall k :: k in keys ==> k in m
  {
    if keys == [] then [] else [Attr(keys[0], m[keys[0]])] + Attributes(keys[1..], m)
  }

  lemma {:induction false} AttributesHold(keys: seq<string>, m: Table, k: string)
    requires forall x :: x in keys ==> x in m
    ensures AttrValue(Attributes(keys, m), k) == if k in keys then Some(m[k]) else None
  {
    if keys != [] {
      var rest := Attributes(keys[1..], m);
      assert Attributes(keys, m)[1..] == rest;
      AttributesHold(keys[1..], m, k);
    }
  }

  lemma {:induction false} Listing(m: Table) returns (keys: seq<string>)
    ensures Json.Lists(keys, m)
    decreases |m|
  {
    if m == map[] {
      keys := [];
    } else {
      var k :| k in m;
      assert |m - {k}| < |m| by {
        assert (m - {k}).Keys == m.Keys - {k};
        assert |m.Keys - {k}| == |m.Keys| - 1;
      }
      var rest := Listing(m - {k});
      keys := [k] + rest;
    }
  }

  /** The requests t permits are among those s permits. */
  ghost predicate Subsumes(s: Scope, t: Scope) {
    forall op, attrs :: Permits(t, op, attrs) ==> Permits(s, op, attrs)
  }

  /** Exactly when one scope subsumes another, read off their texts: it covers
      the operation as a pattern and pins no more than the other pins. So a
      predicate only ever narrows, and no predicate is a wildcard. */
  lemma SubsumesExactly(s: Scope, t: Scope)
    ensures Subsumes(s, t) <==>
      CoversOp(s, t.op) && forall k :: k in s.Pins() ==> k in t.Pins() && t.Pins()[k] == s.Pins()[k]
  {
    if Subsumes(s, t) {
      var keys := Listing(t.Pins());
      var attrs := Attributes(keys, t.Pins());
      forall k ensures AttrValue(attrs, k) == if k in t.Pins() then Some(t.Pins()[k]) else None {
        AttributesHold(keys, t.Pins(), k);
      }
      assert Permits(t, t.op, attrs);
      assert Permits(s, t.op, attrs);
    }
  }

  ghost predicate SameMeaning(s: Scope, t: Scope) {
    forall op, attrs :: Permits(s, op, attrs) <==> Permits(t, op, attrs)
  }

  /** Two scopes permit the same requests exactly when they read the same, nil
      and empty predicates apart. */
  lemma SameMeaningExactly(s: Scope, t: Scope)
    ensures SameMeaning(s, t) <==> s.op == t.op && s.Pins() == t.Pins()
  {
    SubsumesExactly(s, t);
    SubsumesExactly(t, s);
    if SameMeaning(s, t) {
      assert Subsumes(s, t) && Subsumes(t, s);
    }
  }

  // ---- the round trip ------------------------------------------------------

  predicate WellFormed(op: Op) {
    op != [] && forall seg :: seg in op ==> seg != "" && '.' !in seg && ':' !in seg
  }

  lemma {:induction false} SplitsBack(op: Op)
    requires op != [] && forall seg :: seg in op ==> '.' !in seg
    ensures Split(Join(op)) == op
  {
    if |op| > 1 {
      var rest := ['.'] + Join(op[1..]);
      BeforeAppend(op[0], rest, '.');
      assert Before(rest, '.') == "" && Rest(rest, '.') == Join(op[1..]);
      assert op[0] + "" == op[0];
      SplitsBack(op[1..]);
    }
  }

  lemma {:induction false} JoinHasNo(op: Op, c: char)
    requires c != '.' && forall seg :: seg in op ==> c !in seg
    ensures c !in Join(op)
  {
    if |op| > 1 {
      JoinHasNo(op[1..], c);
    }
  }

  lemma {:induction false} SplitHasNo(s: string, c: char)
    requires c !in s
    ensures forall seg :: seg in Split(s) ==> c !in seg
    decreases |s|
  {
    if '.' in s {
      if c in Rest(s, '.') {
        RestIsWithin(s, '.', c);
      }
      SplitHasNo(Rest(s, '.'), c);
    }
  }

  /** Whatever parses has an operation that prints unambiguously. */
  lemma ParsedIsWellFormed(s: string)
    requires Parse(s).Some?
    ensures WellFormed(Parse(s).value.op)
  {
    SplitHasNo(Before(s, ':'), ':');
  }

  lemma OpParsesBack(op: Op)
    requires WellFormed(op)
    ensures ParseOp(Join(op)) == Some(op) && ':' !in Join(op)
  {
    SplitsBack(op);
    JoinHasNo(op, ':');
  }

  lemma {:induction false} JoinsBack(s: string)
    ensures Join(Split(s)) == s
    decreases |s|
  {
    if '.' in s {
      JoinsBack(Rest(s, '.'));
      assert s == Before(s, '.') + (['.'] + Rest(s, '.'));
      assert Split(s)[1..] == Split(Rest(s, '.')) && Split(s)[0] == Before(s, '.');
    }
  }

  /** Text without a colon is an operation exactly when it is the text of one. */
  lemma ParsesOpExactly(head: string, op: Op)
    requires ':' !in head
    ensures ParseOp(head) == Some(op) <==> WellFormed(op) && head == Join(op)
  {
    if ParseOp(head) == Some(op) {
      JoinsBack(head);
      SplitHasNo(head, ':');
    }
    if WellFormed(op) && head == Join(op) {
      OpParsesBack(op);
    }
  }

  /** A scope with predicates parses exactly when its operation and its object
      both do: predicates that cannot be read never fall away. */
  lemma ParsesPinsExactly(head: string, json: string)
    requires ':' !in head
    ensures var parsed := Parse(head + ([':'] + json));
            && (parsed.Some? <==> ParseOp(head).Some? && Json.Read(json).Some?)
            && (parsed.Some? ==> Some(parsed.value.op) == ParseOp(head) && parsed.value.preds == Json.Read(json))
    ensures Parse(head).Some? <==> ParseOp(head).Some?
    ensures Parse(head).Some? ==> Some(Parse(head).value.op) == ParseOp(head) && Parse(head).value.Pins() == map[]
  {
    CutsAtColon(head, json);
    assert Before(head, ':') == head;
  }

  lemma CutsAtColon(head: string, json: string)
    requires ':' !in head
    ensures var text := head + ([':'] + json);
      Before(text, ':') == head && ':' in text && Rest(text, ':') == json
  {
    var tail := [':'] + json;
    BeforeAppend(head, tail, ':');
    assert Before(tail, ':') == "" && Rest(tail, ':') == json;
    assert head + "" == head && tail[0] == ':';
  }

  lemma ParsesHeadAndBody(text: string, head: string, json: string, op: Op, pins: Table)
    requires Before(text, ':') == head && ':' in text && Rest(text, ':') == json
    requires ParseOp(head) == Some(op) && Json.Read(json) == Some(pins)
    ensures Parse(text) == Some(Scope(op, Some(pins)))
  {
  }

  lemma ParsesBare(head: string, op: Op)
    requires ParseOp(head) == Some(op) && ':' !in head
    ensures Parse(head) == Some(Scope(op, None))
  {
    assert Before(head, ':') == head;
  }

  lemma PinnedParses(head: string, json: string, op: Op, pins: Table)
    requires ':' !in head && ParseOp(head) == Some(op) && Json.Read(json) == Some(pins)
    ensures Parse(head + ([':'] + json)) == Some(Scope(op, Some(pins)))
  {
    CutsAtColon(head, json);
    ParsesHeadAndBody(head + ([':'] + json), head, json, op, pins);
  }

  lemma HeadAndBodyParse(s: Scope, text: string, head: string, json: string)
    requires ':' !in head && ParseOp(head) == Some(s.op) && Json.Read(json) == Some(s.Pins())
    requires text == if s.Pins() == map[] then head else head + ([':'] + json)
    ensures Parse(text) == Some(Scope(s.op, if s.Pins() == map[] then None else Some(s.Pins())))
  {
    if s.Pins() == map[] {
      ParsesBare(head, s.op);
    } else {
      PinnedParses(head, json, s.op, s.Pins());
    }
  }

  lemma PrintsAndParses(s: Scope, json: string)
    requires WellFormed(s.op) && Json.Writes(json, s.Pins())
    ensures Parse(Print(s, json)) == Some(Scope(s.op, if s.Pins() == map[] then None else Some(s.Pins())))
  {
    OpParsesBack(s.op);
    Json.WrittenReadsBack(json, s.Pins());
    HeadAndBodyParse(s, Print(s, json), Join(s.op), json);
  }

  /** Printing and parsing a scope gives back one that permits the same
      requests, exactly when its operation has at least one segment, none of
      them empty and none with a dot or colon in it. */
  lemma RoundTripsExactly(s: Scope, json: string)
    requires Json.Writes(json, s.Pins())
    ensures (Parse(Print(s, json)).Some? && SameMeaning(s, Parse(Print(s, json)).value)) <==> WellFormed(s.op)
  {
    if WellFormed(s.op) {
      PrintsAndParses(s, json);
      SameMeaningExactly(s, Parse(Print(s, json)).value);
    } else if Parse(Print(s, json)).Some? {
      ParsedIsWellFormed(Print(s, json));
      SameMeaningExactly(s, Parse(Print(s, json)).value);
    }
  }

  /** A whole set printed and parsed again parses, and allows the same requests
      and the same operations. */
  lemma SetRoundTrips(scopes: seq<Scope>, strs: seq<string>, jsons: seq<string>)
    requires |strs| == |jsons| == |scopes|
    requires forall i :: 0 <= i < |scopes| ==>
      WellFormed(scopes[i].op) && Json.Writes(jsons[i], scopes[i].Pins()) && strs[i] == Print(scopes[i], jsons[i])
    ensures Parsed(strs).Some? && |Parsed(strs).value| == |scopes|
    ensures forall i :: 0 <= i < |scopes| ==> SameMeaning(scopes[i], Parsed(strs).value[i])
    ensures forall op, attrs :: Allow(Parsed(strs).value, op, attrs) <==> Allow(scopes, op, attrs)
    ensures forall op :: AllowOp(Parsed(strs).value, op) <==> AllowOp(scopes, op)
  {
    SetParsesSame(scopes, strs, jsons);
    SameSets(scopes, Parsed(strs).value);
  }

  lemma SetParsesSame(scopes: seq<Scope>, strs: seq<string>, jsons: seq<string>)
    requires |strs| == |jsons| == |scopes|
    requires forall i :: 0 <= i < |scopes| ==>
      WellFormed(scopes[i].op) && Json.Writes(jsons[i], scopes[i].Pins()) && strs[i] == Print(scopes[i], jsons[i])
    ensures Parsed(strs).Some? && |Parsed(strs).value| == |scopes|
    ensures forall i :: 0 <= i < |scopes| ==>
      scopes[i].op == Parsed(strs).value[i].op && scopes[i].Pins() == Parsed(strs).value[i].Pins()
  {
    forall i | 0 <= i < |scopes|
      ensures Parse(strs[i]).Some? && Parse(strs[i]).value.op == scopes[i].op
      ensures Parse(strs[i]).value.Pins() == scopes[i].Pins()
    {
      PrintsAndParses(scopes[i], jsons[i]);
    }
    AllParse(strs);
  }

  lemma SameSets(a: seq<Scope>, b: seq<Scope>)
    requires |a| == |b| && forall i :: 0 <= i < |a| ==> a[i].op == b[i].op && a[i].Pins() == b[i].Pins()
    ensures forall i :: 0 <= i < |a| ==> SameMeaning(a[i], b[i])
    ensures forall op, attrs :: Allow(b, op, attrs) <==> Allow(a, op, attrs)
    ensures forall op :: AllowOp(b, op) <==> AllowOp(a, op)
  {
    forall i | 0 <= i < |a| ensures SameMeaning(a[i], b[i]) {
      SameMeaningExactly(a[i], b[i]);
    }
    forall op, attrs ensures Allow(b, op, attrs) <==> Allow(a, op, attrs) {
      assert forall i :: 0 <= i < |a| ==> (Permits(a[i], op, attrs) <==> Permits(b[i], op, attrs));
    }
  }

  lemma {:induction false} AllParse(strs: seq<string>)
    requires forall i :: 0 <= i < |strs| ==> Parse(strs[i]).Some?
    ensures Parsed(strs).Some? && |Parsed(strs).value| == |strs|
    ensures forall i :: 0 <= i < |strs| ==> Parse(strs[i]) == Some(Parsed(strs).value[i])
  {
    if strs != [] {
      AllParse(strs[..|strs| - 1]);
    }
  }

  // ---- the matcher ---------------------------------------------------------

  /** Holding an operation at all is being allowed it on some instance. */
  lemma AllowOpIsSomeInstance(scopes: seq<Scope>, op: Op)
    ensures AllowOp(scopes, op) <==> exists attrs :: Allow(scopes, op, attrs)
  {
    if AllowOp(scopes, op) {
      var i :| 0 <= i < |scopes| && CoversOp(scopes[i], op);
      var keys := Listing(scopes[i].Pins());
      var attrs := Attributes(keys, scopes[i].Pins());
      forall k | k in scopes[i].Pins() ensures AttrValue(attrs, k) == Some(scopes[i].Pins()[k]) {
        AttributesHold(keys, scopes[i].Pins(), k);
      }
      assert Permits(scopes[i], op, attrs);
      assert Allow(scopes, op, attrs);
    }
  }

  /** A scope built from a request's attributes permits that request exactly
      when every name's first value is also its last, since building keeps the
      last value of a name and matching looks at the first. */
  lemma BuiltScopePermitsItsRequest(s: Scope, attrs: seq<Attr>)
    requires Folded(s.Pins(), attrs)
    ensures Permits(s, s.op, attrs) <==>
      forall a :: a in attrs ==> AttrValue(attrs, a.name) == LastValue(attrs, a.name)
  {
    if Permits(s, s.op, attrs) {
      forall a | a in attrs ensures AttrValue(attrs, a.name) == LastValue(attrs, a.name) {
        SameNames(attrs, a.name);
      }
    } else {
      var k :| k in s.Pins() && AttrValue(attrs, k) != Some(s.Pins()[k]);
      SameNames(attrs, k);
    }
  }

  lemma {:induction false} SameNames(attrs: seq<Attr>, k: string)
    ensures LastValue(attrs, k).Some? <==> exists a :: a in attrs && a.name == k
  {
    if attrs != [] {
      var n := |attrs| - 1;
      assert attrs == attrs[..n] + [attrs[n]];
      SameNames(attrs[..n], k);
    }
  }
}
