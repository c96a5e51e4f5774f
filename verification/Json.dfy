/** The JSON the scope printer and parser use (RFC 8259): one object whose
    values are strings, written as Go's encoder writes it and read as its
    decoder reads it. */
module Json {
  import opened Options
  import opened Strings

  type Table = map<string, string>

  // ---- writing -------------------------------------------------------------

  function HexDigit(n: int): char
    requires 0 <= n < 16
  {
    if n < 10 then ('0' as int + n) as char else ('a' as int + n - 10) as char
  }

  /** The six characters that stand for a code below 0x10000. */
  function UnicodeEscape(n: int): string
    requires 0 <= n < 0x10000
  {
    var (a, b) := (n / 16 / 16, n / 16);
    ['\\', 'u', HexDigit(a / 16), HexDigit(a % 16), HexDigit(b % 16), HexDigit(n % 16)]
  }

  function EscapeChar(c: char): string {
    if c == '"' then "\\\""
    else if c == '\\' then "\\\\"
    else if c as int == 8 then "\\b"
    else if c as int == 12 then "\\f"
    else if c == '\n' then "\\n"
    else if c == '\r' then "\\r"
    else if c == '\t' then "\\t"
    else if c < ' ' || c == '<' || c == '>' || c == '&' || c as int == 0x2028 || c as int == 0x2029 then
      UnicodeEscape(c as int)
    else [c]
  }

  /** A string's characters and its closing quote, then whatever follows. */
  function Closed(s: string, rest: string): string {
    if s == "" then ['"'] + rest else EscapeChar(s[0]) + Closed(s[1..], rest)
  }

  function Quoted(s: string, rest: string): string {
    ['"'] + Closed(s, rest)
  }

  /** The members for keys, comma-separated, and the closing brace. */
  function Members(keys: seq<string>, m: Table, rest: string): string
    requires keys != [] && forall k :: k in keys ==> k in m
  {
    Quoted(keys[0], [':'] + Quoted(m[keys[0]],
      if |keys| == 1 then ['}'] + rest else [','] + Members(keys[1..], m, rest)))
  }

  /** A table written with its members in the given order, then rest. */
  function Write(keys: seq<string>, m: Table, rest: string): string
    requires forall k :: k in keys ==> k in m
  {
    ['{'] + if keys == [] then ['}'] + rest else Members(keys, m, rest)
  }

  // ---- reading -------------------------------------------------------------

  /** The code of a \u escape at the start of s. */
  function Unit(s: string): (r: Option<int>)
    ensures r.Some? ==> |s| >= 6 && 0 <= r.value < 0x10000
  {
    if |s| < 6 || s[0] != '\\' || s[1] != 'u' then None
    else
      var a, b, c, d := HexValue(s[2]), HexValue(s[3]), HexValue(s[4]), HexValue(s[5]);
      if a.None? || b.None? || c.None? || d.None? then None
      else Some(a.value * 4096 + b.value * 256 + c.value * 16 + d.value)
  }

  predicate Surrogate(n: int) {
    0xD800 <= n < 0xE000
  }

  function Simple(c: char): Option<char> {
    if c == '"' || c == '\\' || c == '/' then Some(c)
    else if c == 'b' then Some(8 as char)
    else if c == 'f' then Some(12 as char)
    else if c == 'n' then Some('\n')
    else if c == 'r' then Some('\r')
    else if c == 't' then Some('\t')
    else None
  }

  /** The first character of a string's body and what is left of the body. */
  function FirstChar(s: string): (r: Option<(char, string)>)
    ensures r.Some? ==> |r.value.1| < |s|
  {
    if s == "" || s[0] == '"' || s[0] < ' ' then None
    else if s[0] != '\\' then Some((s[0], s[1..]))
    else
      var unit := Unit(s);
      if unit.Some? then
        if !Surrogate(unit.value) then Some((unit.value as char, s[6..]))
        else
          var low := Unit(s[6..]);
          if unit.value < 0xDC00 && low.Some? && 0xDC00 <= low.value < 0xE000 then
            Some(((0x10000 + (unit.value - 0xD800) * 0x400 + (low.value - 0xDC00)) as char, s[12..]))
          else Some(('\U{FFFD}', s[6..]))
      else if |s| < 2 || Simple(s[1]).None? then None
      else Some((Simple(s[1]).value, s[2..]))
  }

  /** Reads up to the closing quote: the string and what follows it. */
  function ReadBody(s: string): (r: Option<(string, string)>)
    ensures r.Some? ==> |r.value.1| < |s|
    decreases |s|
  {
    if s != "" && s[0] == '"' then Some(("", s[1..]))
    else
      var first := FirstChar(s);
      if first.None? then None
      else
        var more := ReadBody(first.value.1);
        if more.None? then None else Some(([first.value.0] + more.value.0, more.value.1))
  }

  function SkipSpace(s: string): (r: string)
    ensures |r| <= |s|
  {
    if s != "" && s[0] in {' ', '\t', '\r', '\n'} then SkipSpace(s[1..]) else s
  }

  function ReadString(s: string): (r: Option<(string, string)>)
    ensures r.Some? ==> |r.value.1| < |s|
  {
    if s == "" || s[0] != '"' then None else ReadBody(s[1..])
  }

  /** A member's value: a string, or null, which leaves the empty string. */
  function ReadValue(s: string): (r: Option<(string, string)>)
    ensures r.Some? ==> |r.value.1| < |s|
  {
    if |s| >= 4 && s[..4] == "null" then Some(("", s[4..])) else ReadString(s)
  }

  /** One member and the character after it. */
  function ReadMember(s: string): (r: Option<(string, string, char, string)>)
    ensures r.Some? ==> |r.value.3| < |s|
  {
    var key := ReadString(SkipSpace(s));
    if key.None? then None
    else
      var colon := SkipSpace(key.value.1);
      if colon == "" || colon[0] != ':' then None
      else
        var v := ReadValue(SkipSpace(colon[1..]));
        if v.None? then None
        else
          var after := SkipSpace(v.value.1);
          if after == "" then None else Some((key.value.0, v.value.0, after[0], after[1..]))
  }

  /** Members up to the closing brace, added to what was read before. */
  function ReadMembers(s: string, acc: Table): Option<(Table, string)>
    decreases |s|
  {
    var member := ReadMember(s);
    if member.None? then None
    else
      var (key, v, next, rest) := member.value;
      if next == ',' then ReadMembers(rest, acc[key := v])
      else if next == '}' then Some((acc[key := v], rest))
      else None
  }

  function ReadObject(s: string): Option<(Table, string)> {
    var open := SkipSpace(s);
    if open == "" || open[0] != '{' then None
    else
      var inside := SkipSpace(open[1..]);
      if inside != "" && inside[0] == '}' then Some((map[], inside[1..]))
      else ReadMembers(open[1..], map[])
  }

  /** What may follow the object: white space, and then nothing or, because the
      decoder only looks for more elements, a closing bracket or brace. */
  predicate Ends(rest: string) {
    var after := SkipSpace(rest);
    after == "" || after[0] == ']' || after[0] == '}'
  }

  /** The whole input. */
  function Read(s: string): Option<Table> {
    var read := ReadObject(s);
    if read.None? || !Ends(read.value.1) then None else Some(read.value.0)
  }

  // ---- reading back what was written ---------------------------------------

  lemma HexReadsBack(n: int)
    requires 0 <= n < 16
    ensures HexValue(HexDigit(n)) == Some(n)
  {
  }

  lemma UnitReadsBack(n: int, rest: string)
    requires 0 <= n < 0x10000
    ensures Unit(UnicodeEscape(n) + rest) == Some(n)
  {
    var (a, b) := (n / 16 / 16, n / 16);
    var e := UnicodeEscape(n) + rest;
    HexReadsBack(a / 16);
    HexReadsBack(a % 16);
    HexReadsBack(b % 16);
    HexReadsBack(n % 16);
    assert e[2] == HexDigit(a / 16) && e[3] == HexDigit(a % 16) && e[4] == HexDigit(b % 16) && e[5] == HexDigit(n % 16);
    assert n == a / 16 * 4096 + a % 16 * 256 + b % 16 * 16 + n % 16;
  }

  lemma EscapedReadsBack(n: int, rest: string)
    requires 0 <= n < 0x10000 && !Surrogate(n)
    ensures FirstChar(UnicodeEscape(n) + rest) == Some((n as char, rest))
  {
    UnitReadsBack(n, rest);
    assert (UnicodeEscape(n) + rest)[6..] == rest;
  }

  lemma ShortReadsBack(c: char, rest: string)
    requires Simple(c).Some?
    ensures FirstChar(['\\', c] + rest) == Some((Simple(c).value, rest))
  {
    assert (['\\', c] + rest)[2..] == rest;
  }

  lemma CharReadsBack(c: char, rest: string)
    ensures FirstChar(EscapeChar(c) + rest) == Some((c, rest)) && (EscapeChar(c) + rest)[0] != '"'
  {
    var e := EscapeChar(c);
    if |e| == 6 {
      EscapedReadsBack(c as int, rest);
    } else if |e| == 2 {
      assert e == ['\\', e[1]];
      ShortReadsBack(e[1], rest);
    } else {
      assert ([c] + rest)[1..] == rest;
    }
  }

  lemma {:induction false} BodyReadsBack(s: string, rest: string)
    ensures ReadBody(Closed(s, rest)) == Some((s, rest))
  {
    if s == "" {
    } else {
      var more := Closed(s[1..], rest);
      CharReadsBack(s[0], more);
      BodyReadsBack(s[1..], rest);
      assert Closed(s, rest) == EscapeChar(s[0]) + more;
      assert s == [s[0]] + s[1..];
    }
  }

  lemma QuotedReadsBack(s: string, rest: string)
    ensures SkipSpace(Quoted(s, rest)) == Quoted(s, rest)
    ensures ReadString(Quoted(s, rest)) == ReadValue(Quoted(s, rest)) == Some((s, rest))
  {
    BodyReadsBack(s, rest);
    assert Quoted(s, rest)[1..] == Closed(s, rest);
    assert Quoted(s, rest)[0] != "null"[0];
  }

  lemma MemberReadsBack(k: string, v: string, next: char, rest: string)
    requires next == ',' || next == '}'
    ensures ReadMember(Quoted(k, [':'] + Quoted(v, [next] + rest))) == Some((k, v, next, rest))
  {
    var colon := [':'] + Quoted(v, [next] + rest);
    QuotedReadsBack(k, colon);
    assert colon[1..] == Quoted(v, [next] + rest);
    QuotedReadsBack(v, [next] + rest);
    assert ([next] + rest)[1..] == rest;
  }

  /** acc with the members for keys laid over it in order. */
  function Added(acc: Table, keys: seq<string>, m: Table): Table
    requires forall k :: k in keys ==> k in m
    decreases keys
  {
    if keys == [] then acc else Added(acc[keys[0] := m[keys[0]]], keys[1..], m)
  }

  lemma {:induction false} MembersReadBack(keys: seq<string>, m: Table, acc: Table, rest: string)
    requires keys != [] && forall k :: k in keys ==> k in m
    ensures ReadMembers(Members(keys, m, rest), acc) == Some((Added(acc, keys, m), rest))
  {
    var k, v := keys[0], m[keys[0]];
    if |keys| == 1 {
      MemberReadsBack(k, v, '}', rest);
    } else {
      var more := Members(keys[1..], m, rest);
      MemberReadsBack(k, v, ',', more);
      MembersReadBack(keys[1..], m, acc[k := v], rest);
    }
  }

  lemma {:induction false} AddedIsUnion(acc: Table, keys: seq<string>, m: Table)
    requires forall k :: k in keys ==> k in m
    ensures forall k :: k in Added(acc, keys, m) <==> k in acc || k in keys
    ensures forall k :: k in Added(acc, keys, m) ==>
      Added(acc, keys, m)[k] == if k in keys then m[k] else acc[k]
    decreases keys
  {
    if keys != [] {
      AddedIsUnion(acc[keys[0] := m[keys[0]]], keys[1..], m);
    }
  }

  /** keys lists the keys of m, each at least once. */
  ghost predicate Lists(keys: seq<string>, m: Table) {
    forall k :: k in keys <==> k in m
  }

  lemma BracesOpen(inside: string, t: Table, rest: string)
    requires inside != "" && inside[0] == '"' && ReadMembers(inside, map[]) == Some((t, rest))
    ensures ReadObject(['{'] + inside) == Some((t, rest))
  {
    var text := ['{'] + inside;
    assert text[1..] == inside;
    assert SkipSpace(text) == text && SkipSpace(inside) == inside;
  }

  lemma EmptyReadsBack(rest: string)
    ensures ReadObject(['{'] + (['}'] + rest)) == Some((map[], rest))
  {
    var inside := ['}'] + rest;
    var text := ['{'] + inside;
    assert text[1..] == inside && inside[1..] == rest;
    assert SkipSpace(text) == text && SkipSpace(inside) == inside;
  }

  lemma MembersReadAll(keys: seq<string>, m: Table, rest: string)
    requires Lists(keys, m) && keys != []
    ensures ReadMembers(Members(keys, m, rest), map[]) == Some((m, rest))
    ensures Members(keys, m, rest) != "" && Members(keys, m, rest)[0] == '"'
  {
    MembersReadBack(keys, m, map[], rest);
    AddedIsUnion(map[], keys, m);
    assert Added(map[], keys, m) == m;
  }

  /** A table written with its members in any order reads back as itself, and
      with something after it exactly when that something is let through. */
  lemma ReadsBack(keys: seq<string>, m: Table, rest: string)
    requires Lists(keys, m)
    ensures Read(Write(keys, m, rest)) == if Ends(rest) then Some(m) else None
  {
    if keys == [] {
      assert m == map[];
      EmptyReadsBack(rest);
    } else {
      MembersReadAll(keys, m, rest);
      BracesOpen(Members(keys, m, rest), m, rest);
    }
  }

  /** text is m written in some order. */
  ghost predicate Writes(text: string, m: Table) {
    exists keys :: Lists(keys, m) && text == Write(keys, m, "")
  }

  lemma WrittenReadsBack(text: string, m: Table)
    requires Writes(text, m)
    ensures Read(text) == Some(m)
  {
    var keys :| Lists(keys, m) && text == Write(keys, m, "");
    ReadsBack(keys, m, "");
  }

  // ---- reading any writing -------------------------------------------------

  /** The ways a string may write a character: as it is, as a short escape, as one
      \\u escape, or as a pair of them. */
  datatype Form = Raw | Short(x: char) | Escape(h: string) | Pair(high: string, low: string)

  function FourHex(h: string): Option<int> {
    Unit(['\\', 'u'] + h)
  }

  predicate ShortFor(x: char, c: char) {
    || (x == c && x in {'"', '\\', '/'})
    || (x == 'b' && c as int == 8) || (x == 'f' && c as int == 12)
    || (x == 'n' && c as int == 10) || (x == 'r' && c as int == 13) || (x == 't' && c as int == 9)
  }

  predicate Stands(f: Form, c: char) {
    match f
    case Raw => c as int >= 32 && c !in {'"', '\\'}
    case Short(x) => ShortFor(x, c)
    case Escape(h) => |h| == 4 && FourHex(h) == Some(c as int)
    case Pair(high, low) =>
      && |high| == |low| == 4 && FourHex(high).Some? && FourHex(low).Some?
      && 0xD800 <= FourHex(high).value < 0xDC00 && 0xDC00 <= FourHex(low).value < 0xE000
      && c as int == 0x10000 + (FourHex(high).value - 0xD800) * 0x400 + (FourHex(low).value - 0xDC00)
  }

  function TextOf(f: Form, c: char): string {
    match f
    case Raw => [c]
    case Short(x) => ['\\', x]
    case Escape(h) => ['\\', 'u'] + h
    case Pair(high, low) => ['\\', 'u'] + high + (['\\', 'u'] + low)
  }

  lemma UnitOfFront(h: string, rest: string)
    requires |h| == 4
    ensures Unit(['\\', 'u'] + h + rest) == FourHex(h) && (['\\', 'u'] + h + rest)[6..] == rest
  {
  }

  lemma PairReads(high: string, low: string, c: char, rest: string)
    requires Stands(Pair(high, low), c)
    ensures FirstChar(TextOf(Pair(high, low), c) + rest) == Some((c, rest))
  {
    var front, back := ['\\', 'u'] + high, ['\\', 'u'] + low;
    var s := TextOf(Pair(high, low), c) + rest;
    assert s == front + (back + rest);
    UnitOfFront(high, back + rest);
    UnitOfFront(low, rest);
    assert s[6..] == back + rest && s[12..] == rest;
    assert s != "" && s[0] == '\\';
  }

  lemma FormReads(f: Form, c: char, rest: string)
    requires Stands(f, c)
    ensures FirstChar(TextOf(f, c) + rest) == Some((c, rest)) && (TextOf(f, c) + rest)[0] != '"'
  {
    match f {
      case Raw => assert ([c] + rest)[1..] == rest;
      case Short(x) => ShortReadsBack(x, rest);
      case Escape(h) => UnitOfFront(h, rest);
      case Pair(high, low) => PairReads(high, low, c, rest);
    }
  }

  /** A string's body in the given forms and its closing quote, then rest. */
  function BodyText(s: string, forms: seq<Form>, rest: string): string
    requires |forms| == |s|
  {
    if s == "" then ['"'] + rest else TextOf(forms[0], s[0]) + BodyText(s[1..], forms[1..], rest)
  }

  function FormsText(s: string, forms: seq<Form>, rest: string): string
    requires |forms| == |s|
  {
    if s == "" then rest else TextOf(forms[0], s[0]) + FormsText(s[1..], forms[1..], rest)
  }

  /** A string is refused, whatever it began with, that breaks off or goes on with
      a control character or a broken escape. */
  lemma {:induction false} BrokenStringIsRefused(s: string, forms: seq<Form>, rest: string)
    requires AllStand(forms, s)
    requires rest == "" || rest[0] as int < 32 || (rest[0] == '\\' && BrokenEscape(rest))
    ensures ReadBody(FormsText(s, forms, rest)) == None
  {
    if s != "" {
      FormReads(forms[0], s[0], FormsText(s[1..], forms[1..], rest));
      BrokenStringIsRefused(s[1..], forms[1..], rest);
    }
  }

  /** A backslash at the end, or before no letter of an escape, or before a u
      without four hexadecimal digits. */
  predicate BrokenEscape(s: string) {
    || |s| < 2
    || s[1] !in {'"', '\\', '/', 'b', 'f', 'n', 'r', 't', 'u'}
    || (s[1] == 'u' && (|s| < 6 || exists i :: 2 <= i < 6 && HexValue(s[i]).None?))
  }

  predicate AllStand(forms: seq<Form>, s: string) {
    |forms| == |s| && forall i :: 0 <= i < |s| ==> Stands(forms[i], s[i])
  }

  lemma OneMoreReads(text: string, c: char, more: string, s: string, rest: string)
    requires text != "" && text[0] != '"' && FirstChar(text) == Some((c, more)) && ReadBody(more) == Some((s, rest))
    ensures ReadBody(text) == Some(([c] + s, rest))
  {
  }

  lemma {:induction false} AnyBodyReads(s: string, forms: seq<Form>, rest: string)
    requires AllStand(forms, s)
    ensures ReadBody(BodyText(s, forms, rest)) == Some((s, rest))
  {
    if s != "" {
      var more := BodyText(s[1..], forms[1..], rest);
      FormReads(forms[0], s[0], more);
      AnyBodyReads(s[1..], forms[1..], rest);
      OneMoreReads(TextOf(forms[0], s[0]) + more, s[0], more, s[1..], rest);
      assert s == [s[0]] + s[1..];
    }
  }

  predicate Blank(s: string) {
    forall i :: 0 <= i < |s| ==> s[i] in {' ', '\t', '\r', '\n'}
  }

  predicate LetThrough(rest: string, blank: string) {
    Blank(blank) && blank <= rest && (rest == blank || rest[|blank|] in {']', '}'})
  }

  lemma {:induction false} SkippedIsBlank(s: string) returns (blank: string)
    ensures Blank(blank) && s == blank + SkipSpace(s)
    ensures SkipSpace(s) == "" || SkipSpace(s)[0] !in {' ', '\t', '\r', '\n'}
  {
    blank := "";
    if s != "" && s[0] in {' ', '\t', '\r', '\n'} {
      var more := SkippedIsBlank(s[1..]);
      blank := [s[0]] + more;
    }
  }

  /** What may follow the object: nothing but white space, up to the end or up to
      a closing bracket or brace with anything behind it. */
  lemma EndsExactly(rest: string)
    ensures Ends(rest) <==> exists blank :: LetThrough(rest, blank)
  {
    var skipped := SkippedIsBlank(rest);
    if Ends(rest) {
      assert LetThrough(rest, skipped);
    }
    if blank :| LetThrough(rest, blank) {
      assert rest == blank + rest[|blank|..];
      BlanksAreSkipped(blank, rest[|blank|..]);
    }
  }

  lemma {:induction false} BlanksAreSkipped(blank: string, rest: string)
    requires Blank(blank)
    ensures SkipSpace(blank + rest) == SkipSpace(rest)
  {
    if blank == "" {
      assert blank + rest == rest;
    } else {
      assert (blank + rest)[1..] == blank[1..] + rest && (blank + rest)[0] == blank[0];
      BlanksAreSkipped(blank[1..], rest);
    }
  }

  /** A member as written: its strings' forms, a value of None for null, and the
      white space around its four tokens. */
  datatype Member = Member(key: string, keyForms: seq<Form>, value: Option<string>, valueForms: seq<Form>,
                           before: string, afterKey: string, beforeValue: string, after: string)

  predicate Writable(m: Member) {
    && AllStand(m.keyForms, m.key) && (m.value.Some? ==> AllStand(m.valueForms, m.value.value))
    && Blank(m.before) && Blank(m.afterKey) && Blank(m.beforeValue) && Blank(m.after)
  }

  function ValueText(m: Member, rest: string): string
    requires Writable(m)
  {
    if m.value.None? then "null" + rest else ['"'] + BodyText(m.value.value, m.valueForms, rest)
  }

  function MemberText(m: Member, rest: string): string
    requires Writable(m)
  {
    m.before + (['"'] + BodyText(m.key, m.keyForms, m.afterKey + ([':'] + (m.beforeValue + ValueText(m, m.after + rest)))))
  }

  function ValueOf(m: Member): string {
    if m.value.None? then "" else m.value.value
  }

  lemma AnyValueReads(m: Member, rest: string)
    requires Writable(m)
    ensures ReadValue(ValueText(m, rest)) == Some((ValueOf(m), rest))
    ensures SkipSpace(ValueText(m, rest)) == ValueText(m, rest)
  {
    var text := ValueText(m, rest);
    if m.value.None? {
      assert text[..4] == "null" && text[4..] == rest && text[0] == 'n';
    } else {
      AnyBodyReads(m.value.value, m.valueForms, rest);
      assert text[1..] == BodyText(m.value.value, m.valueForms, rest) && text[0] == '"';
      assert text[0] != "null"[0];
    }
  }

  lemma AnyKeyReads(m: Member, rest: string)
    requires Writable(m)
    ensures ReadString(SkipSpace(m.before + (['"'] + BodyText(m.key, m.keyForms, rest)))) == Some((m.key, rest))
  {
    var text := ['"'] + BodyText(m.key, m.keyForms, rest);
    BlanksAreSkipped(m.before, text);
    AnyBodyReads(m.key, m.keyForms, rest);
    assert text[1..] == BodyText(m.key, m.keyForms, rest);
  }

  lemma AnyMemberReads(m: Member, next: char, rest: string)
    requires Writable(m) && next in {',', '}'}
    ensures ReadMember(MemberText(m, [next] + rest)) == Some((m.key, ValueOf(m), next, rest))
  {
    var value := ValueText(m, m.after + ([next] + rest));
    var colon := [':'] + (m.beforeValue + value);
    AnyKeyReads(m, m.afterKey + colon);
    BlanksAreSkipped(m.afterKey, colon);
    assert colon[1..] == m.beforeValue + value;
    BlanksAreSkipped(m.beforeValue, value);
    AnyValueReads(m, m.after + ([next] + rest));
    BlanksAreSkipped(m.after, [next] + rest);
    assert ([next] + rest)[1..] == rest;
  }

  function MembersText(ms: seq<Member>, rest: string): string
    requires ms != [] && forall m :: m in ms ==> Writable(m)
  {
    MemberText(ms[0], if |ms| == 1 then ['}'] + rest else [','] + MembersText(ms[1..], rest))
  }

  /** The members laid over acc in order: the last value of a key stands. */
  function Laid(acc: Table, ms: seq<Member>): Table
    decreases ms
  {
    if ms == [] then acc else Laid(acc[ms[0].key := ValueOf(ms[0])], ms[1..])
  }

  lemma {:induction false} AnyMembersRead(ms: seq<Member>, acc: Table, rest: string)
    requires ms != [] && forall m :: m in ms ==> Writable(m)
    ensures ReadMembers(MembersText(ms, rest), acc) == Some((Laid(acc, ms), rest))
    decreases ms
  {
    if |ms| == 1 {
      AnyMemberReads(ms[0], '}', rest);
    } else {
      AnyMemberReads(ms[0], ',', MembersText(ms[1..], rest));
      AnyMembersRead(ms[1..], acc[ms[0].key := ValueOf(ms[0])], rest);
    }
  }

  function ObjectText(lead: string, ms: seq<Member>, gap: string, rest: string): string
    requires forall m :: m in ms ==> Writable(m)
  {
    lead + (['{'] + if ms == [] then gap + (['}'] + rest) else MembersText(ms, rest))
  }

  lemma MembersStart(ms: seq<Member>, rest: string)
    requires ms != [] && forall m :: m in ms ==> Writable(m)
    ensures SkipSpace(MembersText(ms, rest)) != "" && SkipSpace(MembersText(ms, rest))[0] == '"'
  {
    var m := ms[0];
    var after := if |ms| == 1 then ['}'] + rest else [','] + MembersText(ms[1..], rest);
    var tail := ['"'] + BodyText(m.key, m.keyForms, m.afterKey + ([':'] + (m.beforeValue + ValueText(m, m.after + after))));
    assert MembersText(ms, rest) == m.before + tail;
    BlanksAreSkipped(m.before, tail);
  }

  lemma EmptyObjectReads(gap: string, rest: string)
    requires Blank(gap)
    ensures ReadObject(['{'] + (gap + (['}'] + rest))) == Some((map[], rest))
  {
    var inside := gap + (['}'] + rest);
    var open := ['{'] + inside;
    assert open[1..] == inside && SkipSpace(open) == open;
    BlanksAreSkipped(gap, ['}'] + rest);
    assert (['}'] + rest)[1..] == rest;
  }

  lemma MembersObjectReads(ms: seq<Member>, rest: string)
    requires ms != [] && forall m :: m in ms ==> Writable(m)
    ensures ReadObject(['{'] + MembersText(ms, rest)) == Some((Laid(map[], ms), rest))
  {
    var open := ['{'] + MembersText(ms, rest);
    assert open[1..] == MembersText(ms, rest) && SkipSpace(open) == open;
    MembersStart(ms, rest);
    AnyMembersRead(ms, map[], rest);
  }

  /** Every writing of an object whose values are strings or null is read: white
      space between any tokens, every form of every character, keys repeated and
      in any order, null standing for the empty string. */
  lemma ReadsEveryWriting(lead: string, ms: seq<Member>, gap: string, rest: string)
    requires Blank(lead) && Blank(gap) && forall m :: m in ms ==> Writable(m)
    ensures Read(ObjectText(lead, ms, gap, rest)) == if Ends(rest) then Some(Laid(map[], ms)) else None
  {
    if ms == [] {
      EmptyObjectReads(gap, rest);
      BlanksAreSkipped(lead, ['{'] + (gap + (['}'] + rest)));
    } else {
      MembersObjectReads(ms, rest);
      BlanksAreSkipped(lead, ['{'] + MembersText(ms, rest));
    }
  }

  /** Half a pair of escapes stands for the replacement character. */
  lemma LoneSurrogateIsReplaced(h: string, rest: string)
    requires |h| == 4 && FourHex(h).Some? && Surrogate(FourHex(h).value)
    requires FourHex(h).value >= 0xDC00 || Unit(rest).None? || !(0xDC00 <= Unit(rest).value < 0xE000)
    ensures FirstChar(['\\', 'u'] + h + rest) == Some(('\U{FFFD}', rest))
  {
    UnitOfFront(h, rest);
  }

  /** What is written is plain: no control character, and none that a web page
      would take for its own. */
  lemma WrittenIsPlain(c: char)
    ensures forall d :: d in EscapeChar(c) ==> d as int >= 32 && d !in {'<', '>', '&'} && d as int !in {0x2028, 0x2029}
    ensures |EscapeChar(c)| == 1 ==> c !in {'"', '\\'}
  {
    var e := EscapeChar(c);
    assert forall d :: d in e ==> exists i :: 0 <= i < |e| && e[i] == d;
  }
}
