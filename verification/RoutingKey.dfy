/** The routing key of a resource URL. Follows internal/model/url.go. URL
    splitting is Go's net/url reduced to what the key looks at: host and
    decoded path. How a host is read and which user information is accepted is
    left to the library. Characters stand for bytes. */
module RoutingKeys {
  import opened Options
  import opened Strings

  /** The library's reading of a host, None when it refuses it, and its verdict
      on user information. */
  datatype Lib = Lib(host: string -> Option<string>, userOk: string -> bool) {
    predicate Reads(h: string) {
      host(h) == Some(h)
    }
  }

  datatype Url = Url(host: string, path: string)

  // ---- string helpers ------------------------------------------------------

  predicate IsDigit(c: char) {
    '0' <= c <= '9'
  }

  function Digits(s: string): (r: string)
    ensures r <= s && forall i :: 0 <= i < |r| ==> IsDigit(r[i])
  {
    if s == "" || !IsDigit(s[0]) then "" else [s[0]] + Digits(s[1..])
  }

  predicate HasSuffix(s: string, suffix: string) {
    |s| >= |suffix| && s[|s| - |suffix|..] == suffix
  }

  /** s after its last c, all of s when there is none. */
  function AfterLast(s: string, c: char): (r: string)
    ensures c !in r
    ensures c !in s ==> r == s
    ensures forall x :: x in r ==> x in s
  {
    if c !in s then s else AfterLast(s[1..], c)
  }

  predicate IsControl(c: char) {
    c < ' ' || c as int == 127
  }

  // ---- net/url -------------------------------------------------------------

  predicate IsLetter(c: char) {
    ('a' <= c <= 'z') || ('A' <= c <= 'Z')
  }

  predicate IsSchemeChar(c: char) {
    IsLetter(c) || IsDigit(c) || c == '+' || c == '-' || c == '.'
  }

  function SchemePrefix(s: string): (r: string)
    ensures r <= s
  {
    if s == "" || !IsSchemeChar(s[0]) then "" else [s[0]] + SchemePrefix(s[1..])
  }

  /** Splits off a scheme: None for ":..." alone, ("", s) when there is none. */
  function SplitScheme(s: string): (r: Option<(string, string)>)
    ensures r.Some? ==> forall c :: c in r.value.1 ==> c in s
  {
    var scheme := SchemePrefix(s);
    if scheme == "" then (if s != "" && s[0] == ':' then None else Some(("", s)))
    else if !IsLetter(scheme[0]) then Some(("", s))
    else if |scheme| < |s| && s[|scheme|] == ':' then Some((scheme, s[|scheme| + 1..]))
    else Some(("", s))
  }

  function Decoded(x: char, y: char): char
    requires HexValue(x).Some? && HexValue(y).Some?
  {
    (HexValue(x).value * 16 + HexValue(y).value) as char
  }

  /** Percent-decoding of a path. */
  function Unescape(s: string): Option<string> {
    if s == "" then Some("")
    else if s[0] != '%' then
      var rest := Unescape(s[1..]);
      if rest.None? then None else Some([s[0]] + rest.value)
    else if |s| < 3 || HexValue(s[1]).None? || HexValue(s[2]).None? then None
    else
      var rest := Unescape(s[3..]);
      if rest.None? then None else Some([Decoded(s[1], s[2])] + rest.value)
  }

  function WithPath(host: string, rest: string): Option<Url> {
    var path := Unescape(rest);
    if path.None? then None else Some(Url(host, path.value))
  }

  /** What follows the scheme, with the query already cut off. */
  function ParseBody(lib: Lib, scheme: string, rest: string): Option<Url> {
    if rest == "" || rest[0] != '/' then
      if scheme != "" then Some(Url("", ""))
      else if ':' in Before(rest, '/') then None
      else WithPath("", rest)
    else if |rest| >= 2 && rest[1] == '/' && (scheme != "" || !(|rest| >= 3 && rest[2] == '/')) then
      var authority := Before(rest[2..], '/');
      var host := lib.host(AfterLast(authority, '@'));
      if host.None? || ('@' in authority && !lib.userOk(authority)) then None
      else WithPath(host.value, rest[2 + |authority|..])
    else WithPath("", rest)
  }

  predicate HasControl(s: string) {
    exists c :: c in s && IsControl(c)
  }

  function ParseUrl(lib: Lib, raw: string): Option<Url> {
    var u := Before(raw, '#');
    if Unescape(Rest(raw, '#')).None? || HasControl(u) then None
    else
      var split := SplitScheme(u);
      if split.None? then None else ParseBody(lib, split.value.0, Before(split.value.1, '?'))
  }

  // ---- the key -------------------------------------------------------------

  datatype Ref = Ref(owner: string, repo: string, kind: string, number: string)

  /** ^/([^/]+)/([^/]+)/(issues|<pull>)/(\d+) */
  function GithubRef(path: string, pull: string): Option<Ref> {
    if path == "" || path[0] != '/' then None
    else
      var owner := Before(path[1..], '/');
      var afterOwner := Rest(path[1..], '/');
      var repo := Before(afterOwner, '/');
      var afterRepo := Rest(afterOwner, '/');
      var kind := Before(afterRepo, '/');
      var number := Digits(Rest(afterRepo, '/'));
      if owner == "" || repo == "" || kind !in {"issues", pull} || number == "" then None
      else Some(Ref(owner, repo, kind, number))
  }

  function StripPrefix(s: string, prefix: string): Option<string> {
    if prefix <= s then Some(s[|prefix|..]) else None
  }

  /** /browse/{key}, or /rest/api/{digits}/issue/{key} with a key that is not all digits. */
  function JiraKey(path: string): (r: Option<string>)
    ensures r.Some? ==> r.value != "" && '/' !in r.value && forall c :: c in r.value ==> c in path
  {
    var browse := StripPrefix(path, "/browse/");
    if browse.Some? && browse.value != "" && Before(browse.value, '/') != "" then Some(Before(browse.value, '/'))
    else
      var api := StripPrefix(path, "/rest/api/");
      if api.None? then None
      else
        var digits := Digits(api.value);
        var issue := StripPrefix(api.value[|digits|..], "/issue/");
        if digits == "" || issue.None? then None
        else
          var key := Before(issue.value, '/');
          if key == "" || Digits(key) == key then None else Some(key)
  }

  function GithubPath(r: Ref): string {
    "/" + r.owner + "/" + r.repo + "/" + r.kind + "/" + r.number
  }

  /** The web form of a reference as the REST path names it. */
  function Renamed(api: Ref): Ref {
    api.(kind := if api.kind == "pulls" then "pull" else api.kind)
  }

  function KeyOf(u: Url): Option<Url> {
    if u.host == "github.com" then
      var m := GithubRef(u.path, "pull");
      if m.None? then None else Some(Url("github.com", GithubPath(m.value)))
    else if u.host == "api.github.com" then
      var m := if "/repos" <= u.path then GithubRef(u.path[6..], "pulls") else None;
      if m.None? then None
      else Some(Url("github.com", GithubPath(Renamed(m.value))))
    else if HasSuffix(u.host, ".atlassian.net") then
      var key := JiraKey(u.path);
      if key.None? then None else Some(Url(u.host, "/browse/" + key.value))
    else None
  }

  function Web(u: Url): string {
    "https://" + u.host + u.path
  }

  function RoutingKey(lib: Lib, raw: string): string {
    var u := ParseUrl(lib, raw);
    if u.None? then raw
    else
      var key := KeyOf(u.value);
      if key.None? then raw else Web(key.value)
  }

  // ---- parsing back what the key was built from ----------------------------

  lemma {:induction false} UnescapeIsIdentity(s: string)
    requires '%' !in s
    ensures Unescape(s) == Some(s)
  {
    if s != "" {
      assert s == [s[0]] + s[1..];
      UnescapeIsIdentity(s[1..]);
    }
  }

  /** No character that would end or spoil a path. */
  predicate Inert(s: string) {
    forall c :: c in s ==> c !in {'#', '?'} && !IsControl(c)
  }

  /** Nor one that would be decoded. */
  predicate Plain(s: string) {
    Inert(s) && '%' !in s
  }

  predicate HostText(s: string) {
    Inert(s) && '/' !in s && '@' !in s
  }

  predicate PlainUrl(u: Url) {
    HostText(u.host) && Plain(u.path) && "/" <= u.path
  }

  /** What is relied on of the library: a host without percent escapes is read
      as it stands, and no escape in a host hides a delimiter or control character. */
  ghost predicate Lawful(lib: Lib) {
    && (forall h :: lib.host(h).Some? && '%' !in h ==> lib.Reads(h))
    && (forall h :: lib.host(h).Some? && HostText(h) ==> HostText(lib.host(h).value))
  }

  /** A query, a fragment, or nothing. */
  predicate Trailer(s: string) {
    (s != "" ==> s[0] in {'?', '#'}) && forall c :: c in s ==> c != '%' && !IsControl(c)
  }

  /** s up to the first '?' or '#'. */
  function Cut(s: string): (r: string)
    ensures r <= s && '?' !in r && '#' !in r
    ensures |r| < |s| ==> s[|r|] in {'?', '#'}
  {
    Before(Before(s, '#'), '?')
  }

  lemma CutAppend(a: string, t: string)
    requires '?' !in a && '#' !in a
    ensures Cut(a + t) == a + Cut(t)
  {
    BeforeAppend(a, t, '#');
    BeforeAppend(a, Before(t, '#'), '?');
  }

  /** What is read from the text of a URL whose path was printed unescaped. */
  function Reread(lib: Lib, k: Url): Option<Url> {
    if Unescape(Rest(k.path, '#')).None? || HasControl(Before(k.path, '#')) || lib.host(k.host).None? then None
    else WithPath(lib.host(k.host).value, Cut(k.path))
  }

  lemma SchemeOfHttps(rest: string)
    ensures SplitScheme("https:" + rest) == Some(("https", rest))
  {
    var s := "https:" + rest;
    assert s[1..] == "ttps:" + rest;
    assert s[1..][1..] == "tps:" + rest;
    assert s[1..][1..][1..] == "ps:" + rest;
    assert s[1..][1..][1..][1..] == "s:" + rest;
    assert s[1..][1..][1..][1..][1..] == ":" + rest;
    assert SchemePrefix(":" + rest) == "";
    assert SchemePrefix("s:" + rest) == "s";
    assert SchemePrefix("ps:" + rest) == "ps";
    assert SchemePrefix("tps:" + rest) == "tps";
    assert SchemePrefix("ttps:" + rest) == "ttps";
    assert SchemePrefix(s) == "https";
    assert s[6..] == rest;
  }

  lemma BodyParses(lib: Lib, host: string, path: string)
    requires HostText(host) && "/" <= path
    ensures ParseBody(lib, "https", "//" + host + path)
         == if lib.host(host).None? then None else WithPath(lib.host(host).value, path)
  {
    var body := "//" + host + path;
    assert body[2..] == host + path;
    BeforeAppend(host, path, '/');
    assert Before(body[2..], '/') == host + "" == host;
    assert body[2 + |host|..] == path;
  }

  lemma WebScheme(host: string, path: string)
    ensures SplitScheme("https://" + host + path) == Some(("https", "//" + host + path))
  {
    var body := "//" + host + path;
    assert "https://" + host + path == "https:" + body;
    SchemeOfHttps(body);
  }

  lemma HeadIsInert(host: string)
    requires HostText(host)
    ensures Inert("https://" + host) && Inert("//" + host)
  {
  }

  lemma FrontParses(lib: Lib, raw: string, u: string, body: string)
    requires Before(raw, '#') == u && SplitScheme(u) == Some(("https", body))
    ensures ParseUrl(lib, raw) == if Unescape(Rest(raw, '#')).None? || HasControl(u) then None
                                  else ParseBody(lib, "https", Before(body, '?'))
  {
  }

  lemma ControlBehind(a: string, b: string)
    requires Inert(a)
    ensures HasControl(a + b) <==> HasControl(b)
  {
    if c :| c in b && IsControl(c) {
      assert c in a + b;
    }
  }

  /** The text of a host and path is read as Reread says. */
  lemma TextIsReread(lib: Lib, k: Url)
    requires HostText(k.host) && "/" <= k.path
    ensures ParseUrl(lib, Web(k)) == Reread(lib, k)
  {
    var head, front := "https://" + k.host, Before(k.path, '#');
    HeadIsInert(k.host);
    BeforeAppend(head, k.path, '#');
    ControlBehind(head, front);
    WebScheme(k.host, front);
    FrontParses(lib, Web(k), head + front, "//" + k.host + front);
    BeforeAppend("//" + k.host, front, '?');
    assert k.path[0] == '/' && "/" <= Cut(k.path) by { CutKeepsSlash(k.path); }
    BodyParses(lib, k.host, Cut(k.path));
  }

  lemma CutKeepsSlash(path: string)
    requires "/" <= path
    ensures "/" <= Cut(path)
  {
    assert path[0] == '/';
  }

  lemma InertJoin(a: string, t: string)
    requires Inert(a) && Trailer(t)
    ensures Cut(a + t) == a && Unescape(Rest(a + t, '#')).Some? && !HasControl(Before(a + t, '#'))
  {
    BeforeAppend(a, t, '#');
    CutAppend(a, t);
    assert Cut(t) == "" && a + "" == a;
    assert '%' !in Rest(t, '#') by {
      if '%' in Rest(t, '#') { RestIsWithin(t, '#', '%'); }
    }
    UnescapeIsIdentity(Rest(t, '#'));
  }

  lemma PlainConcat(a: string, b: string)
    requires Plain(a) && Plain(b)
    ensures Plain(a + b)
  {
  }

  /** The host a URL was printed from comes back, and its path decoded,
      whatever query or fragment follows. */
  lemma ParsesDecoded(lib: Lib, u: Url, t: string)
    requires lib.Reads(u.host) && HostText(u.host) && Inert(u.path) && "/" <= u.path && Trailer(t)
    ensures ParseUrl(lib, Web(u) + t) == WithPath(u.host, u.path)
  {
    InertJoin(u.path, t);
    assert Web(u) + t == Web(Url(u.host, u.path + t));
    TextIsReread(lib, Url(u.host, u.path + t));
  }

  lemma ParsesBack(lib: Lib, u: Url, t: string)
    requires lib.Reads(u.host) && PlainUrl(u) && Trailer(t)
    ensures ParseUrl(lib, Web(u) + t) == Some(u)
  {
    ParsesDecoded(lib, u, t);
    UnescapeIsIdentity(u.path);
  }

  // ---- reading back a canonical path ---------------------------------------

  predicate Segment(s: string) {
    s != "" && '/' !in s
  }

  predicate AllDigits(s: string) {
    s != "" && forall i :: 0 <= i < |s| ==> IsDigit(s[i])
  }

  predicate IsRef(r: Ref, pull: string) {
    Segment(r.owner) && Segment(r.repo) && r.kind in {"issues", pull} && AllDigits(r.number)
  }

  lemma {:induction false} DigitsStop(n: string, tail: string)
    requires forall i :: 0 <= i < |n| ==> IsDigit(n[i])
    requires tail == "" || !IsDigit(tail[0])
    ensures Digits(n + tail) == n
  {
    if n == "" {
      assert n + tail == tail;
    } else {
      assert (n + tail)[1..] == n[1..] + tail;
      DigitsStop(n[1..], tail);
    }
  }

  /** A segment, then the rest of the path after its slash. */
  lemma SegmentThen(s: string, rest: string)
    requires '/' !in s
    ensures Before(s + ("/" + rest), '/') == s && Rest(s + ("/" + rest), '/') == rest
  {
    BeforeAppend(s, "/" + rest, '/');
    assert Before("/" + rest, '/') == "";
  }

  lemma GithubPathParts(r: Ref, tail: string)
    ensures GithubPath(r) + tail
         == "/" + (r.owner + ("/" + (r.repo + ("/" + (r.kind + ("/" + (r.number + tail)))))))
  {
  }

  lemma GithubReadsBack(r: Ref, pull: string, tail: string)
    requires IsRef(r, pull) && '/' !in pull && (tail == "" || !IsDigit(tail[0]))
    ensures GithubRef(GithubPath(r) + tail, pull) == Some(r)
  {
    var n := r.number + tail;
    var afterRepo := r.kind + ("/" + n);
    var afterOwner := r.repo + ("/" + afterRepo);
    GithubPathParts(r, tail);
    SegmentThen(r.owner, afterOwner);
    SegmentThen(r.repo, afterRepo);
    SegmentThen(r.kind, n);
    DigitsStop(r.number, tail);
  }

  lemma GithubRefIsRef(path: string, pull: string)
    requires GithubRef(path, pull).Some?
    ensures IsRef(GithubRef(path, pull).value, pull)
  {
  }

  lemma StripsBack(prefix: string, rest: string)
    ensures StripPrefix(prefix + rest, prefix) == Some(rest)
  {
  }

  lemma SegmentEnds(key: string, tail: string)
    requires Segment(key) && (tail == "" || tail[0] == '/')
    ensures Before(key + tail, '/') == key && key + tail != ""
  {
    BeforeAppend(key, tail, '/');
    assert Before(tail, '/') == "";
  }

  lemma JiraReadsBack(key: string, tail: string)
    requires Segment(key) && (tail == "" || tail[0] == '/')
    ensures JiraKey("/browse/" + (key + tail)) == Some(key)
  {
    StripsBack("/browse/", key + tail);
    SegmentEnds(key, tail);
  }

  lemma JiraApiReadsBack(v: string, key: string, tail: string)
    requires AllDigits(v) && Segment(key) && !AllDigits(key) && (tail == "" || tail[0] == '/')
    ensures JiraKey("/rest/api/" + (v + ("/issue/" + (key + tail)))) == Some(key)
  {
    var issue := "/issue/" + (key + tail);
    var path := "/rest/api/" + (v + issue);
    assert path[1] == 'r' && "/browse/"[1] == 'b';
    assert StripPrefix(path, "/browse/").None?;
    StripsBack("/rest/api/", v + issue);
    DigitsStop(v, issue);
    assert (v + issue)[|v|..] == issue;
    StripsBack("/issue/", key + tail);
    SegmentEnds(key, tail);
  }

  // ---- what parsing leaves in host and path --------------------------------

  lemma ParsedHost(lib: Lib, raw: string)
    requires ParseUrl(lib, raw).Some? && Lawful(lib)
    ensures HostText(ParseUrl(lib, raw).value.host)
  {
    var u := Before(raw, '#');
    BodyHost(lib, SplitScheme(u).value.0, Before(SplitScheme(u).value.1, '?'));
  }

  lemma BodyHost(lib: Lib, scheme: string, rest: string)
    requires ParseBody(lib, scheme, rest).Some? && Inert(rest) && Lawful(lib)
    ensures HostText(ParseBody(lib, scheme, rest).value.host)
  {
    if |rest| >= 2 {
      var authority := Before(rest[2..], '/');
      assert forall c :: c in authority ==> c in rest;
      assert HostText(AfterLast(authority, '@'));
    }
  }

  lemma PlainWithPath(host: string, rest: string)
    requires Plain(rest)
    ensures WithPath(host, rest) == Some(Url(host, rest))
  {
    UnescapeIsIdentity(rest);
  }

  lemma PlainAuthority(rest: string)
    requires Plain(rest) && |rest| >= 2
    ensures var authority := Before(rest[2..], '/');
      Plain(AfterLast(authority, '@')) && Plain(rest[2 + |authority|..])
  {
    var authority := Before(rest[2..], '/');
    var after := rest[2 + |authority|..];
    assert forall c :: c in authority ==> c in rest;
    assert forall c :: c in after ==> c in rest;
    assert Inert(after);
  }

  lemma PlainBody(lib: Lib, scheme: string, rest: string)
    requires ParseBody(lib, scheme, rest).Some? && Plain(rest) && Lawful(lib)
    ensures var u := ParseBody(lib, scheme, rest).value; Plain(u.path) && (u.host == "" || lib.Reads(u.host))
  {
    PlainWithPath("", rest);
    if |rest| >= 2 {
      PlainAuthority(rest);
      var authority := Before(rest[2..], '/');
      var h := AfterLast(authority, '@');
      if lib.host(h).Some? {
        assert lib.Reads(h);
        PlainWithPath(h, rest[2 + |authority|..]);
      }
    }
  }

  lemma ParsedPlain(lib: Lib, raw: string)
    requires ParseUrl(lib, raw).Some? && '%' !in raw && Lawful(lib)
    ensures var u := ParseUrl(lib, raw).value; Plain(u.path) && (u.host == "" || lib.Reads(u.host))
  {
    var u := Before(raw, '#');
    var rest := Before(SplitScheme(u).value.1, '?');
    assert Plain(rest);
    PlainBody(lib, SplitScheme(u).value.0, rest);
  }

  // ---- the key is stable ---------------------------------------------------

  lemma SplitsAt(s: string)
    requires Rest(s, '/') != ""
    ensures s == Before(s, '/') + ("/" + Rest(s, '/'))
  {
  }

  lemma {:induction false} AfterDigits(s: string) returns (tail: string)
    ensures s == Digits(s) + tail && (tail == "" || !IsDigit(tail[0]))
  {
    tail := s[|Digits(s)|..];
    if s != "" && IsDigit(s[0]) {
      var t := AfterDigits(s[1..]);
      assert s == [s[0]] + s[1..];
      assert tail == t;
    }
  }

  lemma Assembled(path: string, s1: string, s2: string, s3: string, s4: string, r: Ref, tail: string)
    requires path == "/" + s1 && s1 == r.owner + ("/" + s2) && s2 == r.repo + ("/" + s3)
    requires s3 == r.kind + ("/" + s4) && s4 == r.number + tail
    ensures path == GithubPath(r) + tail
  {
    GithubPathParts(r, tail);
  }

  lemma GithubParts(path: string, pull: string, r: Ref) returns (s1: string, s2: string, s3: string, s4: string)
    requires GithubRef(path, pull) == Some(r)
    ensures path == "/" + s1 && s1 == r.owner + ("/" + s2) && s2 == r.repo + ("/" + s3)
    ensures s3 == r.kind + ("/" + s4) && Digits(s4) == r.number
  {
    s1 := path[1..];
    s2 := Rest(s1, '/');
    s3 := Rest(s2, '/');
    s4 := Rest(s3, '/');
    assert path == "/" + s1 && r == Ref(Before(s1, '/'), Before(s2, '/'), Before(s3, '/'), Digits(s4));
    SplitsAt(s1);
    SplitsAt(s2);
    SplitsAt(s3);
  }

  /** Every recognised path is a canonical one with something after the number. */
  lemma GithubTakesApart(path: string, pull: string, r: Ref) returns (tail: string)
    requires GithubRef(path, pull) == Some(r)
    ensures path == GithubPath(r) + tail && (tail == "" || !IsDigit(tail[0]))
  {
    var s1, s2, s3, s4 := GithubParts(path, pull, r);
    tail := AfterDigits(s4);
    Assembled(path, s1, s2, s3, s4, r, tail);
  }

  /** Two references with the same path in front are the same reference. */
  lemma OnePathOneRef(a: Ref, b: Ref, pull: string, more: string)
    requires IsRef(a, pull) && IsRef(b, pull) && '/' !in pull
    requires GithubPath(a) == GithubPath(b) + more && (more == "" || !IsDigit(more[0]))
    ensures a == b
  {
    assert GithubPath(a) + "" == GithubPath(a);
    GithubReadsBack(a, pull, "");
    GithubReadsBack(b, pull, more);
  }

  predicate JiraHost(h: string) {
    h != "github.com" && h != "api.github.com" && HasSuffix(h, ".atlassian.net")
  }

  lemma WebKey(path: string, r: Ref)
    requires GithubRef(path, "pull") == Some(r)
    ensures KeyOf(Url("github.com", path)) == Some(Url("github.com", GithubPath(r)))
  {
  }

  lemma BrowseKey(h: string, key: string)
    requires JiraHost(h) && Segment(key)
    ensures KeyOf(Url(h, "/browse/" + key)) == Some(Url(h, "/browse/" + key))
  {
    assert key + "" == key;
    JiraReadsBack(key, "");
  }

  lemma GithubRefFrom(path: string, pull: string, r: Ref)
    requires GithubRef(path, pull) == Some(r)
    ensures IsRef(r, pull) && |GithubPath(r)| <= |path|
    ensures Plain(path) ==> Plain(r.owner) && Plain(r.repo)
  {
    GithubRefIsRef(path, pull);
    GithubRefChars(path, pull, r);
    var tail := GithubTakesApart(path, pull, r);
  }

  lemma RenamedIsRef(api: Ref)
    requires IsRef(api, "pulls")
    ensures IsRef(Renamed(api), "pull") && |GithubPath(Renamed(api))| <= |GithubPath(api)|
  {
  }

  lemma ApiSource(u: Url) returns (path: string, api: Ref)
    requires u.host == "api.github.com" && KeyOf(u).Some?
    ensures GithubRef(path, "pulls") == Some(api) && |path| <= |u.path| && (Plain(u.path) ==> Plain(path))
    ensures KeyOf(u) == Some(Url("github.com", GithubPath(Renamed(api))))
  {
    path := u.path[6..];
    assert forall c :: c in path ==> c in u.path;
    api := GithubRef(path, "pulls").value;
  }

  /** The reference a GitHub key was made from. */
  lemma GithubSource(u: Url) returns (r: Ref)
    requires KeyOf(u).Some? && !JiraHost(u.host)
    ensures KeyOf(u) == Some(Url("github.com", GithubPath(r))) && IsRef(r, "pull")
    ensures |GithubPath(r)| <= |u.path|
    ensures Plain(u.path) ==> Plain(r.owner) && Plain(r.repo)
  {
    if u.host == "github.com" {
      r := GithubRef(u.path, "pull").value;
      GithubRefFrom(u.path, "pull", r);
    } else {
      var path, api := ApiSource(u);
      GithubRefFrom(path, "pulls", api);
      RenamedIsRef(api);
      r := Renamed(api);
    }
  }

  lemma GithubRefChars(path: string, pull: string, r: Ref)
    requires GithubRef(path, pull) == Some(r)
    ensures Plain(path) ==> Plain(r.owner) && Plain(r.repo)
  {
    var s1, s2, s3, s4 := GithubParts(path, pull, r);
    assert forall c :: c in s1 ==> c in path;
    assert forall c :: c in r.owner || c in s2 ==> c in s1;
    assert forall c :: c in r.repo ==> c in s2;
  }

  lemma JiraKeyNoLonger(path: string)
    requires JiraKey(path).Some?
    ensures |"/browse/" + JiraKey(path).value| <= |path|
  {
  }

  lemma BrowseIsPlain(key: string)
    ensures "/" <= "/browse/" + key && (Plain(key) ==> Plain("/browse/" + key))
  {
    if Plain(key) {
      PlainConcat("/browse/", key);
    }
  }

  lemma JiraKeyFrom(u: Url, k: Url)
    requires JiraHost(u.host) && KeyOf(u) == Some(k)
    ensures JiraKey(u.path).Some? && k == Url(u.host, "/browse/" + JiraKey(u.path).value)
  {
  }

  lemma JiraKeyIsItsOwn(u: Url, k: Url)
    requires JiraHost(u.host) && KeyOf(u) == Some(k)
    ensures KeyOf(k) == Some(k) && "/" <= k.path && |k.path| <= |u.path| && k.host == u.host
    ensures Plain(u.path) ==> Plain(k.path)
  {
    JiraKeyFrom(u, k);
    var key := JiraKey(u.path).value;
    BrowseKey(u.host, key);
    JiraKeyNoLonger(u.path);
    BrowseIsPlain(key);
    assert Plain(u.path) ==> Plain(key);
  }

  lemma GithubReadsItself(r: Ref)
    requires IsRef(r, "pull")
    ensures GithubRef(GithubPath(r), "pull") == Some(r)
  {
    NothingAfter(GithubPath(r));
    GithubReadsBack(r, "pull", "");
  }

  lemma NothingAfter(s: string)
    ensures s + "" == s
  {
  }

  lemma RefPathIsPlain(r: Ref)
    requires IsRef(r, "pull")
    ensures "/" <= GithubPath(r) && (Plain(r.owner) && Plain(r.repo) ==> Plain(GithubPath(r)))
  {
    if Plain(r.owner) && Plain(r.repo) {
      GithubPathIsPlain(r, "");
      NothingAfter(GithubPath(r));
    }
  }

  lemma RefKeyIsItsOwn(r: Ref)
    requires IsRef(r, "pull")
    ensures KeyOf(Url("github.com", GithubPath(r))) == Some(Url("github.com", GithubPath(r)))
  {
    GithubReadsItself(r);
    WebKey(GithubPath(r), r);
  }

  /** A key is its own key, and no longer than the path it came from. */
  lemma KeyIsItsOwn(u: Url, k: Url)
    requires KeyOf(u) == Some(k)
    ensures KeyOf(k) == Some(k) && "/" <= k.path && |k.path| <= |u.path|
    ensures k.host == if JiraHost(u.host) then u.host else "github.com"
    ensures Plain(u.path) ==> Plain(k.path)
  {
    if JiraHost(u.host) {
      JiraKeyIsItsOwn(u, k);
    } else {
      var r := GithubSource(u);
      RefKeyIsItsOwn(r);
      RefPathIsPlain(r);
    }
  }

  lemma {:induction false} UnescapeShortens(s: string)
    requires Unescape(s).Some?
    ensures |Unescape(s).value| <= |s| && ('%' in s ==> |Unescape(s).value| < |s|)
    decreases |s|
  {
    if s == "" {
    } else if s[0] != '%' {
      assert s == [s[0]] + s[1..];
      UnescapeShortens(s[1..]);
    } else {
      UnescapeShortens(s[3..]);
    }
  }

  /** A character that means something else when the text is read again. */
  predicate Special(s: string) {
    '?' in s || '#' in s || '%' in s
  }

  lemma RereadShortens(lib: Lib, k: Url)
    requires Reread(lib, k).Some?
    ensures Special(k.path) ==> |Reread(lib, k).value.path| < |k.path|
    ensures !Special(k.path) ==> Reread(lib, k).value.path == k.path
  {
    var q := Cut(k.path);
    UnescapeShortens(q);
    if !Special(k.path) {
      assert |q| == |k.path| && q == k.path;
      UnescapeIsIdentity(q);
    } else if q == k.path {
      assert '%' in q;
    }
  }

  /** The text of a key is recognised when it is read again. */
  predicate RecognisedAgain(lib: Lib, k: Url) {
    Reread(lib, k).Some? && KeyOf(Reread(lib, k).value).Some?
  }

  lemma SecondKey(lib: Lib, k: Url, again: Url)
    requires lib.Reads("github.com") && KeyOf(k) == Some(k) && (k.host == "github.com" || JiraHost(k.host))
    requires Reread(lib, k).Some? && KeyOf(Reread(lib, k).value) == Some(again)
    ensures again == k <==> !Special(k.path) && lib.Reads(k.host)
  {
    var u := Reread(lib, k).value;
    RereadShortens(lib, k);
    KeyIsItsOwn(u, again);
    if u.host == k.host && !Special(k.path) {
      assert u == k;
    }
  }

  lemma WebInjective(a: Url, b: Url)
    requires HostText(a.host) && HostText(b.host) && "/" <= a.path && "/" <= b.path
    requires Web(a) == Web(b)
    ensures a == b
  {
    var front := "https://";
    assert Web(a) == front + (a.host + a.path) && Web(b) == front + (b.host + b.path);
    assert a.host + a.path == Web(a)[|front|..] == b.host + b.path;
    BeforeAppend(a.host, a.path, '/');
    BeforeAppend(b.host, b.path, '/');
    assert Before(a.path, '/') == "" == Before(b.path, '/');
    assert a.host + "" == a.host && b.host + "" == b.host;
    assert a.path == (a.host + a.path)[|a.host|..] && b.path == (b.host + b.path)[|b.host|..];
  }

  lemma GithubIsHostText()
    ensures HostText("github.com") && HostText("api.github.com")
  {
    assert "api.github.com" == "api." + "github.com";
    assert Inert("api.") && Inert("github.com");
  }

  lemma KeyHosts(lib: Lib, u: Url, k: Url)
    requires Lawful(lib) && HostText(u.host) && KeyOf(u) == Some(k)
    ensures HostText(k.host)
  {
    KeyIsItsOwn(u, k);
    GithubIsHostText();
  }

  lemma TextOfAnother(lib: Lib, k: Url, u: Url, again: Url)
    requires lib.Reads("github.com") && Lawful(lib) && HostText(k.host) && KeyOf(k) == Some(k) && "/" <= k.path
    requires k.host == "github.com" || JiraHost(k.host)
    requires Reread(lib, k) == Some(u) && KeyOf(u) == Some(again)
    ensures Web(again) == Web(k) <==> !(Special(k.path) || !lib.Reads(k.host))
  {
    assert u.host == lib.host(k.host).value;
    KeyIsItsOwn(u, again);
    KeyHosts(lib, u, again);
    SecondKey(lib, k, again);
    if Web(again) == Web(k) {
      WebInjective(again, k);
    }
  }

  lemma KeyFollowsText(lib: Lib, k: Url)
    requires HostText(k.host) && "/" <= k.path
    ensures RoutingKey(lib, Web(k))
         == if RecognisedAgain(lib, k) then Web(KeyOf(Reread(lib, k).value).value) else Web(k)
  {
    TextIsReread(lib, k);
  }

  /** The key of a key differs from it exactly when its text is recognised again
      and either its path holds a character that means something else there or
      its host is read as another. */
  lemma KeyOfKey(lib: Lib, u: Url, k: Url)
    requires lib.Reads("github.com") && Lawful(lib) && HostText(u.host) && KeyOf(u) == Some(k)
    ensures RoutingKey(lib, Web(k)) == Web(k) <==>
      !(RecognisedAgain(lib, k) && (Special(k.path) || !lib.Reads(k.host)))
  {
    KeyIsItsOwn(u, k);
    KeyHosts(lib, u, k);
    KeyFollowsText(lib, k);
    if RecognisedAgain(lib, k) {
      TextOfAnother(lib, k, Reread(lib, k).value, KeyOf(Reread(lib, k).value).value);
    }
  }

  /** The raw URLs whose key has another key. */
  predicate Unstable(lib: Lib, raw: string) {
    var u := ParseUrl(lib, raw);
    && u.Some? && KeyOf(u.value).Some?
    && var k := KeyOf(u.value).value;
       RecognisedAgain(lib, k) && (Special(k.path) || !lib.Reads(k.host))
  }

  /** Taking the key twice is taking it once, exactly outside those. */
  lemma StableExactly(lib: Lib, raw: string)
    requires lib.Reads("github.com") && Lawful(lib)
    ensures RoutingKey(lib, RoutingKey(lib, raw)) == RoutingKey(lib, raw) <==> !Unstable(lib, raw)
  {
    var u := ParseUrl(lib, raw);
    if u.Some? && KeyOf(u.value).Some? {
      ParsedHost(lib, raw);
      KeyOfKey(lib, u.value, KeyOf(u.value).value);
    }
  }

  /** For URLs without percent escapes the key is always a fixed point. */
  lemma EscapeFreeIsStable(lib: Lib, raw: string)
    requires lib.Reads("github.com") && Lawful(lib) && '%' !in raw
    ensures RoutingKey(lib, RoutingKey(lib, raw)) == RoutingKey(lib, raw)
  {
    var u := ParseUrl(lib, raw);
    if u.Some? && KeyOf(u.value).Some? {
      ParsedPlain(lib, raw);
      KeyIsItsOwn(u.value, KeyOf(u.value).value);
    }
    StableExactly(lib, raw);
  }

  /** Spelled out for a Jira key: it is recognised again exactly when what stands
      before a query or fragment decodes to a key or to one and more segments, and
      the rest of it can be read. */
  lemma JiraRecognisedAgain(lib: Lib, h: string, key: string)
    requires lib.Reads(h) && JiraHost(h)
    ensures RecognisedAgain(lib, Url(h, "/browse/" + key)) <==>
      && Unescape(Rest(key, '#')).Some? && !HasControl(Before(key, '#'))
      && Unescape(Cut(key)).Some? && Unescape(Cut(key)).value != "" && Unescape(Cut(key)).value[0] != '/'
  {
    var front := "/browse/";
    assert Inert(front) && '%' !in front;
    BeforeAppend(front, key, '#');
    ControlBehind(front, Before(key, '#'));
    CutAppend(front, key);
    UnescapeIsIdentity(front);
    UnescapeJoin(front, Cut(key));
    if Unescape(Cut(key)).Some? {
      BrowseKeyExactly(Unescape(Cut(key)).value);
    }
  }

  lemma BrowseKeyExactly(rest: string)
    ensures JiraKey("/browse/" + rest).Some? <==> rest != "" && rest[0] != '/'
  {
    var path := "/browse/" + rest;
    assert path[1] == 'b' && "/rest/api/"[1] == 'r';
    assert StripPrefix(path, "/rest/api/").None?;
    StripsBack("/browse/", rest);
  }

  lemma {:induction false} UnescapeJoin(a: string, s: string)
    requires Unescape(a).Some?
    ensures Unescape(a + s).Some? <==> Unescape(s).Some?
    ensures Unescape(s).Some? ==> Unescape(a + s).value == Unescape(a).value + Unescape(s).value
    decreases |a|
  {
    if a == "" {
      assert a + s == s;
    } else {
      UnescapeStep(a);
      FrontOfJoin(a, s);
      var (c, n) := FrontChar(a).value;
      UnescapeJoin(a[n..], s);
      UnescapeStep(a + s);
      if Unescape(s).Some? {
        OneBefore(c, Unescape(a[n..]).value, Unescape(s).value);
      }
    }
  }

  lemma OneBefore(c: char, a: string, s: string)
    ensures [c] + (a + s) == ([c] + a) + s
  {
  }

  lemma FrontOfJoin(a: string, s: string)
    requires a != "" && FrontChar(a).Some?
    ensures FrontChar(a + s) == FrontChar(a) && FrontChar(a).value.1 <= |a|
    ensures (a + s)[FrontChar(a).value.1..] == a[FrontChar(a).value.1..] + s
  {
    assert forall i :: 0 <= i < |a| ==> (a + s)[i] == a[i];
  }

  /** The character at the front of an escaped text and how long it is. */
  function FrontChar(s: string): Option<(char, nat)>
    requires s != ""
  {
    if s[0] != '%' then Some((s[0], 1))
    else if |s| < 3 || HexValue(s[1]).None? || HexValue(s[2]).None? then None
    else Some((Decoded(s[1], s[2]), 3))
  }

  lemma UnescapeStep(s: string)
    requires s != ""
    ensures FrontChar(s).None? ==> Unescape(s).None?
    ensures FrontChar(s).Some? ==>
      var (c, n) := FrontChar(s).value;
      n <= |s| && Unescape(s) == if Unescape(s[n..]).None? then None else Some([c] + Unescape(s[n..]).value)
  {
  }

  // ---- one resource, one key -----------------------------------------------

  /** The ending of a path: nothing, or something the number does not run into. */
  predicate PathTail(s: string) {
    Plain(s) && (s != "" ==> s[0] == '/')
  }

  predicate PlainRef(r: Ref) {
    IsRef(r, "pull") && Plain(r.owner) && Plain(r.repo)
  }

  function GithubWebUrl(r: Ref, tail: string): Url {
    Url("github.com", GithubPath(r) + tail)
  }

  /** The REST form names a pull request's kind "pulls". */
  function ApiRef(r: Ref): Ref {
    r.(kind := if r.kind == "pull" then "pulls" else r.kind)
  }

  function GithubApiUrl(r: Ref, tail: string): Url {
    Url("api.github.com", "/repos" + (GithubPath(ApiRef(r)) + tail))
  }

  lemma GithubPathIsPlain(r: Ref, tail: string)
    requires Plain(r.owner) && Plain(r.repo) && Plain(r.kind) && AllDigits(r.number) && Plain(tail)
    ensures Plain(GithubPath(r) + tail) && "/" <= GithubPath(r) + tail
  {
    assert forall c :: c in r.number ==> IsDigit(c);
    assert Plain(GithubPath(r));
    PlainConcat(GithubPath(r), tail);
  }

  lemma KeyFollows(lib: Lib, u: Url, k: Url, trailer: string)
    requires lib.Reads(u.host) && PlainUrl(u) && Trailer(trailer) && KeyOf(u) == Some(k)
    ensures RoutingKey(lib, Web(u) + trailer) == Web(k)
  {
    ParsesBack(lib, u, trailer);
  }

  lemma ApiKey(path: string, api: Ref, r: Ref)
    requires GithubRef(path, "pulls") == Some(api)
    requires r == Renamed(api)
    ensures KeyOf(Url("api.github.com", "/repos" + path)) == Some(Url("github.com", GithubPath(r)))
  {
    var u := Url("api.github.com", "/repos" + path);
    assert u.host != "github.com" by { assert u.host[0] != "github.com"[0]; }
    assert "/repos" <= u.path && u.path[6..] == path;
  }

  lemma GithubWebForm(lib: Lib, r: Ref, tail: string, trailer: string)
    requires lib.Reads("github.com") && PlainRef(r) && PathTail(tail) && Trailer(trailer)
    ensures RoutingKey(lib, Web(GithubWebUrl(r, tail)) + trailer) == Web(Url("github.com", GithubPath(r)))
  {
    GithubPathIsPlain(r, tail);
    GithubIsHostText();
    GithubReadsBack(r, "pull", tail);
    WebKey(GithubPath(r) + tail, r);
    KeyFollows(lib, GithubWebUrl(r, tail), Url("github.com", GithubPath(r)), trailer);
  }

  lemma ApiUrlIsPlain(r: Ref, tail: string)
    requires PlainRef(r) && PathTail(tail)
    ensures PlainUrl(GithubApiUrl(r, tail))
  {
    GithubPathIsPlain(ApiRef(r), tail);
    PlainConcat("/repos", GithubPath(ApiRef(r)) + tail);
    GithubIsHostText();
  }

  lemma ApiUrlKey(r: Ref, tail: string)
    requires PlainRef(r) && PathTail(tail)
    ensures KeyOf(GithubApiUrl(r, tail)) == Some(Url("github.com", GithubPath(r)))
  {
    GithubReadsBack(ApiRef(r), "pulls", tail);
    ApiKey(GithubPath(ApiRef(r)) + tail, ApiRef(r), r);
  }

  lemma GithubApiForm(lib: Lib, r: Ref, tail: string, trailer: string)
    requires lib.Reads("api.github.com") && PlainRef(r) && PathTail(tail) && Trailer(trailer)
    ensures RoutingKey(lib, Web(GithubApiUrl(r, tail)) + trailer) == Web(Url("github.com", GithubPath(r)))
  {
    ApiUrlIsPlain(r, tail);
    ApiUrlKey(r, tail);
    KeyFollows(lib, GithubApiUrl(r, tail), Url("github.com", GithubPath(r)), trailer);
  }

  /** Comments, sub-pages, query strings and the REST form of one GitHub issue
      or pull request all have its web URL as their key. */
  lemma GithubFormsAgree(lib: Lib, r: Ref, tail: string, trailer: string)
    requires lib.Reads("github.com") && lib.Reads("api.github.com")
    requires PlainRef(r) && PathTail(tail) && Trailer(trailer)
    ensures RoutingKey(lib, Web(GithubWebUrl(r, tail)) + trailer) == Web(GithubWebUrl(r, ""))
    ensures RoutingKey(lib, Web(GithubApiUrl(r, tail)) + trailer) == Web(GithubWebUrl(r, ""))
  {
    assert GithubPath(r) + "" == GithubPath(r);
    GithubWebForm(lib, r, tail, trailer);
    GithubApiForm(lib, r, tail, trailer);
  }

  /** Different issues and pull requests have different keys. */
  lemma GithubKeysAreDistinct(a: Ref, b: Ref)
    requires IsRef(a, "pull") && IsRef(b, "pull")
    requires Web(GithubWebUrl(a, "")) == Web(GithubWebUrl(b, ""))
    ensures a == b
  {
    var front := "https://github.com";
    assert front + GithubPath(a) == Web(GithubWebUrl(a, "")) && (front + GithubPath(a))[|front|..] == GithubPath(a);
    assert front + GithubPath(b) == Web(GithubWebUrl(b, "")) && (front + GithubPath(b))[|front|..] == GithubPath(b);
    assert GithubPath(b) + "" == GithubPath(b);
    OnePathOneRef(a, b, "pull", "");
  }

  /** The browse form and the REST form of one Jira issue share its browse URL
      as their key, provided the REST form names a key and not a numeric id. */
  lemma JiraFormsAgree(lib: Lib, h: string, key: string, v: string, tail: string, trailer: string)
    requires lib.Reads(h) && JiraHost(h) && Plain(h) && '/' !in h && '@' !in h
    requires Segment(key) && Plain(key) && !AllDigits(key) && AllDigits(v) && PathTail(tail) && Trailer(trailer)
    ensures RoutingKey(lib, Web(Url(h, "/browse/" + (key + tail))) + trailer) == Web(Url(h, "/browse/" + key))
    ensures RoutingKey(lib, Web(Url(h, "/rest/api/" + (v + ("/issue/" + (key + tail))))) + trailer)
         == Web(Url(h, "/browse/" + key))
  {
    JiraPathsArePlain(key, v, tail);
    ParsesBack(lib, Url(h, "/browse/" + (key + tail)), trailer);
    JiraReadsBack(key, tail);
    ParsesBack(lib, Url(h, "/rest/api/" + (v + ("/issue/" + (key + tail)))), trailer);
    JiraApiReadsBack(v, key, tail);
  }

  lemma JiraPathsArePlain(key: string, v: string, tail: string)
    requires Plain(key) && AllDigits(v) && Plain(tail)
    ensures Plain("/browse/" + (key + tail)) && "/" <= "/browse/" + (key + tail)
    ensures Plain("/rest/api/" + (v + ("/issue/" + (key + tail)))) && "/" <= "/rest/api/" + (v + ("/issue/" + (key + tail)))
  {
    assert forall c :: c in v ==> IsDigit(c);
    PlainConcat(key, tail);
    PlainConcat("/browse/", key + tail);
    PlainConcat("/issue/", key + tail);
    PlainConcat(v, "/issue/" + (key + tail));
    PlainConcat("/rest/api/", v + ("/issue/" + (key + tail)));
  }

  // ---- keys that change ----------------------------------------------------

  lemma KeyFollowsDecoded(lib: Lib, u: Url, path: string, k: Url)
    requires lib.Reads(u.host) && HostText(u.host) && Inert(u.path) && "/" <= u.path
    requires Unescape(u.path) == Some(path) && KeyOf(Url(u.host, path)) == Some(k)
    ensures RoutingKey(lib, Web(u)) == Web(k)
  {
    ParsesDecoded(lib, u, "");
    assert Web(u) + "" == Web(u);
  }

  /** An escaped question mark in a Jira key is decoded the first time and
      starts a query the second time. */
  lemma EscapedKeyIsNotStable(lib: Lib, h: string, a: string, b: string)
    requires lib.Reads(h) && HostText(h) && JiraHost(h) && Segment(a) && Plain(a) && Plain(b) && '/' !in b
    ensures RoutingKey(lib, Web(Url(h, "/browse/" + (a + ("%3F" + b))))) == Web(Url(h, "/browse/" + (a + ("?" + b))))
    ensures RoutingKey(lib, Web(Url(h, "/browse/" + (a + ("?" + b))))) == Web(Url(h, "/browse/" + a))
  {
    EscapedKeyDecodes(lib, h, a, b);
    DecodedKeyIsCut(lib, h, a, b);
  }

  lemma EscapedKeyDecodes(lib: Lib, h: string, a: string, b: string)
    requires lib.Reads(h) && HostText(h) && JiraHost(h) && Segment(a) && Plain(a) && Plain(b) && '/' !in b
    ensures RoutingKey(lib, Web(Url(h, "/browse/" + (a + ("%3F" + b))))) == Web(Url(h, "/browse/" + (a + ("?" + b))))
  {
    var key, front := a + ("?" + b), "/browse/" + a;
    PlainConcat("/browse/", a);
    DecodesEscape(front, '3', 'F', b, "");
    EscapeIsInert(front, '3', 'F', b, "");
    assert "/browse/" + (a + ("%3F" + b)) == front + (['%', '3', 'F'] + b) + "";
    assert "/browse/" + key == front + (['?'] + b) + "";
    BrowseKey(h, key);
    KeyFollowsDecoded(lib, Url(h, "/browse/" + (a + ("%3F" + b))), "/browse/" + key, Url(h, "/browse/" + key));
  }

  lemma WebThen(h: string, path: string, t: string)
    ensures Web(Url(h, path)) + t == Web(Url(h, path + t))
  {
  }

  lemma Regrouped(a: string, b: string, c: string)
    ensures (a + b) + c == a + (b + c)
  {
  }

  lemma DecodedKeyIsCut(lib: Lib, h: string, a: string, b: string)
    requires lib.Reads(h) && HostText(h) && JiraHost(h) && Segment(a) && Plain(a) && Plain(b)
    ensures RoutingKey(lib, Web(Url(h, "/browse/" + (a + ("?" + b))))) == Web(Url(h, "/browse/" + a))
  {
    BrowseKey(h, a);
    PlainConcat("/browse/", a);
    KeyFollows(lib, Url(h, "/browse/" + a), Url(h, "/browse/" + a), "?" + b);
    WebThen(h, "/browse/" + a, "?" + b);
    Regrouped("/browse/", a, "?" + b);
  }

  lemma EscapeIsInert(a: string, x: char, y: char, b: string, c: string)
    requires Inert(a) && Inert(b) && Inert(c) && HexValue(x).Some? && HexValue(y).Some?
    ensures Inert(a + (['%', x, y] + b) + c)
  {
    assert Inert(['%', x, y] + b);
    assert Inert(a + (['%', x, y] + b));
  }

  lemma DecodesEscape(a: string, x: char, y: char, b: string, c: string)
    requires '%' !in a && '%' !in b && '%' !in c && HexValue(x).Some? && HexValue(y).Some?
    ensures Unescape(a + (['%', x, y] + b) + c) == Some(a + ([Decoded(x, y)] + b) + c)
  {
    var s := ['%', x, y] + b;
    assert s[3..] == b;
    UnescapeIsIdentity(a);
    UnescapeIsIdentity(b);
    UnescapeIsIdentity(c);
    assert Unescape(s) == Some([Decoded(x, y)] + b);
    UnescapeJoin(a, s);
    UnescapeJoin(a + s, c);
  }

  /** A reference whose owner holds an escape, decoded or not. */
  function Escaped(r: Ref, a: string, middle: string, b: string): Ref {
    r.(owner := a + (middle + b))
  }

  function AfterOwner(r: Ref): string {
    "/" + r.repo + "/" + r.kind + "/" + r.number
  }

  lemma EscapedPath(r: Ref, a: string, middle: string, b: string)
    ensures GithubPath(Escaped(r, a, middle, b)) == ("/" + a) + (middle + b) + AfterOwner(r)
  {
  }

  lemma AfterOwnerIsPlain(r: Ref)
    requires r.kind in {"issues", "pull"} && AllDigits(r.number) && Plain(r.repo)
    ensures Plain(AfterOwner(r))
  {
    assert forall c :: c in r.number ==> IsDigit(c);
  }

  lemma EscapedOwnerKey(lib: Lib, r: Ref, a: string, x: char, y: char, b: string)
    requires lib.Reads("github.com") && Plain(a) && Plain(b) && HexValue(x).Some? && HexValue(y).Some?
    requires IsRef(Escaped(r, a, [Decoded(x, y)], b), "pull") && Plain(r.repo)
    ensures RoutingKey(lib, Web(Url("github.com", GithubPath(Escaped(r, a, ['%', x, y], b)))))
         == Web(Url("github.com", GithubPath(Escaped(r, a, [Decoded(x, y)], b))))
  {
    var before, after := Escaped(r, a, ['%', x, y], b), Escaped(r, a, [Decoded(x, y)], b);
    AfterOwnerIsPlain(r);
    PlainConcat("/", a);
    EscapedPath(r, a, ['%', x, y], b);
    EscapedPath(r, a, [Decoded(x, y)], b);
    DecodesEscape("/" + a, x, y, b, AfterOwner(r));
    EscapeIsInert("/" + a, x, y, b, AfterOwner(r));
    RefKeyIsItsOwn(after);
    GithubIsHostText();
    KeyFollowsDecoded(lib, Url("github.com", GithubPath(before)), GithubPath(after), Url("github.com", GithubPath(after)));
  }

  /** An owner escaped twice loses one level each time the key is taken. */
  lemma DoublyEscapedIsNotStable(lib: Lib, r: Ref, a: string, x: char, y: char, b: string)
    requires lib.Reads("github.com") && Plain(a) && Plain(b) && HexValue(x).Some? && HexValue(y).Some?
    requires IsRef(Escaped(r, a, [Decoded(x, y)], b), "pull") && Plain(r.repo) && '/' !in a && '/' !in b
    ensures RoutingKey(lib, Web(Url("github.com", GithubPath(Escaped(r, a, "%25", [x, y] + b)))))
         == Web(Url("github.com", GithubPath(Escaped(r, a, "%", [x, y] + b))))
    ensures RoutingKey(lib, Web(Url("github.com", GithubPath(Escaped(r, a, "%", [x, y] + b)))))
         == Web(Url("github.com", GithubPath(Escaped(r, a, [Decoded(x, y)], b))))
  {
    assert Decoded('2', '5') == '%' && ['%', '2', '5'] == "%25" && ['%'] == "%";
    assert a + ("%" + ([x, y] + b)) == a + (['%', x, y] + b);
    assert Escaped(r, a, "%", [x, y] + b) == Escaped(r, a, ['%', x, y], b);
    assert x != '/' && y != '/' && Plain([x, y]);
    PlainConcat([x, y], b);
    EscapedOwnerKey(lib, r, a, '2', '5', [x, y] + b);
    EscapedOwnerKey(lib, r, a, x, y, b);
  }
}
