/** Which URLs have a key of their own resource, and which are left as they
    are. Follows internal/model/url.go. */
module RoutingForms {
  import opened Options
  import opened Strings
  import opened RoutingKeys

  // ---- which paths name a resource -----------------------------------------

  predicate NamesRef(path: string, r: Ref, tail: string) {
    path == GithubPath(r) + tail && (tail == "" || !IsDigit(tail[0]))
  }

  /** A path names an issue or pull request exactly when it is that one's path,
      with anything after the number but another digit. */
  lemma GithubRefExactly(path: string, pull: string, r: Ref)
    requires '/' !in pull
    ensures GithubRef(path, pull) == Some(r) <==> IsRef(r, pull) && exists tail :: NamesRef(path, r, tail)
  {
    if GithubRef(path, pull) == Some(r) {
      GithubRefIsRef(path, pull);
      var tail := GithubTakesApart(path, pull, r);
      assert NamesRef(path, r, tail);
    }
    if tail :| IsRef(r, pull) && NamesRef(path, r, tail) {
      GithubReadsBack(r, pull, tail);
    }
  }

  predicate PathEnd(tail: string) {
    tail == "" || tail[0] == '/'
  }

  predicate NamesBrowse(path: string, key: string, tail: string) {
    PathEnd(tail) && path == "/browse/" + (key + tail)
  }

  predicate NamesIssue(path: string, v: string, key: string, tail: string) {
    PathEnd(tail) && AllDigits(v) && !AllDigits(key) && path == "/rest/api/" + (v + ("/issue/" + (key + tail)))
  }

  lemma CutsAtSlash(s: string) returns (tail: string)
    ensures s == Before(s, '/') + tail && PathEnd(tail)
  {
    tail := s[|Before(s, '/')|..];
  }

  lemma DigitsAreDigits(s: string)
    ensures Digits(s) != "" ==> AllDigits(Digits(s))
    ensures AllDigits(s) ==> Digits(s) == s
  {
    if AllDigits(s) {
      assert s + "" == s;
      DigitsStop(s, "");
    }
  }

  lemma StripsExactly(s: string, prefix: string)
    requires StripPrefix(s, prefix).Some?
    ensures s == prefix + StripPrefix(s, prefix).value
  {
  }

  lemma BrowseTakesApart(path: string, key: string)
    requires StripPrefix(path, "/browse/").Some? && Before(StripPrefix(path, "/browse/").value, '/') == key
    ensures exists tail :: NamesBrowse(path, key, tail)
  {
    var browse := StripPrefix(path, "/browse/").value;
    StripsExactly(path, "/browse/");
    var tail := CutsAtSlash(browse);
    assert NamesBrowse(path, key, tail);
  }

  lemma IssueTakesApart(path: string, v: string, issue: string, key: string)
    requires StripPrefix(path, "/rest/api/").Some? && v == Digits(StripPrefix(path, "/rest/api/").value) && v != ""
    requires StripPrefix(StripPrefix(path, "/rest/api/").value[|v|..], "/issue/") == Some(issue)
    requires key == Before(issue, '/') && Digits(key) != key
    ensures exists tail :: NamesIssue(path, v, key, tail)
  {
    var api := StripPrefix(path, "/rest/api/").value;
    StripsExactly(path, "/rest/api/");
    StripsExactly(api[|v|..], "/issue/");
    var tail := CutsAtSlash(issue);
    DigitsAreDigits(api);
    DigitsAreDigits(key);
    assert api == v + ("/issue/" + (key + tail));
    assert NamesIssue(path, v, key, tail);
  }

  ghost predicate NamesJira(path: string, key: string) {
    (exists tail :: NamesBrowse(path, key, tail)) || (exists v, tail :: NamesIssue(path, v, key, tail))
  }

  lemma JiraKeyNames(path: string, key: string)
    requires JiraKey(path) == Some(key)
    ensures NamesJira(path, key)
  {
    var browse := StripPrefix(path, "/browse/");
    if browse.Some? && browse.value != "" && Before(browse.value, '/') != "" {
      BrowseTakesApart(path, key);
    } else {
      var api := StripPrefix(path, "/rest/api/").value;
      var v := Digits(api);
      var issue := StripPrefix(api[|v|..], "/issue/").value;
      IssueTakesApart(path, v, issue, key);
      var tail :| NamesIssue(path, v, key, tail);
    }
  }

  /** A path names a Jira issue exactly when it is its browse path, or its REST
      path by a key that is not a number, with any sub-path. */
  lemma JiraKeyExactly(path: string, key: string)
    ensures JiraKey(path) == Some(key) <==> Segment(key) && NamesJira(path, key)
  {
    if JiraKey(path) == Some(key) {
      JiraKeyNames(path, key);
    }
    if Segment(key) {
      if tail :| NamesBrowse(path, key, tail) {
        JiraReadsBack(key, tail);
      } else if v, tail :| NamesIssue(path, v, key, tail) {
        JiraApiReadsBack(v, key, tail);
      }
    }
  }

  // ---- which hosts ---------------------------------------------------------

  ghost predicate EndsWith(s: string, suffix: string) {
    exists front :: s == front + suffix
  }

  lemma SuffixExactly(s: string, suffix: string)
    ensures HasSuffix(s, suffix) <==> EndsWith(s, suffix)
  {
    if HasSuffix(s, suffix) {
      assert s == s[..|s| - |suffix|] + suffix;
    }
  }

  lemma HostsDiffer()
    ensures "github.com" != "api.github.com"
    ensures !EndsWith("github.com", ".atlassian.net") && !EndsWith("api.github.com", ".atlassian.net")
  {
    assert "github.com"[0] != "api.github.com"[0] && "api.github.com"[0] != ".atlassian.net"[0];
    SuffixExactly("github.com", ".atlassian.net");
    SuffixExactly("api.github.com", ".atlassian.net");
    assert "api.github.com"[0..] == "api.github.com";
  }

  /** path is one of r's web paths, and k its own. */
  predicate WebNames(path: string, k: Url, r: Ref, tail: string) {
    IsRef(r, "pull") && NamesRef(path, r, tail) && k == Url("github.com", GithubPath(r))
  }

  lemma GithubKeyNames(path: string, k: Url)
    requires KeyOf(Url("github.com", path)) == Some(k)
    ensures exists r, tail :: WebNames(path, k, r, tail)
  {
    var r := GithubRef(path, "pull").value;
    GithubRefExactly(path, "pull", r);
    var tail :| NamesRef(path, r, tail);
    assert WebNames(path, k, r, tail);
  }

  lemma NamesGithubKey(path: string, k: Url, r: Ref, tail: string)
    requires WebNames(path, k, r, tail)
    ensures KeyOf(Url("github.com", path)) == Some(k)
  {
    GithubReadsBack(r, "pull", tail);
    WebKey(path, r);
  }

  lemma GithubKeyExactly(path: string, k: Url)
    ensures KeyOf(Url("github.com", path)) == Some(k) <==> exists r, tail :: WebNames(path, k, r, tail)
  {
    if KeyOf(Url("github.com", path)) == Some(k) {
      GithubKeyNames(path, k);
    }
    if r, tail :| WebNames(path, k, r, tail) {
      NamesGithubKey(path, k, r, tail);
    }
  }

  /** path is one of r's REST paths, and k its web URL. */
  predicate ApiNames(path: string, k: Url, r: Ref, tail: string) {
    && IsRef(r, "pull") && (tail == "" || !IsDigit(tail[0]))
    && path == "/repos" + (GithubPath(ApiRef(r)) + tail) && k == Url("github.com", GithubPath(r))
  }

  lemma RenamingBack(r: Ref, api: Ref)
    ensures IsRef(api, "pulls") && r == Renamed(api) <==> IsRef(r, "pull") && api == ApiRef(r)
  {
  }

  lemma PrefixAndRest(prefix: string, s: string, n: nat)
    requires prefix <= s && n == |prefix|
    ensures s == prefix + s[n..]
  {
  }

  lemma ApiPathKey(path: string, k: Url)
    requires KeyOf(Url("api.github.com", path)) == Some(k)
    ensures "/repos" <= path && GithubRef(path[6..], "pulls").Some?
    ensures k == Url("github.com", GithubPath(Renamed(GithubRef(path[6..], "pulls").value)))
  {
    assert Url("api.github.com", path).host[0] != "github.com"[0];
  }

  lemma ApiPath(path: string, k: Url) returns (rest: string, api: Ref)
    requires KeyOf(Url("api.github.com", path)) == Some(k)
    ensures path == "/repos" + rest && GithubRef(rest, "pulls") == Some(api)
    ensures k == Url("github.com", GithubPath(Renamed(api)))
  {
    ApiPathKey(path, k);
    PrefixAndRest("/repos", path, 6);
    rest, api := path[6..], GithubRef(path[6..], "pulls").value;
  }

  lemma ApiKeyNames(path: string, k: Url)
    requires KeyOf(Url("api.github.com", path)) == Some(k)
    ensures exists r, tail :: ApiNames(path, k, r, tail)
  {
    var rest, api := ApiPath(path, k);
    GithubRefIsRef(rest, "pulls");
    var tail := GithubTakesApart(rest, "pulls", api);
    ApiNamed(path, rest, k, api, tail);
  }

  lemma ApiNamed(path: string, rest: string, k: Url, api: Ref, tail: string)
    requires path == "/repos" + rest && IsRef(api, "pulls") && NamesRef(rest, api, tail)
    requires k == Url("github.com", GithubPath(Renamed(api)))
    ensures ApiNames(path, k, Renamed(api), tail)
  {
    RenamingBack(Renamed(api), api);
  }

  lemma NamesApiKey(path: string, k: Url, r: Ref, tail: string)
    requires ApiNames(path, k, r, tail)
    ensures KeyOf(Url("api.github.com", path)) == Some(k)
  {
    RenamingBack(r, ApiRef(r));
    GithubReadsBack(ApiRef(r), "pulls", tail);
    ApiKey(GithubPath(ApiRef(r)) + tail, ApiRef(r), r);
  }

  lemma ApiKeyExactly(path: string, k: Url)
    ensures KeyOf(Url("api.github.com", path)) == Some(k) <==> exists r, tail :: ApiNames(path, k, r, tail)
  {
    if KeyOf(Url("api.github.com", path)) == Some(k) {
      ApiKeyNames(path, k);
    }
    if r, tail :| ApiNames(path, k, r, tail) {
      NamesApiKey(path, k, r, tail);
    }
  }

  lemma AtlassianKeyExactly(u: Url, k: Url)
    requires EndsWith(u.host, ".atlassian.net")
    ensures KeyOf(u) == Some(k) <==>
      exists key :: Segment(key) && NamesJira(u.path, key) && k == Url(u.host, "/browse/" + key)
  {
    HostsDiffer();
    SuffixExactly(u.host, ".atlassian.net");
    var m := JiraKey(u.path);
    if m.Some? {
      JiraKeyExactly(u.path, m.value);
    }
    if key :| Segment(key) && NamesJira(u.path, key) && k == Url(u.host, "/browse/" + key) {
      JiraKeyExactly(u.path, key);
    }
  }

  lemma OtherHostsHaveNoKey(u: Url)
    requires u.host !in {"github.com", "api.github.com"} && !EndsWith(u.host, ".atlassian.net")
    ensures KeyOf(u) == None
  {
    SuffixExactly(u.host, ".atlassian.net");
  }

  // ---- how the URL may be written ------------------------------------------

  predicate Alphabetic(c: char) {
    65 <= c as int <= 90 || 97 <= c as int <= 122
  }

  /** RFC 3986, section 3.1. */
  predicate IsScheme(s: string) {
    && s != "" && Alphabetic(s[0])
    && forall i :: 0 <= i < |s| ==> Alphabetic(s[i]) || 48 <= s[i] as int <= 57 || s[i] in {'+', '-', '.'}
  }

  lemma {:induction false} SchemeStops(scheme: string, rest: string)
    requires forall i :: 0 <= i < |scheme| ==> IsSchemeChar(scheme[i])
    ensures SchemePrefix(scheme + ([':'] + rest)) == scheme
  {
    if scheme == "" {
      assert scheme + ([':'] + rest) == [':'] + rest;
    } else {
      assert (scheme + ([':'] + rest))[1..] == scheme[1..] + ([':'] + rest);
      SchemeStops(scheme[1..], rest);
    }
  }

  lemma SplitsScheme(scheme: string, rest: string)
    requires IsScheme(scheme)
    ensures SplitScheme(scheme + ([':'] + rest)) == Some((scheme, rest))
  {
    SchemeStops(scheme, rest);
    var s := scheme + ([':'] + rest);
    assert s[|scheme| + 1..] == rest && s[|scheme|] == ':';
  }

  lemma {:induction false} LastAfter(user: string, host: string)
    requires '@' !in host
    ensures AfterLast(user + (['@'] + host), '@') == host
  {
    var s := user + (['@'] + host);
    assert s[|user|] == '@';
    if user == "" {
      assert s[1..] == host;
    } else {
      assert s[1..] == user[1..] + (['@'] + host);
      LastAfter(user[1..], host);
    }
  }

  /** User information, or none, in front of a host. */
  predicate Front(lib: Lib, front: string, host: string) {
    front == "" || (front[|front| - 1] == '@' && Inert(front) && '/' !in front && lib.userOk(front + host))
  }

  lemma HostBehind(front: string, host: string)
    requires front == "" || front[|front| - 1] == '@'
    requires '@' !in host
    ensures AfterLast(front + host, '@') == host && ('@' in front + host <==> front != "")
  {
    if front == "" {
      assert front + host == host;
    } else {
      var user := front[..|front| - 1];
      assert front + host == user + (['@'] + host);
      LastAfter(user, host);
      assert (front + host)[|front| - 1] == '@';
    }
  }

  lemma AuthorityParses(lib: Lib, scheme: string, front: string, host: string, path: string)
    requires scheme != "" && HostText(host) && lib.Reads(host) && "/" <= path && Front(lib, front, host)
    ensures ParseBody(lib, scheme, "//" + ((front + host) + path)) == WithPath(host, path)
  {
    var body := "//" + ((front + host) + path);
    assert body[2..] == (front + host) + path && body[0] == '/' && body[1] == '/';
    BeforeAppend(front + host, path, '/');
    assert Before(path, '/') == "" && (front + host) + "" == front + host;
    HostBehind(front, host);
    assert body[2 + |front + host|..] == path;
  }

  /** The text of a URL under any scheme, with or without user information. */
  function Written(scheme: string, front: string, u: Url, t: string): string {
    scheme + ([':'] + (("//" + (front + u.host)) + (u.path + t)))
  }

  lemma SchemeIsInert(scheme: string)
    requires IsScheme(scheme)
    ensures Inert(scheme + [':'])
  {
    forall c | c in scheme + [':'] ensures c !in {'#', '?'} && !IsControl(c) {
      if c in scheme {
        var i :| 0 <= i < |scheme| && scheme[i] == c;
      }
    }
  }

  /** Where the front and the host stand between scheme and path. */
  lemma HeadSplits(lib: Lib, scheme: string, mid: string, rest: string)
    requires IsScheme(scheme) && Inert(mid)
    ensures var raw := scheme + ([':'] + (mid + rest));
            && Before(raw, '#') == scheme + ([':'] + (mid + Before(rest, '#')))
            && Rest(raw, '#') == Rest(rest, '#')
            && (HasControl(Before(raw, '#')) <==> HasControl(Before(rest, '#')))
            && SplitScheme(Before(raw, '#')) == Some((scheme, mid + Before(rest, '#')))
  {
    var head := (scheme + [':']) + mid;
    SchemeIsInert(scheme);
    assert Inert(head);
    assert scheme + ([':'] + (mid + rest)) == head + rest;
    BeforeAppend(head, rest, '#');
    ControlBehind(head, Before(rest, '#'));
    assert head + Before(rest, '#') == scheme + ([':'] + (mid + Before(rest, '#')));
    SplitsScheme(scheme, mid + Before(rest, '#'));
  }

  /** The host and path come back whatever the scheme, user information, query or fragment. */
  lemma AnyWritingParses(lib: Lib, scheme: string, front: string, u: Url, t: string)
    requires IsScheme(scheme) && lib.Reads(u.host) && PlainUrl(u) && Trailer(t) && Front(lib, front, u.host)
    ensures ParseUrl(lib, Written(scheme, front, u, t)) == Some(u)
  {
    var mid := "//" + (front + u.host);
    assert Inert(front) && Inert(mid);
    HeadSplits(lib, scheme, mid, u.path + t);
    InertJoin(u.path, t);
    var before := Before(u.path + t, '#');
    BeforeAppend(mid, before, '?');
    assert Before(before, '?') == Cut(u.path + t) == u.path;
    assert mid + u.path == "//" + ((front + u.host) + u.path);
    AuthorityParses(lib, scheme, front, u.host, u.path);
    UnescapeIsIdentity(u.path);
  }

  /** So a resource has one key under every scheme and user, and a URL that names
      none is its own key. */
  lemma KeyOfAnyWriting(lib: Lib, scheme: string, front: string, u: Url, t: string)
    requires IsScheme(scheme) && lib.Reads(u.host) && PlainUrl(u) && Trailer(t) && Front(lib, front, u.host)
    ensures RoutingKey(lib, Written(scheme, front, u, t))
         == if KeyOf(u).Some? then "https://" + KeyOf(u).value.host + KeyOf(u).value.path else Written(scheme, front, u, t)
  {
    AnyWritingParses(lib, scheme, front, u, t);
  }

  /** Text that is no URL is its own key: control characters, or an escape cut
      short or not hexadecimal, in the path of a written URL. */
  lemma BrokenTextIsItsOwnKey(lib: Lib, host: string, a: string, b: string)
    requires HostText(host) && Plain(a) && "/" <= a && Plain(b)
    requires |b| < 2 || HexValue(b[0]).None? || HexValue(b[1]).None?
    ensures RoutingKey(lib, Web(Url(host, a + (['%'] + b)))) == Web(Url(host, a + (['%'] + b)))
  {
    var path := a + (['%'] + b);
    assert Inert(path);
    assert "/" <= path && path + "" == path;
    InertJoin(path, "");
    TextIsReread(lib, Url(host, path));
    BadEscape(a, b);
  }

  lemma {:induction false} BadEscape(a: string, b: string)
    requires '%' !in a && (|b| < 2 || HexValue(b[0]).None? || HexValue(b[1]).None?)
    ensures Unescape(a + (['%'] + b)) == None
  {
    var s := a + (['%'] + b);
    if a == "" {
      assert s == ['%'] + b;
      assert |b| >= 2 ==> s[1] == b[0] && s[2] == b[1];
    } else {
      assert s[1..] == a[1..] + (['%'] + b);
      BadEscape(a[1..], b);
    }
  }
}
