/** Cutting a string at the first occurrence of a character, and hexadecimal digits. */
module Strings {
  import opened Options

  function HexValue(c: char): (r: Option<int>)
    ensures r.Some? ==> 0 <= r.value < 16
  {
    if '0' <= c <= '9' then Some(c as int - '0' as int)
    else if 'a' <= c <= 'f' then Some(c as int - 'a' as int + 10)
    else if 'A' <= c <= 'F' then Some(c as int - 'A' as int + 10)
    else None
  }

  /** The hexadecimal digits, in either case, and no other character. */
  lemma HexDigitsExactly(c: char, n: int)
    requires 0 <= n < 16
    ensures HexValue(c) == Some(n) <==>
      c as int == (if n < 10 then 48 + n else 97 + n - 10) || c as int == (if n < 10 then 48 + n else 65 + n - 10)
  {
  }

  /** The position of the first c in s, |s| when there is none. */
  function IndexOf(s: string, c: char): (k: nat)
    ensures k <= |s| && (k < |s| ==> s[k] == c)
    ensures forall i :: 0 <= i < k ==> s[i] != c
  {
    if s == "" || s[0] == c then 0 else 1 + IndexOf(s[1..], c)
  }

  /** s up to the first c, all of s when there is none. */
  function Before(s: string, c: char): (r: string)
    ensures c !in r && r <= s
    ensures |r| < |s| ==> s[|r|] == c
  {
    s[..IndexOf(s, c)]
  }

  /** s after the first c, "" when there is none. */
  function Rest(s: string, c: char): string {
    var b := Before(s, c);
    if |b| == |s| then "" else s[|b| + 1..]
  }

  lemma FirstPassesOver(a: string, t: string, c: char)
    requires c !in a
    ensures IndexOf(a + t, c) == |a| + IndexOf(t, c)
  {
    var k := IndexOf(t, c);
    assert forall i :: 0 <= i < |a| ==> (a + t)[i] == a[i];
    assert forall i :: 0 <= i < k ==> (a + t)[|a| + i] == t[i];
    assert k < |t| ==> (a + t)[|a| + k] == c;
  }

  lemma RestIsWithin(s: string, c: char, x: char)
    requires x in Rest(s, c)
    ensures x in s
  {
  }

  lemma CutAppended(a: string, t: string, n: nat)
    requires n <= |t|
    ensures (a + t)[..|a| + n] == a + t[..n] && (a + t)[|a| + n..] == t[n..]
  {
  }

  lemma BeforeAppend(a: string, t: string, c: char)
    requires c !in a
    ensures Before(a + t, c) == a + Before(t, c) && Rest(a + t, c) == Rest(t, c)
  {
    FirstPassesOver(a, t, c);
    var k := IndexOf(t, c);
    CutAppended(a, t, k);
    if k < |t| {
      CutAppended(a, t, k + 1);
    }
  }
}
