/** Keyset pages over an append-only stream. Follows
    internal/x/pagination/pagination.go with the two SQL walks of
    internal/store/sql/queries/logchunk.sql and event.sql. */
module Pagination {
  import opened Options

  /** A stored row: ids come from one ascending sequence. */
  datatype Item<T> = Item(id: int, body: T)

  /** A page token; the empty token is None. */
  datatype Token = Token(cursor: int, backward: bool)

  /** next and prev are named as the list responses name them: next walks to
      newer rows, prev to older ones. */
  datatype Page<T> = Page(items: seq<Item<T>>, prev: Option<Token>, next: Option<Token>, more: bool)

  const DefaultPageSize := 50
  const MaxPageSize := 200

  ghost predicate Sorted<T>(log: seq<Item<T>>) {
    forall i, j :: 0 <= i < j < |log| ==> log[i].id < log[j].id
  }

  // ---- the two queries -----------------------------------------------------

  function Newer<T>(log: seq<Item<T>>, cursor: int): seq<Item<T>> {
    if log == [] then []
    else (if log[0].id > cursor then [log[0]] else []) + Newer(log[1..], cursor)
  }

  function Older<T>(log: seq<Item<T>>, cursor: int): seq<Item<T>> {
    if log == [] then []
    else (if log[0].id < cursor then [log[0]] else []) + Older(log[1..], cursor)
  }

  function Reverse<T>(xs: seq<T>): seq<T> {
    seq(|xs|, i requires 0 <= i < |xs| => xs[|xs| - 1 - i])
  }

  function Limit<T>(xs: seq<T>, n: nat): seq<T> {
    if |xs| <= n then xs else xs[..n]
  }

  /** Rows nearest the cursor first, the cursor row excluded. */
  function Query<T>(log: seq<Item<T>>, token: Option<Token>, limit: nat): seq<Item<T>> {
    match token
    case None => Limit(Reverse(log), limit)
    case Some(t) => if t.backward then Limit(Newer(log, t.cursor), limit) else Limit(Reverse(Older(log, t.cursor)), limit)
  }

  predicate ValidSize(pageSize: int) {
    0 <= pageSize <= MaxPageSize
  }

  function SizeOf(pageSize: int): int {
    if pageSize == 0 then DefaultPageSize else pageSize
  }

  /** A page from the rows of an over-fetching query: one more than size means more remain. */
  function PageOf<T>(rows: seq<Item<T>>, size: nat, token: Option<Token>): Page<T> {
    var more := |rows| > size;
    var items := Limit(rows, size);
    if token.Some? && token.value.backward then
      if items == [] then Page([], None, token, more)
      else Page(items, Some(Token(items[0].id, false)), Some(Token(items[|items| - 1].id, true)), more)
    else
      if items == [] then Page([], None, None, more)
      else Page(Reverse(items),
                if more then Some(Token(items[|items| - 1].id, false)) else None,
                Some(Token(items[0].id, true)), more)
  }

  /** One page, or None for a page size out of bounds. */
  function List<T>(log: seq<Item<T>>, pageSize: int, token: Option<Token>): Option<Page<T>> {
    var size := SizeOf(pageSize);
    if size < 1 || size > MaxPageSize then None
    else Some(PageOf(Query(log, token, size + 1), size, token))
  }

  // ---- what a page is, in terms of the log ---------------------------------

  function Max(a: int, b: int): int {
    if a < b then b else a
  }

  /** The cursor stands just past the first k rows. */
  ghost predicate At<T>(log: seq<Item<T>>, token: Option<Token>, k: nat) {
    0 < k <= |log| && token == Some(Token(log[k - 1].id, true))
  }

  lemma {:induction false} NewerIsSuffix<T>(log: seq<Item<T>>, k: nat, cursor: int)
    requires Sorted(log) && k <= |log|
    requires forall i :: 0 <= i < k ==> log[i].id <= cursor
    requires forall i :: k <= i < |log| ==> cursor < log[i].id
    ensures Newer(log, cursor) == log[k..]
  {
    if log != [] {
      NewerIsSuffix(log[1..], if k == 0 then 0 else k - 1, cursor);
    }
  }

  lemma {:induction false} OlderIsPrefix<T>(log: seq<Item<T>>, k: nat, cursor: int)
    requires Sorted(log) && k <= |log|
    requires forall i :: 0 <= i < k ==> log[i].id < cursor
    requires forall i :: k <= i < |log| ==> cursor <= log[i].id
    ensures Older(log, cursor) == log[..k]
  {
    if log != [] {
      OlderIsPrefix(log[1..], if k == 0 then 0 else k - 1, cursor);
      if k > 0 {
        assert log[..k] == [log[0]] + log[1..][..k - 1];
      }
    }
  }

  lemma ReversedLimit<T>(xs: seq<T>, n: nat)
    ensures Reverse(Limit(Reverse(xs), n)) == xs[Max(0, |xs| - n)..]
  {
  }

  /** A page of the rows from k on, up to a page, with the cursor for the rest. */
  ghost predicate PageAfter<T>(log: seq<Item<T>>, pageSize: int, page: Page<T>, k: nat)
    requires ValidSize(pageSize)
  {
    var end := if k + SizeOf(pageSize) < |log| then k + SizeOf(pageSize) else |log|;
    && k <= |log|
    && page.items == log[k..end]
    && (page.more <==> end < |log|)
    && At(log, page.next, end)
  }

  lemma NewerPageOf<T>(log: seq<Item<T>>, pageSize: int, token: Option<Token>, k: nat)
    requires ValidSize(pageSize) && At(log, token, k)
    ensures PageAfter(log, pageSize, PageOf(Limit(log[k..], SizeOf(pageSize) + 1), SizeOf(pageSize), token), k)
  {
    var size := SizeOf(pageSize);
    var rows := Limit(log[k..], size + 1);
    var end := if k + size < |log| then k + size else |log|;
    assert Limit(rows, size) == log[k..end];
  }

  /** The newer page after k rows holds the rows from k on, up to a page. */
  lemma NewerPage<T>(log: seq<Item<T>>, pageSize: int, token: Option<Token>, k: nat)
    requires Sorted(log) && ValidSize(pageSize) && At(log, token, k)
    ensures List(log, pageSize, token).Some? && PageAfter(log, pageSize, List(log, pageSize, token).value, k)
  {
    NewerIsSuffix(log, k, log[k - 1].id);
    NewerPageOf(log, pageSize, token, k);
  }

  /** A page of the rows before row k, up to a page, with the cursors either side. */
  ghost predicate PageBefore<T>(log: seq<Item<T>>, pageSize: int, page: Page<T>, k: nat)
    requires ValidSize(pageSize)
  {
    var start := Max(0, k - SizeOf(pageSize));
    && k <= |log|
    && page.items == log[start..k]
    && (page.more <==> start > 0)
    && page.prev == (if start > 0 then Some(Token(log[start].id, false)) else None)
    && (if k == 0 then page.next == None else At(log, page.next, k))
  }

  lemma NewestRows<T>(older: seq<T>, size: nat)
    requires size >= 1
    ensures var rows := Limit(Reverse(older), size + 1);
            var items := Limit(rows, size);
            var start := Max(0, |older| - size);
            && (|rows| > size <==> start > 0)
            && Reverse(items) == older[start..] && |items| == |older| - start
            && (older != [] ==> items[0] == older[|older| - 1] && items[|items| - 1] == older[start])
  {
    assert Limit(Limit(Reverse(older), size + 1), size) == Limit(Reverse(older), size);
    ReversedLimit(older, size);
  }

  lemma OlderPageOf<T>(log: seq<Item<T>>, pageSize: int, token: Option<Token>, k: nat)
    requires ValidSize(pageSize) && k <= |log| && (token.Some? ==> !token.value.backward)
    ensures PageBefore(log, pageSize, PageOf(Limit(Reverse(log[..k]), SizeOf(pageSize) + 1), SizeOf(pageSize), token), k)
  {
    var size, older := SizeOf(pageSize), log[..k];
    NewestRows(older, size);
    assert older[Max(0, k - size)..] == log[Max(0, k - size)..k];
  }

  /** The cursor of the rows before row k; none stands for the whole log. */
  ghost predicate OlderAt<T>(log: seq<Item<T>>, token: Option<Token>, k: nat) {
    (token == None && k == |log|) || (k < |log| && token == Some(Token(log[k].id, false)))
  }

  lemma OlderRows<T>(log: seq<Item<T>>, token: Option<Token>, k: nat, limit: nat)
    requires Sorted(log) && k <= |log|
    requires OlderAt(log, token, k)
    ensures Query(log, token, limit) == Limit(Reverse(log[..k]), limit)
  {
    if token.Some? {
      OlderIsPrefix(log, k, log[k].id);
    }
    assert log[..|log|] == log;
  }

  /** The page older than row k, or the newest page when k is the whole log. */
  lemma OlderPage<T>(log: seq<Item<T>>, pageSize: int, token: Option<Token>, k: nat)
    requires Sorted(log) && ValidSize(pageSize) && k <= |log|
    requires OlderAt(log, token, k)
    ensures List(log, pageSize, token).Some? && PageBefore(log, pageSize, List(log, pageSize, token).value, k)
  {
    OlderRows(log, token, k, SizeOf(pageSize) + 1);
    OlderPageOf(log, pageSize, token, k);
  }
}
