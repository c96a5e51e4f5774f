/** The paged reader of a task's log. Follows internal/gritzclient/logs.go. */
module TaskLogs {
  import opened Options
  import opened Pagination

  /** The server as the reader sees it: the log visible to the i-th request and
      which requests fail. */
  datatype Server<T> = Server(log: nat -> seq<Item<T>>, fails: nat -> bool)

  /** Request i fails, on the wire or because the context is done. */
  predicate Broken<T>(server: Server<T>, i: nat, until: nat) {
    i >= until || server.fails(i)
  }

  ghost predicate Ascending<T>(server: Server<T>, i: nat) {
    Sorted(server.log(i))
  }

  ghost predicate Extends<T>(server: Server<T>, i: nat, j: nat) {
    server.log(i) <= server.log(j)
  }

  /** Rows are only ever appended, with ascending ids. */
  ghost predicate AppendOnly<T>(server: Server<T>) {
    (forall i :: Ascending(server, i)) && (forall i, j :: i <= j ==> Extends(server, i, j))
  }

  /** The chunks yielded are a non-empty prefix of the log and the cursor stands just past them. */
  ghost predicate Covers<T>(log: seq<Item<T>>, follow: Option<Token>, yielded: seq<Item<T>>) {
    yielded <= log && At(log, follow, |yielded|)
  }

  /** Everything yielded so far, with the follow cursor: nothing and no cursor, or covered. */
  ghost predicate Caught<T>(log: seq<Item<T>>, follow: Option<Token>, yielded: seq<Item<T>>) {
    (yielded == [] && follow == None) || Covers(log, follow, yielded)
  }

  /** The rows with ids up to the cursor, in log order. */
  function UpTo<T>(log: seq<Item<T>>, cursor: int): seq<Item<T>> {
    if log == [] then []
    else (if log[0].id <= cursor then [log[0]] else []) + UpTo(log[1..], cursor)
  }

  lemma {:induction false} UpToIsPrefix<T>(log: seq<Item<T>>, k: nat)
    requires Sorted(log) && k <= |log|
    ensures forall cursor :: (forall i :: 0 <= i < k ==> log[i].id <= cursor) && (forall i :: k <= i < |log| ==> cursor < log[i].id)
              ==> UpTo(log, cursor) == log[..k]
  {
    if log != [] {
      UpToIsPrefix(log[1..], if k == 0 then 0 else k - 1);
      if k > 0 {
        assert log[..k] == [log[0]] + log[1..][..k - 1];
      }
    }
  }

  /** Exactly once: what a covered reader has yielded is the log up to its
      cursor, each chunk once and in id order. */
  lemma CoveredIsExactlyOnce<T>(log: seq<Item<T>>, follow: Option<Token>, yielded: seq<Item<T>>)
    requires Sorted(log) && Covers(log, follow, yielded)
    ensures follow.Some? && yielded == UpTo(log, follow.value.cursor) && Sorted(yielded)
  {
    UpToIsPrefix(log, |yielded|);
  }

  lemma CoversLater<T>(server: Server<T>, i: nat, j: nat, follow: Option<Token>, yielded: seq<Item<T>>)
    requires AppendOnly(server) && i <= j && Covers(server.log(i), follow, yielded)
    ensures Covers(server.log(j), follow, yielded)
  {
    assert Extends(server, i, j);
  }

  /** Yielding the page at the follow cursor keeps the reader covered; at the tail it has everything. */
  lemma PageCovers<T>(log: seq<Item<T>>, pageSize: int, page: Page<T>, follow: Option<Token>, yielded: seq<Item<T>>)
    requires ValidSize(pageSize) && Covers(log, follow, yielded) && PageAfter(log, pageSize, page, |yielded|)
    ensures Covers(log, page.next, yielded + page.items)
    ensures !page.more ==> yielded + page.items == log
  {
    assert yielded == log[..|yielded|];
  }

  /** What a listed page holds, by where its token stands. */
  lemma ListedPage<T>(server: Server<T>, i: nat, pageSize: int, token: Option<Token>, k: nat)
    requires AppendOnly(server) && List(server.log(i), pageSize, token).Some?
    ensures ValidSize(pageSize)
    ensures At(server.log(i), token, k) ==>
              PageAfter(server.log(i), pageSize, List(server.log(i), pageSize, token).value, k)
    ensures OlderAt(server.log(i), token, k) ==>
              PageBefore(server.log(i), pageSize, List(server.log(i), pageSize, token).value, k)
  {
    assert Ascending(server, i);
    if At(server.log(i), token, k) {
      NewerPage(server.log(i), pageSize, token, k);
    }
    if OlderAt(server.log(i), token, k) {
      OlderPage(server.log(i), pageSize, token, k);
    }
  }

  /** The first page of the log: the rows before row k are all on it. */
  ghost predicate OldestAt<T>(log: seq<Item<T>>, pageSize: int, page: Page<T>, k: nat) {
    k <= |log| && page.items == log[..k] && (if k == 0 then page.next == None else At(log, page.next, k))
  }

  class TaskLog<T> {
    const pageSize: int
    var follow: Option<Token>
    /** Requests made so far: the reader's clock. */
    var calls: nat

    constructor (pageSize: int)
      ensures this.pageSize == pageSize && follow == None && calls == 0
    {
      this.pageSize := pageSize;
      follow, calls := None, 0;
    }

    /** One request, which fails from `until` on, when its context is done; k is
        where its token stands in the log, for a newer or an older page. Failed or
        not, the next request meets a later server. */
    method Fetch(server: Server<T>, token: Option<Token>, until: nat, ghost k: nat) returns (resp: Option<Page<T>>)
      requires AppendOnly(server)
      modifies this`calls
      ensures calls == old(calls) + 1
      ensures resp.None? <==> Broken(server, old(calls), until) || !ValidSize(pageSize)
      ensures resp.Some? && At(server.log(old(calls)), token, k) ==>
                PageAfter(server.log(old(calls)), pageSize, resp.value, k)
      ensures resp.Some? && OlderAt(server.log(old(calls)), token, k) ==>
                PageBefore(server.log(old(calls)), pageSize, resp.value, k)
    {
      var at := calls;
      calls := calls + 1;
      if Broken(server, at, until) {
        return None;
      }
      resp := List(server.log(at), pageSize, token);
      if resp.Some? {
        ListedPage(server, at, pageSize, token, k);
      }
    }

    /** A page at the follow cursor, seen by a reader that has yielded `had`. */
    method FetchNewer(server: Server<T>, token: Option<Token>, until: nat, ghost had: seq<Item<T>>)
      returns (resp: Option<Page<T>>)
      requires AppendOnly(server) && Covers(server.log(calls), token, had)
      modifies this`calls
      ensures calls == old(calls) + 1 && (resp.Some? ==> old(calls) < until)
      ensures resp.None? ==> Broken(server, old(calls), until) || !ValidSize(pageSize)
      ensures resp.None? ==> Covers(server.log(calls), token, had)
      ensures resp.Some? ==> Covers(server.log(calls), resp.value.next, had + resp.value.items)
      ensures resp.Some? && !resp.value.more ==> had + resp.value.items == server.log(calls - 1)
    {
      resp := Fetch(server, token, until, |had|);
      CoversLater(server, calls - 1, calls, token, had);
      if resp.Some? {
        PageCovers(server.log(calls - 1), pageSize, resp.value, token, had);
        CoversLater(server, calls - 1, calls, resp.value.next, had + resp.value.items);
      }
    }

    /** The newest page. */
    method FetchNewest(server: Server<T>, until: nat) returns (resp: Option<Page<T>>)
      requires AppendOnly(server)
      modifies this`calls
      ensures calls == old(calls) + 1 && (resp.Some? ==> ValidSize(pageSize))
      ensures resp.None? ==> Broken(server, old(calls), until) || !ValidSize(pageSize)
      ensures resp.Some? ==> PageBefore(server.log(calls - 1), pageSize, resp.value, |server.log(calls - 1)|)
    {
      resp := Fetch(server, None, until, |server.log(calls)|);
    }

    /** The page before the one in hand. */
    method FetchOlder(server: Server<T>, page: Page<T>, until: nat, ghost k: nat) returns (resp: Option<Page<T>>)
      requires AppendOnly(server) && calls > 0 && ValidSize(pageSize)
      requires PageBefore(server.log(calls - 1), pageSize, page, k) && page.more
      modifies this`calls
      ensures 0 < k - SizeOf(pageSize) < k && calls == old(calls) + 1
      ensures resp.None? ==> Broken(server, old(calls), until)
      ensures resp.Some? ==> PageBefore(server.log(calls - 1), pageSize, resp.value, k - SizeOf(pageSize))
    {
      assert Extends(server, calls - 1, calls);
      resp := Fetch(server, page.prev, until, k - SizeOf(pageSize));
    }

    method Advance(resp: Page<T>)
      modifies this`follow
      ensures follow == if resp.next.Some? then resp.next else old(follow)
    {
      if resp.next.Some? {
        follow := resp.next;
      }
    }

    /** Walks from the follow cursor to the tail. `had` is what was yielded before.
        On an error the cursor stays just past what was yielded. */
    method Walk(server: Server<T>, until: nat, ghost had: seq<Item<T>>) returns (chunks: seq<Item<T>>, failed: bool)
      requires AppendOnly(server) && Covers(server.log(calls), follow, had)
      modifies this
      ensures old(calls) < calls && Covers(server.log(calls), follow, had + chunks)
      ensures !failed ==> had + chunks == server.log(calls - 1)
      ensures failed ==> Broken(server, calls - 1, until) || !ValidSize(pageSize)
    {
      chunks := [];
      var cur := follow;
      assert had + chunks == had;
      while true
        invariant old(calls) <= calls && cur == follow
        invariant Covers(server.log(calls), follow, had + chunks)
        decreases until - calls
      {
        ghost var sofar := had + chunks;
        var resp := FetchNewer(server, cur, until, sofar);
        if resp.None? {
          return chunks, true;
        }
        var page := resp.value;
        chunks := chunks + page.items;
        assert had + chunks == sofar + page.items;
        Advance(page);
        if !page.more {
          return chunks, false;
        }
        if page.next == None {
          return chunks, false;
        }
        cur := page.next;
      }
    }

    /** Steps back from the tail to the oldest page; k rows end there. */
    method OldestPage(server: Server<T>, until: nat) returns (resp: Option<Page<T>>, paged: bool, ghost k: nat)
      requires AppendOnly(server)
      modifies this`calls
      ensures old(calls) < calls
      ensures resp.None? ==> Broken(server, calls - 1, until) || !ValidSize(pageSize)
      ensures resp.Some? ==> ValidSize(pageSize) && OldestAt(server.log(calls - 1), pageSize, resp.value, k)
      ensures resp.Some? && !paged ==> k == |server.log(calls - 1)|
      ensures resp.Some? && paged ==> k > 0
    {
      resp := FetchNewest(server, until);
      paged, k := false, 0;
      if resp.None? {
        return;
      }
      k := |server.log(calls - 1)|;
      ghost var log := server.log(calls - 1);
      while resp.value.more && resp.value.prev != None
        invariant resp.Some? && calls > old(calls) && ValidSize(pageSize)
        invariant log == server.log(calls - 1) && PageBefore(log, pageSize, resp.value, k)
        invariant if paged then k > 0 else k == |log|
        decreases k
      {
        paged := true;
        resp := FetchOlder(server, resp.value, until, k);
        if resp.None? {
          return;
        }
        k := k - SizeOf(pageSize);
        log := server.log(calls - 1);
      }
    }

    /** The transcript from its beginning to the tail reached, oldest chunk first. */
    method History(server: Server<T>, until: nat) returns (chunks: seq<Item<T>>, failed: bool)
      requires AppendOnly(server)
      modifies this
      ensures old(calls) < calls
      ensures (chunks == [] && follow == old(follow)) || Covers(server.log(calls), follow, chunks)
      ensures !failed ==> chunks == server.log(calls - 1)
      ensures failed ==> Broken(server, calls - 1, until) || !ValidSize(pageSize)
    {
      var resp, paged, k := OldestPage(server, until);
      if resp.None? {
        return [], true;
      }
      chunks := resp.value.items;
      Advance(resp.value);
      if k > 0 {
        CoversLater(server, calls - 1, calls, follow, chunks);
      }
      if !paged {
        return chunks, false;
      }
      var rest: seq<Item<T>>;
      rest, failed := Walk(server, until, chunks);
      chunks := chunks + rest;
    }

    /** Polls until the context is cancelled, after `polls` intervals, or until a
        request fails, which ends this follow but not the reader. */
    method Follow(server: Server<T>, polls: nat, until: nat, ghost had: seq<Item<T>>)
      returns (chunks: seq<Item<T>>, failed: bool)
      requires AppendOnly(server) && Caught(server.log(calls), follow, had)
      modifies this
      ensures old(calls) <= calls && Caught(server.log(calls), follow, had + chunks)
      ensures polls == 0 ==> chunks == [] && !failed && calls == old(calls)
      ensures polls > 0 ==> calls > old(calls)
      ensures !failed && polls > 0 ==> had + chunks == server.log(calls - 1)
      ensures failed ==> Broken(server, calls - 1, until) || !ValidSize(pageSize)
    {
      chunks := [];
      assert had + chunks == had;
      for poll := 0 to polls
        invariant old(calls) <= calls && Caught(server.log(calls), follow, had + chunks)
        invariant poll == 0 ==> chunks == [] && calls == old(calls)
        invariant poll > 0 ==> calls > old(calls) && had + chunks == server.log(calls - 1)
      {
        var more: seq<Item<T>>;
        if follow == None {
          more, failed := History(server, until);
        } else {
          more, failed := Walk(server, until, had + chunks);
        }
        assert had + (chunks + more) == (had + chunks) + more;
        assert [] + more == more;
        chunks := chunks + more;
        if failed {
          return;
        }
      }
      failed := false;
    }
  }

  /** A follow: how many intervals elapse and from which request on its context is done. */
  datatype Session = Session(polls: nat, until: nat)

  /** History and then any number of follows, each taken up where the one before
      it ended, by an error or a cancelled context; the log may grow before every
      request. The chunks yielded are the log up to the cursor, each once, and
      after a follow without errors the whole log as of the last request. */
  method ReadTranscript<T>(server: Server<T>, pageSize: int, until: nat, sessions: seq<Session>)
    returns (chunks: seq<Item<T>>, follow: Option<Token>, at: nat, failed: bool)
    requires AppendOnly(server)
    ensures Caught(server.log(at), follow, chunks)
    ensures follow.Some? ==> chunks == UpTo(server.log(at), follow.value.cursor) && Sorted(chunks)
    ensures follow.None? ==> chunks == []
    ensures !failed ==> at > 0 && chunks == server.log(at - 1)
    ensures failed && ValidSize(pageSize) ==>
              at > 0 && (Broken(server, at - 1, until) || exists s :: s in sessions && Broken(server, at - 1, s.until))
  {
    var reader := new TaskLog<T>(pageSize);
    chunks, failed := reader.History(server, until);
    for i := 0 to |sessions|
      invariant reader.calls > 0 && Caught(server.log(reader.calls), reader.follow, chunks)
      invariant !failed ==> chunks == server.log(reader.calls - 1)
      invariant failed && ValidSize(pageSize) ==>
                  Broken(server, reader.calls - 1, until)
                  || exists s :: s in sessions && Broken(server, reader.calls - 1, s.until)
    {
      assert sessions[i] in sessions;
      var more, broken := reader.Follow(server, sessions[i].polls, sessions[i].until, chunks);
      assert sessions[i].polls == 0 ==> chunks + more == chunks;
      chunks := chunks + more;
      failed := if sessions[i].polls > 0 then broken else failed;
    }
    follow, at := reader.follow, reader.calls;
    if follow.Some? {
      assert Ascending(server, at);
      CoveredIsExactlyOnce(server.log(at), follow, chunks);
    }
  }
}
