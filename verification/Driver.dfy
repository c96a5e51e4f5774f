/** One sandbox's driver across its runs: resumable setup, the event drain with
    its persisted cursor, and the order of its reports. Follows
    internal/runner/agent/driver.go and internal/gritzclient/events.go. The
    server's stream is the one its type filter leaves. */
module Drivers {
  import opened Options
  import opened Pagination
  import opened Tasks
  import opened TaskLogs

  const EventPageSize := 50

  /** The driver's part of the config file. */
  datatype Config = Config(setupDone: nat, started: bool, token: Option<Token>)

  /** What the world answers during one run. until is the event request from
      which on the run's context is done. */
  datatype Script = Script(
    until: nat,
    version: Option<int>,           // GetTask: the run's version, or an error
    startedAcked: bool,
    shell: Option<bool>,            // a shell session and how it ended
    loads: bool,
    commandOk: nat -> bool,
    setupSaves: nat -> bool,
    linksOk: bool,
    prompts: bool,                  // agent construction, rendering and the prompt itself
    saves: bool,
    stopped: bool,                  // the context was cancelled with ErrStop
    outcomeAcked: bool)

  /** A non-empty stretch of the stream from row a, with the cursor just past it. */
  ghost predicate Ends<T>(log: seq<Item<T>>, a: nat, token: Option<Token>, events: seq<Item<T>>) {
    var k := a + |events|;
    events != [] && k <= |log| && events == log[a..k] && At(log, token, k)
  }

  /** Nothing and no cursor, or a stretch from row a. */
  ghost predicate Stretch<T>(log: seq<Item<T>>, a: nat, token: Option<Token>, events: seq<Item<T>>) {
    (events == [] && token == None) || Ends(log, a, token, events)
  }

  function Joined<T>(batches: seq<seq<T>>): seq<T> {
    if batches == [] then [] else Joined(batches[..|batches| - 1]) + batches[|batches| - 1]
  }

  lemma StretchLater<T>(server: Server<T>, i: nat, j: nat, a: nat, token: Option<Token>, events: seq<Item<T>>)
    requires AppendOnly(server) && i <= j && Stretch(server.log(i), a, token, events)
    ensures Stretch(server.log(j), a, token, events)
  {
    assert Extends(server, i, j);
  }

  /** Where a drain with no cursor opens: at the newest page. */
  function OpensAt(pending: nat): nat {
    if pending <= EventPageSize then 0 else pending - EventPageSize
  }

  /** The first page of a drain without a cursor: the newest rows, and `more`
      says whether older ones were passed over. */
  lemma OpeningPage<T>(log: seq<Item<T>>, page: Page<T>)
    requires PageBefore(log, EventPageSize, page, |log|)
    ensures Stretch(log, OpensAt(|log|), page.next, page.items)
    ensures OpensAt(|log|) + |page.items| == |log|
    ensures page.more ==> page.items != []
  {
  }

  /** The page at the cursor extends the stretch, and to the tail when nothing more follows. */
  lemma NextPage<T>(log: seq<Item<T>>, a: nat, page: Page<T>, token: Option<Token>, events: seq<Item<T>>)
    requires Ends(log, a, token, events) && PageAfter(log, EventPageSize, page, a + |events|)
    ensures Ends(log, a, page.next, events + page.items)
    ensures !page.more ==> a + |events + page.items| == |log|
  {
  }

  /** The page an empty cursor opens on is the whole stream exactly when at most
      one page of events is pending. */
  lemma OpensAtHeadExactly<T>(log: seq<Item<T>>)
    requires Sorted(log)
    ensures List(log, EventPageSize, None).Some?
    ensures List(log, EventPageSize, None).value.items == log <==> |log| <= EventPageSize
  {
    OlderPage(log, EventPageSize, None, |log|);
    var page := List(log, EventPageSize, None).value;
    OpeningPage(log, page);
    assert |page.items| == |log| - OpensAt(|log|);
  }

  /** So a first run with 51 events pending never sees the oldest one. */
  lemma FirstDrainSkipsHead<T>(log: seq<Item<T>>)
    requires Sorted(log) && |log| == EventPageSize + 1
    ensures List(log, EventPageSize, None).value.items == log[1..]
    ensures List(log, EventPageSize, None).value.next == Some(Token(log[EventPageSize].id, true))
  {
    OlderPage(log, EventPageSize, None, |log|);
  }

  lemma JoinedAppend<T>(batches: seq<seq<T>>, batch: seq<T>)
    ensures Joined(batches + [batch]) == Joined(batches) + batch
  {
    assert (batches + [batch])[..|batches|] == batches;
  }

  class Driver<T> {
    const commands: nat
    var saved: Config
    /** Event list requests made so far. */
    var calls: nat
    /** The event batches of the runs whose save succeeded, and the stream index of the first of them. */
    ghost var batches: seq<seq<Item<T>>>
    ghost var first: nat

    ghost predicate Valid(server: Server<T>)
      reads this
    {
      AppendOnly(server) && Stretch(server.log(calls), first, saved.token, Joined(batches))
    }

    constructor (commands: nat)
      ensures saved == Config(0, false, None) && batches == [] && calls == 0 && this.commands == commands
    {
      this.commands := commands;
      saved := Config(0, false, None);
      calls, batches, first := 0, [], 0;
    }

    /** One request, which fails once the context is done. Failed or not, the next
        request, of this run or a later one, meets a later server. */
    method Fetch(server: Server<T>, token: Option<Token>, until: nat, ghost k: nat) returns (resp: Option<Page<T>>)
      requires AppendOnly(server)
      modifies this`calls
      ensures calls == old(calls) + 1
      ensures resp.None? <==> Broken(server, old(calls), until)
      ensures resp.Some? && At(server.log(old(calls)), token, k) ==>
                PageAfter(server.log(old(calls)), EventPageSize, resp.value, k)
      ensures resp.Some? && OlderAt(server.log(old(calls)), token, k) ==>
                PageBefore(server.log(old(calls)), EventPageSize, resp.value, k)
    {
      var at := calls;
      calls := calls + 1;
      if Broken(server, at, until) {
        return None;
      }
      resp := List(server.log(at), EventPageSize, token);
      ListedPage(server, at, EventPageSize, token, k);
    }

    method Open(server: Server<T>, until: nat) returns (resp: Option<Page<T>>)
      requires AppendOnly(server)
      modifies this`calls
      ensures calls == old(calls) + 1 && (resp.Some? ==> old(calls) < until)
      ensures resp.None? ==> Broken(server, old(calls), until)
      ensures resp.Some? ==> var log := server.log(old(calls));
                             && Stretch(log, OpensAt(|log|), resp.value.next, resp.value.items)
                             && OpensAt(|log|) + |resp.value.items| == |log|
                             && (resp.value.more ==> resp.value.items != [])
    {
      resp := Fetch(server, None, until, |server.log(calls)|);
      if resp.Some? {
        OpeningPage(server.log(calls - 1), resp.value);
      }
    }

    method Resume(server: Server<T>, token: Option<Token>, until: nat, ghost a: nat, ghost had: seq<Item<T>>)
      returns (resp: Option<Page<T>>)
      requires AppendOnly(server) && Ends(server.log(calls), a, token, had)
      modifies this`calls
      ensures calls == old(calls) + 1 && (resp.Some? ==> old(calls) < until)
      ensures resp.None? ==> Broken(server, old(calls), until)
      ensures resp.Some? ==> Ends(server.log(calls - 1), a, resp.value.next, had + resp.value.items)
      ensures resp.Some? && !resp.value.more ==> a + |had + resp.value.items| == |server.log(calls - 1)|
    {
      resp := Fetch(server, token, until, a + |had|);
      if resp.Some? {
        NextPage(server.log(calls - 1), a, resp.value, token, had);
      }
    }

    /** One page of the walk: at the cursor, or the newest when there is none. */
    method NextBatch(server: Server<T>, cur: Option<Token>, until: nat, ghost a: nat, ghost had: seq<Item<T>>)
      returns (resp: Option<Page<T>>, ghost start: nat)
      requires AppendOnly(server) && Stretch(server.log(calls), a, cur, had)
      modifies this`calls
      ensures calls == old(calls) + 1 && (resp.Some? ==> old(calls) < until)
      ensures resp.None? ==> Broken(server, old(calls), until)
      ensures start == if cur == None then OpensAt(|server.log(old(calls))|) else a
      ensures resp.Some? ==> Stretch(server.log(calls - 1), start, resp.value.next, had + resp.value.items)
      ensures resp.Some? && resp.value.more ==> resp.value.next != None
      ensures resp.Some? && !resp.value.more ==>
                if resp.value.next == None then server.log(calls - 1) == []
                else start + |had + resp.value.items| == |server.log(calls - 1)|
    {
      if cur == None {
        start := OpensAt(|server.log(calls)|);
        resp := Open(server, until);
        if resp.Some? {
          assert had + resp.value.items == resp.value.items;
        }
      } else {
        start := a;
        resp := Resume(server, cur, until, a, had);
      }
    }

    /** Walks the stream from the config's cursor to the tail. `had` and `a`
        describe what earlier runs delivered; without a cursor the walk opens
        at the newest page, which is the head of the stream exactly when at most
        one page is pending. */
    method DrainEvents(server: Server<T>, cfg: Config, until: nat, ghost a: nat, ghost had: seq<Item<T>>)
      returns (events: seq<Item<T>>, token: Option<Token>, failed: bool, ghost start: nat)
      requires AppendOnly(server) && Stretch(server.log(calls), a, cfg.token, had)
      modifies this`calls
      ensures old(calls) < calls && Stretch(server.log(calls), a, cfg.token, had)
      ensures !failed ==> Stretch(server.log(calls), start, token, had + events)
      ensures !failed && cfg.token != None ==> start == a
      ensures !failed && cfg.token == None ==> start == OpensAt(|server.log(old(calls))|)
      ensures !failed && cfg.token == None ==> (start == 0 <==> |server.log(old(calls))| <= EventPageSize)
      ensures !failed && token != None ==> start + |had + events| == |server.log(calls - 1)|
      ensures !failed && token == None ==> server.log(calls - 1) == []
      ensures failed ==> Broken(server, calls - 1, until)
    {
      events, token, start := [], cfg.token, a;
      var cur := cfg.token;
      assert had + events == had;
      ghost var before := calls;
      while true
        invariant old(calls) <= calls && cur == token
        invariant calls == old(calls) ==> cur == cfg.token && start == a
        invariant calls > old(calls) ==> token != None
        invariant calls > old(calls) ==> start == if cfg.token == None then OpensAt(|server.log(old(calls))|) else a
        invariant Stretch(server.log(calls), start, token, had + events)
        decreases until - calls
      {
        ghost var sofar := had + events;
        var resp;
        resp, start := NextBatch(server, cur, until, start, sofar);
        StretchLater(server, before, calls, a, cfg.token, had);
        if resp.None? {
          return [], None, true, start;
        }
        token := resp.value.next;
        events := events + resp.value.items;
        assert had + events == sofar + resp.value.items;
        StretchLater(server, calls - 1, calls, start, token, had + events);
        if !resp.value.more {
          return events, token, false, start;
        }
        cur := resp.value.next;
      }
    }

    /** Where setup resumes: at the saved count, or at the start when there are fewer commands now. */
    function Resumes(): nat
      reads this
    {
      if saved.setupDone > commands then 0 else saved.setupDone
    }

    /** Runs the setup commands left over from earlier runs, saving the count after
        each; it fails at the first that does not succeed or cannot be saved, and
        the count on disk is the number of those before it. */
    method Setup(server: Server<T>, s: Script) returns (cfg: Config, failed: bool)
      requires Valid(server)
      modifies this`saved
      ensures Valid(server) && cfg == saved.(setupDone := cfg.setupDone)
      ensures saved == old(saved).(setupDone := saved.setupDone)
      ensures !failed ==> cfg.setupDone == commands
      ensures failed <==> exists j :: old(Resumes()) <= j < commands && !(s.commandOk(j) && s.setupSaves(j))
      ensures !failed ==> saved.setupDone == (if old(Resumes()) == commands then old(saved).setupDone else commands)
      ensures failed ==>
                var at := if saved == old(saved) then old(Resumes()) else saved.setupDone;
                && old(Resumes()) <= at < commands && !(s.commandOk(at) && s.setupSaves(at))
                && forall j :: old(Resumes()) <= j < at ==> s.commandOk(j) && s.setupSaves(j)
    {
      cfg := saved;
      if cfg.setupDone > commands {
        cfg := cfg.(setupDone := 0);
      }
      var i := cfg.setupDone;
      ghost var start := i;
      while i < commands
        invariant Valid(server) && saved == old(saved).(setupDone := saved.setupDone)
        invariant cfg == saved.(setupDone := i) && start == old(Resumes()) <= i <= commands
        invariant forall j :: start <= j < i ==> s.commandOk(j) && s.setupSaves(j)
        invariant if i == start then saved == old(saved) else saved.setupDone == i
      {
        if !s.commandOk(i) {
          return cfg, true;
        }
        cfg := cfg.(setupDone := i + 1);
        if !s.setupSaves(i) {
          return cfg, true;
        }
        saved := cfg;
        i := i + 1;
      }
      failed := false;
    }

    /** The agent run: the cursor and the batch are committed by the last save alone. */
    method RunAgent(server: Server<T>, s: Script) returns (failed: bool)
      requires Valid(server)
      modifies this
      ensures Valid(server) && old(calls) <= calls
      ensures failed ==> saved.token == old(saved.token) && saved.started == old(saved.started)
                         && batches == old(batches) && first == old(first)
      ensures failed && s.loads && (old(saved.started) || s.linksOk) && s.prompts && s.saves
              && (forall j :: old(Resumes()) <= j < commands ==> s.commandOk(j) && s.setupSaves(j)) ==>
                calls > old(calls) && Broken(server, calls - 1, s.until)
      ensures !failed ==> s.loads && s.prompts && s.saves && (old(saved.started) || s.linksOk)
      ensures !failed ==> forall j :: old(Resumes()) <= j < commands ==> s.commandOk(j) && s.setupSaves(j)
      ensures !failed ==> saved.started && saved.setupDone == commands
      ensures !failed ==> |batches| == |old(batches)| + 1 && batches[..|old(batches)|] == old(batches)
      ensures !failed ==> first == if old(saved.token) == None then OpensAt(|server.log(old(calls))|) else old(first)
      ensures !failed ==> calls > 0 && if saved.token == None then server.log(calls - 1) == []
                                       else first + |Joined(batches)| == |server.log(calls - 1)|
    {
      if !s.loads {
        return true;
      }
      var cfg: Config;
      cfg, failed := Setup(server, s);
      if failed {
        return;
      }
      var events, token, drainFailed, start := DrainEvents(server, cfg, s.until, first, Joined(batches));
      if drainFailed {
        return true;
      }
      cfg := cfg.(token := token);
      if !cfg.started && !s.linksOk {
        return true;
      }
      if !s.prompts {
        return true;
      }
      cfg := cfg.(started := true);
      if !s.saves {
        return true;
      }
      Commit(server, cfg, events, start);
      failed := false;
    }

    /** The save that succeeded: the config with its cursor, and the batch it stands for. */
    method Commit(server: Server<T>, cfg: Config, ghost events: seq<Item<T>>, ghost start: nat)
      requires AppendOnly(server) && Stretch(server.log(calls), start, cfg.token, Joined(batches) + events)
      modifies this`saved, this`batches, this`first
      ensures Valid(server) && saved == cfg && first == start && batches == old(batches) + [events]
      ensures Joined(batches) == Joined(old(batches)) + events
    {
      JoinedAppend(batches, events);
      saved := cfg;
      batches, first := batches + [events], start;
    }

    /** One run: nil exactly when the outcome it reported was acknowledged. */
    method Run(server: Server<T>, s: Script) returns (ok: bool, sent: seq<RunnerEvent>)
      requires Valid(server)
      modifies this
      ensures Valid(server) && old(calls) <= calls
      ensures ok <==> s.version.Some? && s.startedAcked && s.outcomeAcked
      ensures s.version.None? ==> sent == []
      ensures s.version.Some? ==> sent != [] && sent[0] == RunnerEvent(Started, s.version.value, false)
      ensures s.version.Some? && !s.startedAcked ==> |sent| == 1
      ensures s.version.Some? && s.startedAcked ==>
                |sent| == 2 && sent[1].version == s.version.value && !sent[1].reconcile
                && sent[1].kind in {Stopped, RunFailed} && (s.stopped ==> sent[1].kind.Stopped?)
      ensures |sent| < 2 ==> saved == old(saved) && batches == old(batches)
      ensures saved.token != old(saved.token) ==> sent[1].kind.Stopped?
      ensures |sent| == 2 && s.shell.Some? && !s.stopped ==> (sent[1].kind.Stopped? <==> s.shell.value)
      ensures |sent| == 2 && s.shell.Some? ==> saved == old(saved) && batches == old(batches) && calls == old(calls)
      ensures |sent| == 2 && s.shell.None? && !s.stopped ==> (sent[1].kind.Stopped? <==> |batches| == |old(batches)| + 1)
      ensures |old(batches)| <= |batches| <= |old(batches)| + 1 && batches[..|old(batches)|] == old(batches)
    {
      if s.version.None? {
        return false, [];
      }
      var version := s.version.value;
      sent := [RunnerEvent(Started, version, false)];
      if !s.startedAcked {
        return false, sent;
      }
      var failed: bool;
      if s.shell.Some? {
        failed := !s.shell.value;
      } else {
        failed := RunAgent(server, s);
      }
      if failed && s.stopped {
        failed := false;
      }
      sent := sent + [RunnerEvent(if failed then RunFailed else Stopped, version, false)];
      ok := s.outcomeAcked;
    }

    /** Any sequence of runs, failed drains and the recoveries from them included:
        what the saved runs delivered is one gap-free and duplicate-free stretch of
        the stream, ending at the persisted cursor. */
    method Runs(server: Server<T>, scripts: seq<Script>)
      requires Valid(server)
      modifies this
      ensures Stretch(server.log(calls), first, saved.token, Joined(batches))
      ensures Sorted(Joined(batches))
      ensures |old(batches)| <= |batches| <= |old(batches)| + |scripts|
    {
      for i := 0 to |scripts|
        invariant Valid(server) && |old(batches)| <= |batches| <= |old(batches)| + i
      {
        var _, _ := Run(server, scripts[i]);
      }
      assert Ascending(server, calls);
    }
  }
}
