/** What routing does to the tables, for one event and over any run of events:
    who is told, who is woken, and when a task is created. Follows Apply and
    Route in internal/server/eventrouter/eventrouter.go. */
module RouterRuns {
  import opened Options
  import opened RoutingRules
  import opened EventRouting
  import Tasks

  // ---- one event: each task at most once -----------------------------------

  /** The match reaches the task: its org's, a subscriber in its namespace, and
      no fault in between. */
  predicate Reaches(db: Db, key: string, m: Planned, faults: Faults, task: nat)
    requires Sound(db) && task < |db.tasks|
  {
    db.tasks[task].org == m.org && task in Subscribers(db, key, m.org, m.rule.namespace) && task !in faults.attach
  }

  predicate Reached(db: Db, key: string, matches: seq<Planned>, faults: Faults, task: nat)
    requires Sound(db) && task < |db.tasks|
  {
    exists m :: m in matches && Reaches(db, key, m, faults, task)
  }

  predicate Wakes(db: Db, key: string, matches: seq<Planned>, faults: Faults, task: nat)
    requires Sound(db) && task < |db.tasks|
  {
    exists m :: m in matches && m.rule.wakeup && Reaches(db, key, m, faults, task)
  }

  function StartedIf(wakes: bool, t: TaskRecord): TaskRecord {
    if wakes then t.(row := Tasks.StartedByUser(t.row)) else t
  }

  /** The part of the tables that was there before, after routing: each task was
      told at most once more, and started at most once. */
  ghost predicate ToldOnce(db: Db, r: Db, key: string, matches: seq<Planned>, faults: Faults)
    requires Sound(db)
  {
    && |db.tasks| <= |r.tasks| && db.events <= r.events
    && forall t: nat :: t < |db.tasks| ==>
         && ToldTimes(r.events, t) == ToldTimes(db.events, t) + (if Reached(db, key, matches, faults, t) then 1 else 0)
         && r.tasks[t] == StartedIf(Wakes(db, key, matches, faults, t), db.tasks[t])
  }

  function Externals(events: seq<Event>): nat {
    if events == [] then 0
    else Externals(events[..|events| - 1]) + (if events[|events| - 1].payload.External? then 1 else 0)
  }

  lemma OneMoreEvent(events: seq<Event>, ev: Event, task: nat)
    ensures ToldTimes(events + [ev], task)
         == ToldTimes(events, task) + (if ev.task == task && ev.payload.External? then 1 else 0)
    ensures Externals(events + [ev]) == Externals(events) + (if ev.payload.External? then 1 else 0)
  {
    assert (events + [ev])[..|events|] == events;
  }

  /** The four events of a creation tell only the created task, once. */
  lemma CreatingWritesOne(db: Db, e: Input, key: string, org: int, rule: Rule, action: CreateAction, task: nat)
    ensures var events := Created(db, e, key, org, rule, action).events;
      && Externals(events) == Externals(db.events) + 1
      && ToldTimes(events, task) == ToldTimes(db.events, task) + (if task == |db.tasks| then 1 else 0)
  {
    var events, k := Created(db, e, key, org, rule, action).events, |db.events|;
    OneMoreEvent(db.events, events[k], task);
    OneMoreEvent(db.events + [events[k]], events[k + 1], task);
    OneMoreEvent(db.events + [events[k]] + [events[k + 1]], events[k + 2], task);
    OneMoreEvent(db.events + [events[k]] + [events[k + 1]] + [events[k + 2]], events[k + 3], task);
    assert events == db.events + [events[k]] + [events[k + 1]] + [events[k + 2]] + [events[k + 3]];
  }

  lemma SubscribersAreOfOrg(db: Db, key: string, org: int, namespace: string)
    requires Sound(db)
    ensures forall t :: t in Subscribers(db, key, org, namespace) ==>
      db.tasks[t].org == org && db.tasks[t].namespace == namespace && !db.tasks[t].row.archived
  {
  }

  lemma OneMatchTellsOnce(db: Db, now: Db, e: Input, key: string, front: seq<Planned>, m: Planned, faults: Faults)
    requires Sound(db) && ToldOnce(db, now, key, front, faults)
    requires forall p :: p in front ==> p.org != m.org
    ensures ToldOnce(db, AppliedOne(now, db, e, key, m, faults), key, front + [m], faults)
  {
    var ids := Subscribers(db, key, m.org, m.rule.namespace);
    var r := AppliedOne(now, db, e, key, m, faults);
    SubscribersAreOfOrg(db, key, m.org, m.rule.namespace);
    if ids != [] {
      AttachesOncePerTask(now, ids, e, m.org, m.rule.wakeup, faults.attach);
    }
    forall t: nat | t < |db.tasks|
      ensures ToldTimes(r.events, t) == ToldTimes(db.events, t) + (if Reached(db, key, front + [m], faults, t) then 1 else 0)
      ensures r.tasks[t] == StartedIf(Wakes(db, key, front + [m], faults, t), db.tasks[t])
    {
      MatchesApart(db, key, front, m, faults, t);
      if ids == [] && Creates(db, key, m, faults) {
        CreatingWritesOne(now, e, key, m.org, m.rule, m.rule.create.value, t);
      }
    }
  }

  /** A task the last match reaches is reached by no match before it. */
  lemma MatchesApart(db: Db, key: string, front: seq<Planned>, m: Planned, faults: Faults, t: nat)
    requires Sound(db) && t < |db.tasks| && forall p :: p in front ==> p.org != m.org
    ensures Reached(db, key, front + [m], faults, t) <==>
      Reached(db, key, front, faults, t) || Reaches(db, key, m, faults, t)
    ensures Wakes(db, key, front + [m], faults, t) <==>
      Wakes(db, key, front, faults, t) || (m.rule.wakeup && Reaches(db, key, m, faults, t))
    ensures Reaches(db, key, m, faults, t) ==>
      !Reached(db, key, front, faults, t) && !Wakes(db, key, front, faults, t)
  {
    assert m in front + [m];
  }

  /** One event, all its matches: every subscribed task of a matched org's
      namespace is told exactly once and started exactly when its rule wakes,
      and no other task is touched. */
  lemma {:induction false} EachTaskToldOnce(db: Db, e: Input, key: string, matches: seq<Planned>, faults: Faults)
    requires Sound(db) && OnePerOrg(matches)
    ensures ToldOnce(db, Applied(db, e, key, matches, faults), key, matches, faults)
    decreases matches
  {
    if matches != [] {
      var n := |matches| - 1;
      var front, m := matches[..n], matches[n];
      EachTaskToldOnce(db, e, key, front, faults);
      OneMatchTellsOnce(db, Applied(db, e, key, front, faults), e, key, front, m, faults);
      assert front + [m] == matches;
    }
  }

  /** The match is for the task's org and namespace, and a subscribed link with
      the key leads to the task. */
  predicate Leads(db: Db, key: string, m: Planned, l: Link, t: nat)
    requires t < |db.tasks|
  {
    && l.task == t && l.key == key && l.subscribed
    && m.org == db.tasks[t].org && m.rule.namespace == db.tasks[t].namespace
  }

  /** Who is told of an event, read off the tables: an unarchived task that some
      match leads to, once; it is started exactly when that match's rule wakes. */
  lemma {:induction false} ToldExactly(db: Db, e: Input, key: string, matches: seq<Planned>, faults: Faults, t: nat)
    requires Sound(db) && OnePerOrg(matches) && t < |db.tasks|
    ensures var r := Applied(db, e, key, matches, faults);
            var hears := t !in faults.attach && !db.tasks[t].row.archived;
            && ToldTimes(r.events, t) == ToldTimes(db.events, t)
                 + (if hears && exists m, l :: m in matches && l in db.links && Leads(db, key, m, l, t) then 1 else 0)
            && r.tasks[t] == StartedIf(hears && exists m, l :: m in matches && l in db.links
                                                             && Leads(db, key, m, l, t) && m.rule.wakeup, db.tasks[t])
  {
    EachTaskToldOnce(db, e, key, matches, faults);
    forall m | m in matches
      ensures Reaches(db, key, m, faults, t) <==>
        t !in faults.attach && !db.tasks[t].row.archived && exists l :: l in db.links && Leads(db, key, m, l, t)
    {
      ReachesExactly(db, key, m, faults, t);
    }
  }

  lemma ReachesExactly(db: Db, key: string, m: Planned, faults: Faults, t: nat)
    requires Sound(db) && t < |db.tasks|
    ensures Reaches(db, key, m, faults, t) <==>
      t !in faults.attach && !db.tasks[t].row.archived && exists l :: l in db.links && Leads(db, key, m, l, t)
  {
    if l :| l in db.links && Leads(db, key, m, l, t) {
      var i :| 0 <= i < |db.links| && db.links[i] == l;
      assert !db.tasks[t].row.archived ==> Subscribes(db, db.links[i], key, m.org, m.rule.namespace);
    }
  }

  /** The match asks for a task of its own: nobody alive in its org and namespace
      is subscribed, its rule creates, and the database lets it. */
  predicate WantsTask(db: Db, key: string, m: Planned, faults: Faults)
    requires Sound(db)
  {
    && m.rule.create.Some? && m.org !in faults.create
    && forall l :: l in db.links ==> db.tasks[l.task].row.archived || !Leads(db, key, m, l, l.task)
  }

  function Wanted(db: Db, key: string, matches: seq<Planned>, faults: Faults): nat
    requires Sound(db)
  {
    if matches == [] then 0
    else Wanted(db, key, matches[..|matches| - 1], faults)
         + if WantsTask(db, key, matches[|matches| - 1], faults) then 1 else 0
  }

  lemma WantsExactly(db: Db, key: string, m: Planned, faults: Faults)
    requires Sound(db)
    ensures Creates(db, key, m, faults) <==> WantsTask(db, key, m, faults)
  {
    NobodySubscribes(db, key, m.org, m.rule.namespace);
    forall l | l in db.links
      ensures Subscribes(db, l, key, m.org, m.rule.namespace) <==>
        !db.tasks[l.task].row.archived && Leads(db, key, m, l, l.task)
    {
    }
  }

  /** One task is created for each match that asks for one, and none else. */
  lemma {:induction false} CreatedExactly(db: Db, e: Input, key: string, matches: seq<Planned>, faults: Faults)
    requires Sound(db)
    ensures |Applied(db, e, key, matches, faults).tasks| == |db.tasks| + Wanted(db, key, matches, faults)
    decreases matches
  {
    if matches != [] {
      CreatedExactly(db, e, key, matches[..|matches| - 1], faults);
      WantsExactly(db, key, matches[|matches| - 1], faults);
    }
  }

  // ---- outcomes ------------------------------------------------------------

  predicate CreateFails(db: Db, key: string, m: Planned, faults: Faults)
    requires Sound(db)
  {
    Subscribers(db, key, m.org, m.rule.namespace) == [] && m.rule.create.Some? && m.org in faults.create
  }

  /** There is one outcome per match, in order, and it names the match's org and
      rule except exactly when a creation failed, where it stays blank. */
  lemma {:induction false} OutcomesNameTheirRules(db: Db, e: Input, key: string, matches: seq<Planned>, faults: Faults)
    requires Sound(db)
    ensures |Outcomes(db, e, key, matches, faults)| == |matches|
    ensures forall i :: 0 <= i < |matches| ==>
      var o := Outcomes(db, e, key, matches, faults)[i];
      && (o.rule == Some(matches[i].rule) <==> !CreateFails(db, key, matches[i], faults))
      && (o.rule.Some? ==> o.org == matches[i].org)
      && (o.rule.None? ==> o == BLANK)
      && (o.created <==> Creates(db, key, matches[i], faults))
      && |o.tasks| == |o.events|
    decreases matches
  {
    if matches != [] {
      OutcomesNameTheirRules(db, e, key, matches[..|matches| - 1], faults);
    }
  }

  /** The event rows an outcome names are its tasks' own, in order: each tells
      its task of the event in the match's org. */
  predicate PointsAt(events: seq<Event>, o: Outcome, org: int, e: Input) {
    && |o.tasks| == |o.events|
    && forall j :: 0 <= j < |o.events| ==>
         && o.events[j] < |events|
         && events[o.events[j]].task == o.tasks[j] && events[o.events[j]].org == org
         && events[o.events[j]].payload == External(e.description, e.url, e.data, e.details, e.source, e.kind)
  }

  lemma {:induction false} AttachedRows(db: Db, ids: seq<nat>, e: Input, org: int, wake: bool, faults: set<nat>)
    requires Known(db, ids)
    ensures var events, woken := AttachedAll(db, ids, e, org, wake, faults).events, Woken(ids, faults);
            && db.events <= events && |events| == |db.events| + |woken|
            && forall j :: 0 <= j < |woken| ==> events[|db.events| + j] == Event(woken[j], org, wake, Told(e))
    decreases ids
  {
    if ids != [] {
      AttachedRows(db, ids[..|ids| - 1], e, org, wake, faults);
    }
  }

  lemma OneOutcomePoints(now: Db, seen: Db, e: Input, key: string, m: Planned, faults: Faults)
    requires Sound(seen) && |seen.tasks| <= |now.tasks|
    ensures now.events <= AppliedOne(now, seen, e, key, m, faults).events
    ensures PointsAt(AppliedOne(now, seen, e, key, m, faults).events, OutcomeOf(now, seen, key, m, faults), m.org, e)
  {
    var ids := Subscribers(seen, key, m.org, m.rule.namespace);
    if ids != [] {
      AttachedRows(now, ids, e, m.org, m.rule.wakeup, faults.attach);
    }
  }

  lemma {:induction false} OutcomesPointAtRows(db: Db, e: Input, key: string, matches: seq<Planned>, faults: Faults)
    requires Sound(db)
    ensures var events := Applied(db, e, key, matches, faults).events;
            var outcomes := Outcomes(db, e, key, matches, faults);
            && |outcomes| == |matches|
            && forall i :: 0 <= i < |matches| ==> PointsAt(events, outcomes[i], matches[i].org, e)
    decreases matches
  {
    if matches != [] {
      var front := matches[..|matches| - 1];
      OutcomesPointAtRows(db, e, key, front, faults);
      OneOutcomePoints(Applied(db, e, key, front, faults), db, e, key, matches[|matches| - 1], faults);
    }
  }

  lemma {:induction false} AttachingWritesOneEach(db: Db, ids: seq<nat>, e: Input, org: int, wake: bool, faults: set<nat>)
    requires Known(db, ids)
    ensures Externals(AttachedAll(db, ids, e, org, wake, faults).events) == Externals(db.events) + |Woken(ids, faults)|
    decreases ids
  {
    if ids != [] {
      AttachingWritesOneEach(db, ids[..|ids| - 1], e, org, wake, faults);
      var before := AttachedAll(db, ids[..|ids| - 1], e, org, wake, faults);
      var told := Event(ids[|ids| - 1], org, wake, Told(e));
      assert (before.events + [told])[..|before.events|] == before.events;
    }
  }

  /** The number Route returns is the number of trigger events it wrote. */
  lemma {:induction false} TallyCountsEvents(db: Db, e: Input, key: string, matches: seq<Planned>, faults: Faults)
    requires Sound(db)
    ensures Externals(Applied(db, e, key, matches, faults).events)
         == Externals(db.events) + Tally(Outcomes(db, e, key, matches, faults))
    decreases matches
  {
    if matches != [] {
      var n := |matches| - 1;
      var front, m := matches[..n], matches[n];
      TallyCountsEvents(db, e, key, front, faults);
      var now := Applied(db, e, key, front, faults);
      var outcomes := Outcomes(db, e, key, matches, faults);
      assert outcomes[..|outcomes| - 1] == Outcomes(db, e, key, front, faults);
      var ids := Subscribers(db, key, m.org, m.rule.namespace);
      if ids != [] {
        AttachingWritesOneEach(now, ids, e, m.org, m.rule.wakeup, faults.attach);
      } else if Creates(db, key, m, faults) {
        CreatingWritesOne(now, e, key, m.org, m.rule, m.rule.create.value, 0);
      }
    }
  }

  // ---- one task per org, key and namespace ---------------------------------

  /** The links created together with a task by the router, taken two by two,
      differ in org, key or namespace. */
  ghost predicate Unique(db: Db)
    requires Sound(db)
  {
    forall i, j :: 0 <= i < j < |db.links| && db.links[i].trigger && db.links[j].trigger ==>
      !SameSlot(db, db.links[i], db.links[j])
  }

  predicate SameSlot(db: Db, a: Link, b: Link)
    requires Sound(db) && a in db.links && b in db.links
  {
    && a.key == b.key && db.tasks[a.task].org == db.tasks[b.task].org
    && db.tasks[a.task].namespace == db.tasks[b.task].namespace
  }

  predicate InSlot(db: Db, l: Link, key: string, org: int, namespace: string)
    requires Sound(db) && l in db.links
  {
    l.key == key && db.tasks[l.task].org == org && db.tasks[l.task].namespace == namespace
  }

  /** Whatever the router created is still there to be found. */
  ghost predicate AllVisible(db: Db)
    requires Sound(db)
  {
    forall l :: l in db.links && l.trigger ==> l.subscribed && !db.tasks[l.task].row.archived
  }

  lemma NobodySubscribes(db: Db, key: string, org: int, namespace: string)
    requires Sound(db)
    ensures Subscribers(db, key, org, namespace) == [] <==>
      forall l :: l in db.links ==> !Subscribes(db, l, key, org, namespace)
  {
    var ids := Subscribers(db, key, org, namespace);
    if ids != [] {
      assert ids[0] in ids;
    }
    if l :| l in db.links && Subscribes(db, l, key, org, namespace) {
      assert l.task in ids;
    }
  }

  /** What routing keeps of the tables it started from: old links stay, old
      tasks stay in their org and namespace and unarchived, and the links it adds
      are triggers with the key, one for each of some of the matched orgs. */
  ghost predicate Grown(db: Db, now: Db, key: string, url: string, front: seq<Planned>)
    requires Sound(db)
  {
    && Sound(now) && |db.tasks| <= |now.tasks| && db.links <= now.links
    && (forall t :: 0 <= t < |db.tasks| ==>
          now.tasks[t].org == db.tasks[t].org && now.tasks[t].namespace == db.tasks[t].namespace
          && now.tasks[t].row.archived == db.tasks[t].row.archived)
    && (forall i :: |db.links| <= i < |now.links| ==>
          var l := now.links[i];
          && l.key == key && l.url == url && l.trigger && l.subscribed && !now.tasks[l.task].row.archived
          && exists m :: m in front && m.org == now.tasks[l.task].org)
  }

  lemma AttachingKeepsTables(db: Db, ids: seq<nat>, e: Input, org: int, wake: bool, faults: set<nat>)
    requires Sound(db) && Known(db, ids)
    ensures var r := AttachedAll(db, ids, e, org, wake, faults);
      && Sound(r) && |r.tasks| == |db.tasks| && r.links == db.links
      && forall t :: 0 <= t < |db.tasks| ==>
           r.tasks[t].org == db.tasks[t].org && r.tasks[t].namespace == db.tasks[t].namespace
           && r.tasks[t].row.archived == db.tasks[t].row.archived
    decreases ids
  {
    if ids != [] {
      AttachingKeepsTables(db, ids[..|ids| - 1], e, org, wake, faults);
    }
  }

  lemma CreatingGrows(db: Db, now: Db, e: Input, key: string, front: seq<Planned>, m: Planned)
    requires Sound(db) && Grown(db, now, key, e.url, front) && m.rule.create.Some?
    ensures Grown(db, Created(now, e, key, m.org, m.rule, m.rule.create.value), key, e.url, front + [m])
  {
    var r := Created(now, e, key, m.org, m.rule, m.rule.create.value);
    assert m in front + [m];
    assert forall ev :: ev in r.events ==> ev in now.events || ev.task == |now.tasks|;
    forall i | |db.links| <= i < |r.links|
      ensures exists p :: p in front + [m] && p.org == r.tasks[r.links[i].task].org
    {
      if i < |now.links| {
        assert r.links[i] == now.links[i];
        var p :| p in front && p.org == now.tasks[now.links[i].task].org;
        assert p in front + [m];
      } else {
        assert m.org == r.tasks[r.links[i].task].org;
      }
    }
  }

  lemma OneMatchGrows(db: Db, now: Db, e: Input, key: string, front: seq<Planned>, m: Planned, faults: Faults)
    requires Sound(db) && Grown(db, now, key, e.url, front)
    ensures Grown(db, AppliedOne(now, db, e, key, m, faults), key, e.url, front + [m])
  {
    var ids := Subscribers(db, key, m.org, m.rule.namespace);
    assert forall p :: p in front ==> p in front + [m];
    if ids != [] {
      AttachingKeepsTables(now, ids, e, m.org, m.rule.wakeup, faults.attach);
    } else if Creates(db, key, m, faults) {
      CreatingGrows(db, now, e, key, front, m);
    }
  }

  lemma {:induction false} RoutingGrows(db: Db, e: Input, key: string, matches: seq<Planned>, faults: Faults)
    requires Sound(db)
    ensures Grown(db, Applied(db, e, key, matches, faults), key, e.url, matches)
    decreases matches
  {
    if matches != [] {
      var n := |matches| - 1;
      var front, m := matches[..n], matches[n];
      RoutingGrows(db, e, key, front, faults);
      OneMatchGrows(db, Applied(db, e, key, front, faults), e, key, front, m, faults);
      assert front + [m] == matches;
    }
  }

  /** Creating a task for a slot nobody subscribes to, when all that the router
      created can be found, leaves one creation per slot. */
  lemma CreatingKeepsUnique(db: Db, now: Db, e: Input, key: string, front: seq<Planned>, m: Planned, faults: Faults)
    requires Sound(db) && AllVisible(db) && Grown(db, now, key, e.url, front) && Unique(now)
    requires Creates(db, key, m, faults) && forall p :: p in front ==> p.org != m.org
    requires Grown(db, Created(now, e, key, m.org, m.rule, m.rule.create.value), key, e.url, front + [m])
    ensures Unique(Created(now, e, key, m.org, m.rule, m.rule.create.value))
  {
    var r := Created(now, e, key, m.org, m.rule, m.rule.create.value);
    NobodySubscribes(db, key, m.org, m.rule.namespace);
    forall i, j | 0 <= i < j < |r.links| && r.links[i].trigger && r.links[j].trigger
      ensures !SameSlot(r, r.links[i], r.links[j])
    {
      assert r.links[i] == now.links[i];
      if j < |now.links| {
        assert r.links[j] == now.links[j] && !SameSlot(now, now.links[i], now.links[j]);
      } else if i < |db.links| {
        assert now.links[i] == db.links[i] && db.links[i] in db.links;
        assert !Subscribes(db, db.links[i], key, m.org, m.rule.namespace);
      } else {
        var p :| p in front && p.org == now.tasks[now.links[i].task].org;
      }
    }
  }

  lemma AttachingKeepsUnique(db: Db, ids: seq<nat>, e: Input, org: int, wake: bool, faults: set<nat>)
    requires Sound(db) && Known(db, ids) && Unique(db)
    ensures Sound(AttachedAll(db, ids, e, org, wake, faults)) && Unique(AttachedAll(db, ids, e, org, wake, faults))
  {
    AttachingKeepsTables(db, ids, e, org, wake, faults);
    var r := AttachedAll(db, ids, e, org, wake, faults);
    forall i, j | 0 <= i < j < |r.links| && r.links[i].trigger && r.links[j].trigger
      ensures !SameSlot(r, r.links[i], r.links[j])
    {
      assert !SameSlot(db, db.links[i], db.links[j]);
    }
  }

  lemma {:induction false} RoutingKeepsUnique(db: Db, e: Input, key: string, matches: seq<Planned>, faults: Faults)
    requires Sound(db) && AllVisible(db) && Unique(db) && OnePerOrg(matches)
    ensures var r := Applied(db, e, key, matches, faults); Sound(r) && Unique(r)
    decreases matches
  {
    if matches != [] {
      var n := |matches| - 1;
      var front, m := matches[..n], matches[n];
      var now := Applied(db, e, key, front, faults);
      RoutingKeepsUnique(db, e, key, front, faults);
      RoutingGrows(db, e, key, front, faults);
      OneMatchGrows(db, now, e, key, front, m, faults);
      var ids := Subscribers(db, key, m.org, m.rule.namespace);
      if ids != [] {
        AttachingKeepsUnique(now, ids, e, m.org, m.rule.wakeup, faults.attach);
      } else if Creates(db, key, m, faults) {
        CreatingKeepsUnique(db, now, e, key, front, m, faults);
      }
    }
  }

  ghost predicate CreatedBefore(db: Db, key: string, org: int, namespace: string)
    requires Sound(db)
  {
    exists l :: l in db.links && l.trigger && InSlot(db, l, key, org, namespace)
  }

  /** For one match the duplicate appears exactly when the router creates a task
      for a slot it created one for before: the earlier one was archived or its
      link unsubscribed, so the lookup did not return it. */
  lemma DuplicatesExactly(db: Db, e: Input, key: string, m: Planned, faults: Faults)
    requires Sound(db) && Unique(db)
    ensures var r := AppliedOne(db, db, e, key, m, faults);
      Sound(r) && (Unique(r) <==> !(Creates(db, key, m, faults) && CreatedBefore(db, key, m.org, m.rule.namespace)))
  {
    var ids := Subscribers(db, key, m.org, m.rule.namespace);
    if ids != [] {
      AttachingKeepsUnique(db, ids, e, m.org, m.rule.wakeup, faults.attach);
    } else if Creates(db, key, m, faults) {
      assert Grown(db, db, key, e.url, []);
      CreatingGrows(db, db, e, key, [], m);
      var r := Created(db, e, key, m.org, m.rule, m.rule.create.value);
      var n := |db.links|;
      if l :| l in db.links && l.trigger && InSlot(db, l, key, m.org, m.rule.namespace) {
        var i :| 0 <= i < n && db.links[i] == l;
        assert r.links[i] == l && SameSlot(r, r.links[i], r.links[n]);
      } else {
        forall i, j | 0 <= i < j < |r.links| && r.links[i].trigger && r.links[j].trigger
          ensures !SameSlot(r, r.links[i], r.links[j])
        {
          assert r.links[i] == db.links[i] && db.links[i] in db.links;
          assert j < n ==> r.links[j] == db.links[j] && !SameSlot(db, db.links[i], db.links[j]);
        }
      }
    }
  }

  lemma CreatedIsFound(db: Db, e: Input, key: string, m: Planned)
    requires Sound(db) && m.rule.create.Some?
    ensures var r := Created(db, e, key, m.org, m.rule, m.rule.create.value);
      && Sound(r) && |r.links| == |db.links| + 1
      && (forall i :: 0 <= i < |db.links| && Subscribes(r, r.links[i], key, m.org, m.rule.namespace) ==>
            Subscribes(db, db.links[i], key, m.org, m.rule.namespace))
      && Subscribes(r, r.links[|db.links|], key, m.org, m.rule.namespace)
  {
    assert Grown(db, db, key, e.url, []);
    CreatingGrows(db, db, e, key, [], m);
  }

  /** What a redelivery meets: the created task is in a state creation may
      leave it in, it is the one subscriber of its slot, and the next event for
      that slot is attached to it alone and creates nothing. */
  lemma RedeliveryFindsTheTask(db: Db, e: Input, key: string, m: Planned, faults: Faults,
                               again: Input, n: Planned, later: Faults)
    requires Sound(db) && Creates(db, key, m, faults)
    requires n.org == m.org && n.rule.namespace == m.rule.namespace
    ensures var r := AppliedOne(db, db, e, key, m, faults);
      var task := |db.tasks|;
      && Sound(r) && |r.tasks| == task + 1 && Tasks.Created(r.tasks[task].row)
      && Subscribers(r, key, m.org, m.rule.namespace) == [task]
      && |AppliedOne(r, r, again, key, n, later).tasks| == task + 1
      && (task !in later.attach ==>
            ToldTimes(AppliedOne(r, r, again, key, n, later).events, task) == ToldTimes(r.events, task) + 1)
  {
    var r := Created(db, e, key, m.org, m.rule, m.rule.create.value);
    CreatedIsFound(db, e, key, m);
    NobodySubscribes(db, key, m.org, m.rule.namespace);
    NoneAmong(r, |db.links|, key, m.org, m.rule.namespace);
    var ids := Subscribers(r, key, m.org, m.rule.namespace);
    assert ids == [|db.tasks|];
    AttachesOncePerTask(r, ids, again, n.org, n.rule.wakeup, later.attach);
  }

  lemma {:induction false} NoneAmong(db: Db, n: nat, key: string, org: int, namespace: string)
    requires Sound(db) && n <= |db.links|
    requires forall i :: 0 <= i < n ==> !Subscribes(db, db.links[i], key, org, namespace)
    ensures SubscribedTo(db, n, key, org, namespace) == []
  {
    if n > 0 {
      NoneAmong(db, n - 1, key, org, namespace);
    }
  }

  // ---- any run of events ---------------------------------------------------

  /** A step is an event routed for the orgs the store lists, or anything else
      that happens to the tables. */
  datatype Step = Routed(e: Input, orgs: seq<OrgRules>, matches: seq<Planned>, faults: Faults) | Elsewhere(db: Db)

  /** What the rest of the system leaves alone: the router's tasks stay in place
      and can be found, and nobody else writes trigger links. */
  ghost predicate LeavesCreations(db: Db, next: Db)
    requires Sound(db)
  {
    && Sound(next) && AllVisible(next) && |db.links| <= |next.links|
    && (forall i :: 0 <= i < |db.links| && db.links[i].trigger ==> next.links[i] == db.links[i])
    && (forall i :: 0 <= i < |next.links| && next.links[i].trigger ==>
          i < |db.links| && next.links[i] == db.links[i]
          && next.links[i].task < |db.tasks|
          && next.tasks[next.links[i].task].org == db.tasks[db.links[i].task].org
          && next.tasks[next.links[i].task].namespace == db.tasks[db.links[i].task].namespace)
  }

  ghost predicate Legal(db: Db, s: Step)
    requires Sound(db)
  {
    match s
    case Routed(e, orgs, matches, _) => DistinctOrgs(orgs) && IsPlan(matches, orgs, e)
    case Elsewhere(next) => LeavesCreations(db, next)
  }

  function Stepped(db: Db, s: Step, keyOf: string -> string): Db
    requires Sound(db)
  {
    match s
    case Routed(e, _, matches, faults) => if e.url == "" then db else Applied(db, e, keyOf(e.url), matches, faults)
    case Elsewhere(next) => next
  }

  /** Every trigger link carries the key of its URL. */
  ghost predicate Keyed(db: Db, keyOf: string -> string) {
    forall l :: l in db.links && l.trigger ==> l.key == keyOf(l.url)
  }

  ghost predicate Deduplicated(db: Db, keyOf: string -> string) {
    Sound(db) && AllVisible(db) && Unique(db) && Keyed(db, keyOf)
  }

  /** dbs are the tables before the steps, between them and after. */
  ghost predicate Runs(dbs: seq<Db>, steps: seq<Step>, keyOf: string -> string) {
    && |dbs| == |steps| + 1
    && forall i :: 0 <= i < |steps| ==>
         Sound(dbs[i]) && Legal(dbs[i], steps[i]) && dbs[i + 1] == Stepped(dbs[i], steps[i], keyOf)
  }

  lemma GrownIsVisible(db: Db, now: Db, key: string, url: string, matches: seq<Planned>, keyOf: string -> string)
    requires Sound(db) && AllVisible(db) && Keyed(db, keyOf) && Grown(db, now, key, url, matches) && key == keyOf(url)
    ensures AllVisible(now) && Keyed(now, keyOf)
  {
    forall l | l in now.links && l.trigger
      ensures l.subscribed && !now.tasks[l.task].row.archived && l.key == keyOf(l.url)
    {
      var i :| 0 <= i < |now.links| && now.links[i] == l;
      if i < |db.links| {
        assert l == db.links[i] && l in db.links;
      }
    }
  }

  lemma LeavingKeeps(db: Db, next: Db, keyOf: string -> string)
    requires Deduplicated(db, keyOf) && LeavesCreations(db, next)
    ensures Deduplicated(next, keyOf)
  {
    forall i, j | 0 <= i < j < |next.links| && next.links[i].trigger && next.links[j].trigger
      ensures !SameSlot(next, next.links[i], next.links[j])
    {
      assert !SameSlot(db, db.links[i], db.links[j]);
    }
    forall l | l in next.links && l.trigger ensures l.key == keyOf(l.url) {
      var i :| 0 <= i < |next.links| && next.links[i] == l;
      assert db.links[i] in db.links;
    }
  }

  lemma StepKeeps(db: Db, s: Step, keyOf: string -> string)
    requires Deduplicated(db, keyOf) && Legal(db, s)
    ensures Deduplicated(Stepped(db, s, keyOf), keyOf)
  {
    if s.Elsewhere? {
      LeavingKeeps(db, s.db, keyOf);
    } else if s.e.url != "" {
      var key := keyOf(s.e.url);
      PlanIsLeastPerOrg(s.matches, s.orgs, s.e);
      RoutingKeepsUnique(db, s.e, key, s.matches, s.faults);
      RoutingGrows(db, s.e, key, s.matches, s.faults);
      GrownIsVisible(db, Applied(db, s.e, key, s.matches, s.faults), key, s.e.url, s.matches, keyOf);
    }
  }

  /** Over any run of routed events, with anything in between that leaves the
      router's tasks where the lookup finds them, the router has created at most
      one task for each org, routing key and namespace. */
  lemma {:induction false} AtMostOneTaskPerSlot(dbs: seq<Db>, steps: seq<Step>, keyOf: string -> string)
    requires Runs(dbs, steps, keyOf) && Deduplicated(dbs[0], keyOf)
    ensures Deduplicated(dbs[|steps|], keyOf)
    decreases steps
  {
    if steps != [] {
      var n := |steps| - 1;
      assert Runs(dbs[..n + 1], steps[..n], keyOf);
      AtMostOneTaskPerSlot(dbs[..n + 1], steps[..n], keyOf);
      assert dbs[..n + 1][n] == dbs[n];
      StepKeeps(dbs[n], steps[n], keyOf);
    }
  }
}

/** The deduplication theorem at the key the server uses. */
module RoutedResources {
  import RoutingKeys
  import opened EventRouting
  import opened RouterRuns
  import opened RoutingRules
  import Tasks

  /** url is one of the resource's URLs: its web or REST form, of itself, a
      sub-page or a comment, with any query or fragment. */
  ghost predicate Names(url: string, r: RoutingKeys.Ref) {
    exists tail, trailer :: RoutingKeys.PathTail(tail) && RoutingKeys.Trailer(trailer) && IsForm(url, r, tail, trailer)
  }

  predicate IsForm(url: string, r: RoutingKeys.Ref, tail: string, trailer: string) {
    || url == RoutingKeys.Web(RoutingKeys.GithubWebUrl(r, tail)) + trailer
    || url == RoutingKeys.Web(RoutingKeys.GithubApiUrl(r, tail)) + trailer
  }

  ghost predicate KeyedByRoutingKey(keyOf: string -> string, lib: RoutingKeys.Lib) {
    forall url :: keyOf(url) == RoutingKeys.RoutingKey(lib, url)
  }

  lemma OneKeyPerResource(lib: RoutingKeys.Lib, r: RoutingKeys.Ref, url: string)
    requires lib.Reads("github.com") && lib.Reads("api.github.com") && RoutingKeys.PlainRef(r) && Names(url, r)
    ensures RoutingKeys.RoutingKey(lib, url) == RoutingKeys.Web(RoutingKeys.GithubWebUrl(r, ""))
  {
    var tail, trailer :| RoutingKeys.PathTail(tail) && RoutingKeys.Trailer(trailer) && IsForm(url, r, tail, trailer);
    RoutingKeys.GithubFormsAgree(lib, r, tail, trailer);
  }

  /** Two creations for one GitHub issue or pull request, in one org and
      namespace, are one creation, whichever of the resource's URLs each event
      carried. */
  lemma OneTaskPerGithubResource(db: Db, keyOf: string -> string, lib: RoutingKeys.Lib, r: RoutingKeys.Ref, i: nat, j: nat)
    requires lib.Reads("github.com") && lib.Reads("api.github.com") && KeyedByRoutingKey(keyOf, lib)
    requires Deduplicated(db, keyOf) && RoutingKeys.PlainRef(r) && i < |db.links| && j < |db.links|
    requires db.links[i].trigger && Names(db.links[i].url, r)
    requires db.links[j].trigger && Names(db.links[j].url, r)
    requires db.tasks[db.links[i].task].org == db.tasks[db.links[j].task].org
    requires db.tasks[db.links[i].task].namespace == db.tasks[db.links[j].task].namespace
    ensures i == j
  {
    OneKeyPerResource(lib, r, db.links[i].url);
    OneKeyPerResource(lib, r, db.links[j].url);
    assert db.links[i] in db.links && db.links[j] in db.links;
    assert SameSlot(db, db.links[i], db.links[j]);
  }

  /** The issue's own page, a comment on it and its REST form all name it. */
  lemma FormsName(r: RoutingKeys.Ref, tail: string, trailer: string)
    requires RoutingKeys.PathTail(tail) && RoutingKeys.Trailer(trailer)
    ensures Names(RoutingKeys.Web(RoutingKeys.GithubWebUrl(r, tail)) + trailer, r)
    ensures Names(RoutingKeys.Web(RoutingKeys.GithubApiUrl(r, tail)) + trailer, r)
  {
    assert IsForm(RoutingKeys.Web(RoutingKeys.GithubWebUrl(r, tail)) + trailer, r, tail, trailer);
    assert IsForm(RoutingKeys.Web(RoutingKeys.GithubApiUrl(r, tail)) + trailer, r, tail, trailer);
  }

  /** A creation for one URL of a resource and then an event with another: the
      event is attached to the created task and creates nothing. */
  lemma OtherFormFindsTheTask(db: Db, keyOf: string -> string, lib: RoutingKeys.Lib, r: RoutingKeys.Ref,
                              e: Input, m: Planned, faults: Faults, again: Input, n: Planned, later: Faults)
    requires lib.Reads("github.com") && lib.Reads("api.github.com") && KeyedByRoutingKey(keyOf, lib)
    requires RoutingKeys.PlainRef(r) && Names(e.url, r) && Names(again.url, r)
    requires Sound(db) && Creates(db, keyOf(e.url), m, faults)
    requires n.org == m.org && n.rule.namespace == m.rule.namespace
    ensures var made := AppliedOne(db, db, e, keyOf(e.url), m, faults);
      var task := |db.tasks|;
      && Sound(made) && |made.tasks| == task + 1
      && |AppliedOne(made, made, again, keyOf(again.url), n, later).tasks| == task + 1
      && (task !in later.attach ==>
            ToldTimes(AppliedOne(made, made, again, keyOf(again.url), n, later).events, task)
            == ToldTimes(made.events, task) + 1)
  {
    OneKeyPerResource(lib, r, e.url);
    OneKeyPerResource(lib, r, again.url);
    RedeliveryFindsTheTask(db, e, keyOf(e.url), m, faults, again, n, later);
  }
}
