/** Rule matching and first-match planning. Follows
    internal/server/eventrouter/rule.go and Plan in eventrouter.go. */
module RoutingRules {
  import opened Options

  datatype Condition = Condition(attr: string, op: string, value: string)

  datatype CreateAction = CreateAction(workspace: string, runner: string, prompt: string, autoArchive: int)

  /** open is the Public flag: the rule also fires for actors outside the org. */
  datatype Rule = Rule(source: string, kind: string, conditions: seq<Condition>, create: Option<CreateAction>,
                       wakeup: bool, open: bool, namespace: string)

  datatype Input = Input(source: string, kind: string, description: string, data: string, url: string,
                         attrs: map<string, seq<string>>, details: map<string, string>)

  /** One org's rules and whether the actor is a member of it. */
  datatype OrgRules = OrgRules(org: int, member: bool, rules: seq<Rule>)

  datatype Planned = Planned(org: int, rule: Rule, index: nat)

  /** body and url are views of the event; other dimensions are what it carries. */
  function Values(e: Input, attr: string): seq<string> {
    if attr == "body" then [e.data]
    else if attr == "url" then [e.url]
    else if attr in e.attrs then e.attrs[attr] else []
  }

  predicate Contains(s: string, part: string) {
    exists i :: 0 <= i <= |s| && part <= s[i..]
  }

  predicate Satisfies(op: string, v: string, value: string) {
    if op == "equals" then v == value
    else if op == "prefix" then value <= v
    else if op == "contains" then Contains(v, value)
    else false
  }

  predicate ConditionMatch(c: Condition, values: seq<string>) {
    exists v :: v in values && Satisfies(c.op, v, c.value)
  }

  predicate Match(rule: Rule, e: Input) {
    && (rule.source == "" || rule.source == e.source)
    && (rule.kind == "" || rule.kind == e.kind)
    && forall c :: c in rule.conditions ==> ConditionMatch(c, Values(e, c.attr))
  }

  /** Conditions narrow: one more has to hold too. */
  lemma ConditionsNarrow(rule: Rule, c: Condition, e: Input)
    ensures Match(rule.(conditions := rule.conditions + [c]), e) <==>
              Match(rule, e) && ConditionMatch(c, Values(e, c.attr))
  {
    var more := rule.conditions + [c];
    assert forall d :: d in more <==> d in rule.conditions || d == c;
  }

  /** A rule that names nothing matches everything, and a source or kind it names has to be the event's. */
  lemma NamesNarrow(rule: Rule, e: Input)
    ensures Match(rule.(source := "", kind := "", conditions := []), e)
    ensures Match(rule, e) <==>
              Match(rule.(source := "", kind := ""), e) && rule.source in {"", e.source} && rule.kind in {"", e.kind}
  {
  }

  /** A condition holds when one of the values does, so an attribute without values satisfies none. */
  lemma AnyValueWill(c: Condition, some: seq<string>, others: seq<string>)
    ensures ConditionMatch(c, some + others) <==> ConditionMatch(c, some) || ConditionMatch(c, others)
    ensures !ConditionMatch(c, [])
  {
    assert forall v :: v in some + others <==> v in some || v in others;
  }

  ghost predicate StartsWith(v: string, value: string) {
    exists rest :: v == value + rest
  }

  ghost predicate Surrounds(v: string, front: string, value: string) {
    exists rest :: v == front + value + rest
  }

  ghost predicate Holds(v: string, value: string) {
    exists front :: Surrounds(v, front, value)
  }

  lemma PrefixExactly(v: string, value: string)
    ensures value <= v <==> StartsWith(v, value)
  {
    if value <= v {
      assert v == value + v[|value|..];
    }
  }

  lemma ContainsExactly(v: string, value: string)
    ensures Contains(v, value) <==> Holds(v, value)
  {
    if Contains(v, value) {
      var i :| 0 <= i <= |v| && value <= v[i..];
      assert v == v[..i] + value + v[i + |value|..];
      assert Surrounds(v, v[..i], value);
    }
    if front :| Surrounds(v, front, value) {
      var rest :| v == front + value + rest;
      assert v[|front|..] == value + rest;
    }
  }

  /** What the three operators mean for a value; there is no other operator. */
  lemma OperatorsExactly(attr: string, op: string, value: string, v: string)
    ensures ConditionMatch(Condition(attr, op, value), [v]) <==>
      || (op == "equals" && v == value)
      || (op == "prefix" && StartsWith(v, value))
      || (op == "contains" && Holds(v, value))
  {
    assert v in [v];
    assert ConditionMatch(Condition(attr, op, value), [v]) <==> Satisfies(op, v, value);
    assert "equals" != "prefix" && "equals"[0] != "contains"[0];
    PrefixExactly(v, value);
    ContainsExactly(v, value);
  }

  /** The event's text and address are attributes of their own, whatever
      dimensions of those names it carries. */
  lemma ReservedAttributes(e: Input, attr: string)
    ensures Values(e, "body") == [e.data] && Values(e, "url") == [e.url]
    ensures attr !in {"body", "url"} ==> forall v :: v in Values(e, attr) <==> attr in e.attrs && v in e.attrs[attr]
  {
  }

  /** A rule the actor's event may fire: any of a member org's, else only those opened up. */
  predicate Fires(org: OrgRules, i: nat, e: Input)
    requires i < |org.rules|
  {
    (org.member || org.rules[i].open) && Match(org.rules[i], e)
  }

  predicate FiresFirst(org: OrgRules, i: nat, e: Input) {
    i < |org.rules| && Fires(org, i, e) && forall j: nat :: j < i ==> !Fires(org, j, e)
  }

  /** matches holds, in the orgs' order, each org's first firing rule. */
  ghost predicate IsPlan(matches: seq<Planned>, orgs: seq<OrgRules>, e: Input)
    decreases orgs
  {
    if orgs == [] then matches == []
    else
      var front, last := orgs[..|orgs| - 1], orgs[|orgs| - 1];
      if exists i: nat :: FiresFirst(last, i, e) then
        && matches != []
        && IsPlan(matches[..|matches| - 1], front, e)
        && var m := matches[|matches| - 1];
           m.org == last.org && FiresFirst(last, m.index, e) && m.rule == last.rules[m.index]
      else IsPlan(matches, front, e)
  }

  method Plan(orgs: seq<OrgRules>, e: Input) returns (matches: seq<Planned>)
    ensures IsPlan(matches, orgs, e)
  {
    matches := [];
    for k := 0 to |orgs|
      invariant IsPlan(matches, orgs[..k], e)
    {
      var org := orgs[k];
      assert orgs[..k + 1][..k] == orgs[..k];
      ghost var before := matches;
      ghost var found: Option<nat> := None;
      for i := 0 to |org.rules|
        invariant found.None? && matches == before
        invariant forall j: nat :: j < i ==> !Fires(org, j, e)
      {
        if !org.member && !org.rules[i].open {
          continue;
        }
        if Match(org.rules[i], e) {
          matches := matches + [Planned(org.org, org.rules[i], i)];
          found := Some(i);
          break;
        }
      }
      if found.Some? {
        assert matches == before + [Planned(org.org, org.rules[found.value], found.value)];
        assert matches[..|matches| - 1] == before && FiresFirst(org, found.value, e);
      } else {
        assert forall i: nat :: !FiresFirst(org, i, e);
      }
    }
    assert orgs[..|orgs|] == orgs;
  }

  predicate DistinctOrgs(orgs: seq<OrgRules>) {
    forall i, j :: 0 <= i < j < |orgs| ==> orgs[i].org != orgs[j].org
  }

  predicate OnePerOrg(matches: seq<Planned>) {
    forall i, j :: 0 <= i < j < |matches| ==> matches[i].org != matches[j].org
  }

  /** An org is planned exactly when one of its rules fires, with the least such
      rule, and no org is planned twice. */
  lemma {:induction false} PlanIsLeastPerOrg(matches: seq<Planned>, orgs: seq<OrgRules>, e: Input)
    requires IsPlan(matches, orgs, e) && DistinctOrgs(orgs)
    ensures OnePerOrg(matches)
    ensures forall m :: m in matches <==>
      exists org :: org in orgs && m.org == org.org && FiresFirst(org, m.index, e) && m.rule == org.rules[m.index]
    decreases orgs
  {
    if orgs != [] {
      var n := |orgs| - 1;
      var last := orgs[n];
      assert orgs == orgs[..n] + [last];
      if exists i: nat :: FiresFirst(last, i, e) {
        var front, m := matches[..|matches| - 1], matches[|matches| - 1];
        assert matches == front + [m];
        PlanIsLeastPerOrg(front, orgs[..n], e);
        forall p | p in front ensures p.org != last.org {
          var org :| org in orgs[..n] && p.org == org.org;
        }
        forall p: Planned | p.org == last.org && FiresFirst(last, p.index, e) && p.rule == last.rules[p.index]
          ensures p == m
        {
        }
      } else {
        PlanIsLeastPerOrg(matches, orgs[..n], e);
      }
    }
  }

  /** Whether the org lets the actor's event meet the rule. */
  predicate Meets(org: OrgRules, rule: Rule, e: Input) {
    (org.member || rule.open) && Match(rule, e)
  }

  /** An org's planned rule is one the actor may meet, matching, after none such. */
  lemma PlannedRuleApplies(matches: seq<Planned>, orgs: seq<OrgRules>, e: Input, org: OrgRules, m: Planned)
    requires IsPlan(matches, orgs, e) && DistinctOrgs(orgs) && org in orgs && m in matches && m.org == org.org
    ensures m.index < |org.rules| && m.rule == org.rules[m.index] && Meets(org, m.rule, e)
    ensures forall j :: 0 <= j < m.index ==> !Meets(org, org.rules[j], e)
  {
    PlanIsLeastPerOrg(matches, orgs, e);
    var other :| other in orgs && m.org == other.org && FiresFirst(other, m.index, e) && m.rule == other.rules[m.index];
    assert other == org;
    forall j | 0 <= j < m.index ensures !Meets(org, org.rules[j], e) {
      assert !Fires(org, j, e);
    }
  }

  /** An org is left out exactly when the actor meets none of its rules. */
  lemma LeftOutExactly(matches: seq<Planned>, orgs: seq<OrgRules>, e: Input, org: OrgRules)
    requires IsPlan(matches, orgs, e) && DistinctOrgs(orgs) && org in orgs
    ensures (forall m :: m in matches ==> m.org != org.org) <==> forall rule :: rule in org.rules ==> !Meets(org, rule, e)
  {
    PlanIsLeastPerOrg(matches, orgs, e);
    if rule :| rule in org.rules && Meets(org, rule, e) {
      var i :| 0 <= i < |org.rules| && org.rules[i] == rule;
      EarliestFires(org, i, e);
      var j: nat :| j < |org.rules| && FiresFirst(org, j, e);
      var p := Planned(org.org, org.rules[j], j);
      assert p.org == org.org && FiresFirst(org, p.index, e) && p.rule == org.rules[p.index];
      assert p in matches;
    }
    if m :| m in matches && m.org == org.org {
      PlannedRuleApplies(matches, orgs, e, org, m);
    }
  }

  /** The order rules are listed in is their priority: a rule that fires is
      passed over exactly when an earlier one fires too. */
  lemma PassedOverExactly(org: OrgRules, i: nat, e: Input)
    requires i < |org.rules| && Fires(org, i, e)
    ensures !FiresFirst(org, i, e) <==> exists j: nat :: j < i && FiresFirst(org, j, e)
  {
    if !FiresFirst(org, i, e) {
      var j: nat :| j < i && Fires(org, j, e);
      EarliestFires(org, j, e);
    }
  }

  lemma {:induction false} EarliestFires(org: OrgRules, i: nat, e: Input)
    requires i < |org.rules| && Fires(org, i, e)
    ensures exists j: nat :: j <= i && FiresFirst(org, j, e)
  {
    if !FiresFirst(org, i, e) {
      var j: nat :| j < i && Fires(org, j, e);
      EarliestFires(org, j, e);
    }
  }
}

/** Waking the tasks subscribed to an event's URL, or creating one. Follows
    Apply, Route, attach and create in internal/server/eventrouter/eventrouter.go
    and the link lookup in internal/store/sql/queries/link.sql. */
module EventRouting {
  import opened Options
  import opened RoutingRules
  import Tasks

  datatype TaskRecord = TaskRecord(org: int, namespace: string, runner: string, workspace: string, row: Tasks.Row)

  datatype Link = Link(task: nat, url: string, key: string, trigger: bool, subscribed: bool)

  datatype Payload =
    | External(description: string, url: string, data: string, details: map<string, string>, source: string, kind: string)
    | CreatedByRouter(status: Tasks.Status)
    | LinkAdded(url: string)
    | Instruction(text: string)

  datatype Event = Event(task: nat, org: int, wake: bool, payload: Payload)

  /** A change notification: the runner it calls for, and whether it speaks in
      the agent channel. */
  datatype Notice = Notice(task: nat, org: int, runner: string, speaks: bool)

  /** The tables the router writes. Ids are positions; links are in the order
      they were created. */
  datatype Db = Db(tasks: seq<TaskRecord>, links: seq<Link>, events: seq<Event>, notices: seq<Notice>)

  predicate Sound(db: Db) {
    (forall l :: l in db.links ==> l.task < |db.tasks|) && (forall ev :: ev in db.events ==> ev.task < |db.tasks|)
  }

  datatype Outcome = Outcome(org: int, rule: Option<Rule>, tasks: seq<nat>, events: seq<nat>, created: bool)

  /** The value an outcome has before anything is put in it. */
  const BLANK := Outcome(0, None, [], [], false)

  /** Which transactions the database fails: the tasks that cannot be attached
      to, and the orgs a task cannot be created in. */
  datatype Faults = Faults(attach: set<nat>, create: set<int>)

  // ---- the link lookup -----------------------------------------------------

  /** A link the lookup returns for the org and that its rule's namespace keeps. */
  predicate Subscribes(db: Db, l: Link, key: string, org: int, namespace: string)
    requires Sound(db) && l in db.links
  {
    && l.key == key && l.subscribed
    && !db.tasks[l.task].row.archived
    && db.tasks[l.task].org == org && db.tasks[l.task].namespace == namespace
  }

  /** The tasks of those among the first n links, newest link first. */
  function SubscribedTo(db: Db, n: nat, key: string, org: int, namespace: string): (ids: seq<nat>)
    requires Sound(db) && n <= |db.links|
    ensures Known(db, ids)
    ensures forall t :: t in ids <==>
      exists i :: 0 <= i < n && db.links[i].task == t && Subscribes(db, db.links[i], key, org, namespace)
  {
    if n == 0 then []
    else
      var rest := SubscribedTo(db, n - 1, key, org, namespace);
      if Subscribes(db, db.links[n - 1], key, org, namespace) then [db.links[n - 1].task] + rest else rest
  }

  function Subscribers(db: Db, key: string, org: int, namespace: string): (ids: seq<nat>)
    requires Sound(db)
    ensures Known(db, ids)
  {
    SubscribedTo(db, |db.links|, key, org, namespace)
  }

  /** The newest link comes first: what older links lead to comes after. */
  lemma {:induction false} NewestFirst(db: Db, n: nat, older: nat, key: string, org: int, namespace: string)
    requires Sound(db) && older <= n <= |db.links|
    ensures var ids, rest := SubscribedTo(db, n, key, org, namespace), SubscribedTo(db, older, key, org, namespace);
            && |rest| <= |ids| && ids[|ids| - |rest|..] == rest
            && forall i :: 0 <= i < |ids| - |rest| ==> exists j :: older <= j < n && db.links[j].task == ids[i]
  {
    if older < n {
      NewestFirst(db, n - 1, older, key, org, namespace);
      var before := SubscribedTo(db, n - 1, key, org, namespace);
      var ids := SubscribedTo(db, n, key, org, namespace);
      assert ids == before || (ids[1..] == before && ids[0] == db.links[n - 1].task);
    }
  }

  // ---- waking --------------------------------------------------------------

  /** The first instruction: the rule's own prompt, else one that names the event. */
  ghost predicate Instructs(text: string, e: Input, action: CreateAction) {
    if action.prompt != "" then text == action.prompt
    else exists front, back :: NamesEvent(text, front, e, back)
  }

  predicate NamesEvent(text: string, front: string, e: Input, back: string) {
    text == front + e.source + " " + e.kind + back
  }

  function Told(e: Input): Payload {
    External(e.description, e.url, e.data, e.details, e.source, e.kind)
  }

  function Attached(db: Db, task: nat, e: Input, org: int, wake: bool): Db
    requires task < |db.tasks|
  {
    var t := db.tasks[task];
    var woken := if wake then t.(row := Tasks.StartedByUser(t.row)) else t;
    db.(tasks := db.tasks[task := woken],
        events := db.events + [Event(task, org, wake, Told(e))],
        notices := db.notices + [Notice(task, org, if wake then Tasks.RunnerToNotify(woken.row, woken.runner) else "",
                                        !wake || Tasks.IsTerminal(t.row.status))])
  }

  /** One event row and one notice more: the row tells the task what the event
      says; the notice calls for the task's runner when the task was woken and now
      has work, and speaks unless a task still at work was woken. */
  lemma AttachingTells(db: Db, task: nat, e: Input, org: int, wake: bool)
    requires task < |db.tasks|
    ensures var r, row := Attached(db, task, e, org, wake), db.tasks[task].row;
            var now := r.tasks[task];
            var calls := wake && !now.row.archived && now.row.command != Tasks.NoCommand;
            && r.links == db.links
            && r.events == db.events
                 + [Event(task, org, wake, External(e.description, e.url, e.data, e.details, e.source, e.kind))]
            && r.notices == db.notices
                 + [Notice(task, org, if calls then now.runner else "", wake ==> Tasks.IsTerminal(row.status))]
  {
  }

  predicate Known(db: Db, ids: seq<nat>) {
    forall i :: 0 <= i < |ids| ==> ids[i] < |db.tasks|
  }

  /** Whether the loop attaches to the last of ids: not a repeat, and no fault. */
  predicate Attaches(ids: seq<nat>, faults: set<nat>)
    requires ids != []
  {
    ids[|ids| - 1] !in ids[..|ids| - 1] && ids[|ids| - 1] !in faults
  }

  function AttachedAll(db: Db, ids: seq<nat>, e: Input, org: int, wake: bool, faults: set<nat>): (r: Db)
    requires Known(db, ids)
    ensures |r.tasks| == |db.tasks|
    decreases ids
  {
    if ids == [] then db
    else
      var before := AttachedAll(db, ids[..|ids| - 1], e, org, wake, faults);
      if Attaches(ids, faults) then Attached(before, ids[|ids| - 1], e, org, wake) else before
  }

  /** The tasks the loop attached to, in order. */
  function Woken(ids: seq<nat>, faults: set<nat>): seq<nat> {
    if ids == [] then []
    else
      var before := Woken(ids[..|ids| - 1], faults);
      if Attaches(ids, faults) then before + [ids[|ids| - 1]] else before
  }

  function Numbered(first: nat, count: nat): seq<nat> {
    seq(count, i requires 0 <= i => first + i)
  }

  // ---- creating ------------------------------------------------------------

  function Prompt(e: Input, action: CreateAction): string {
    if action.prompt == ""
    then "You were created by a routing rule in response to a " + e.source + " " + e.kind + " event."
    else action.prompt
  }

  lemma PromptInstructs(e: Input, action: CreateAction)
    ensures Instructs(Prompt(e, action), e, action)
  {
    if action.prompt == "" {
      var front, back := "You were created by a routing rule in response to a ", " event.";
      NamingInstructs(Prompt(e, action), front, e, back, action);
    }
  }

  lemma NamingInstructs(text: string, front: string, e: Input, back: string, action: CreateAction)
    requires action.prompt == "" && NamesEvent(text, front, e, back)
    ensures Instructs(text, e, action)
  {
  }

  /** A task row as a routing rule writes it, with its trigger link and the four
      events of its timeline. */
  function Created(db: Db, e: Input, key: string, org: int, rule: Rule, action: CreateAction): Db {
    var task := |db.tasks|;
    var row := Tasks.Row(Tasks.Pending, Tasks.StartCmd, 1, false, action.autoArchive);
    var t := TaskRecord(org, rule.namespace, action.runner, action.workspace, row);
    Db(db.tasks + [t],
       db.links + [Link(task, e.url, key, true, true)],
       db.events + [Event(task, org, false, Told(e)), Event(task, org, false, CreatedByRouter(row.status)),
                    Event(task, org, false, LinkAdded(e.url)), Event(task, org, true, Instruction(Prompt(e, action)))],
       db.notices + [Notice(task, org, Tasks.RunnerToNotify(t.row, t.runner), true)])
  }

  /** The created task is the rule's: its workspace, runner, namespace and timeout,
      waiting for its first run, linked to the event's URL, its runner called. */
  lemma CreatingFollowsRule(db: Db, e: Input, key: string, org: int, rule: Rule, action: CreateAction)
    ensures var r, t := Created(db, e, key, org, rule, action), |db.tasks|;
            && |r.tasks| == t + 1 && db.tasks < r.tasks
            && r.tasks[t].org == org && r.tasks[t].namespace == rule.namespace
            && r.tasks[t].runner == action.runner && r.tasks[t].workspace == action.workspace
            && Tasks.Created(r.tasks[t].row) && r.tasks[t].row.status.Pending?
            && r.tasks[t].row.autoArchive == action.autoArchive
            && r.links == db.links + [Link(t, e.url, key, true, true)]
            && r.notices == db.notices + [Notice(t, org, action.runner, true)]
  {
  }

  /** Its timeline begins with the event, its creation, its link and the prompt,
      and the prompt alone wakes. */
  lemma CreatingWritesTimeline(db: Db, e: Input, key: string, org: int, rule: Rule, action: CreateAction)
    ensures var r, k := Created(db, e, key, org, rule, action), |db.events|;
            && |r.events| == k + 4 && db.events < r.events
            && (forall i :: k <= i < k + 4 ==>
                  r.events[i].task == |db.tasks| && r.events[i].org == org && (r.events[i].wake <==> i == k + 3))
            && r.events[k].payload == External(e.description, e.url, e.data, e.details, e.source, e.kind)
            && r.events[k + 1].payload == CreatedByRouter(Tasks.Pending)
            && r.events[k + 2].payload == LinkAdded(e.url)
            && r.events[k + 3].payload.Instruction?
            && Instructs(r.events[k + 3].payload.text, e, action)
  {
    PromptInstructs(e, action);
  }

  // ---- one match, then all of them -----------------------------------------

  predicate Creates(db: Db, key: string, m: Planned, faults: Faults)
    requires Sound(db)
  {
    Subscribers(db, key, m.org, m.rule.namespace) == [] && m.rule.create.Some? && m.org !in faults.create
  }

  /** now is the database as the match finds it, seen as the lookup found it. */
  function AppliedOne(now: Db, seen: Db, e: Input, key: string, m: Planned, faults: Faults): (r: Db)
    requires Sound(seen) && |seen.tasks| <= |now.tasks|
    ensures |now.tasks| <= |r.tasks|
  {
    var ids := Subscribers(seen, key, m.org, m.rule.namespace);
    if ids != [] then AttachedAll(now, ids, e, m.org, m.rule.wakeup, faults.attach)
    else if Creates(seen, key, m, faults) then Created(now, e, key, m.org, m.rule, m.rule.create.value)
    else now
  }

  function OutcomeOf(now: Db, seen: Db, key: string, m: Planned, faults: Faults): Outcome
    requires Sound(seen)
  {
    var ids := Subscribers(seen, key, m.org, m.rule.namespace);
    if ids != [] then
      var woken := Woken(ids, faults.attach);
      Outcome(m.org, Some(m.rule), woken, Numbered(|now.events|, |woken|), false)
    else if Creates(seen, key, m, faults) then
      Outcome(m.org, Some(m.rule), [|now.tasks|], [|now.events|], true)
    else if m.rule.create.Some? then BLANK
    else Outcome(m.org, Some(m.rule), [], [], false)
  }

  function Applied(db: Db, e: Input, key: string, matches: seq<Planned>, faults: Faults): (r: Db)
    requires Sound(db)
    ensures |db.tasks| <= |r.tasks|
    decreases matches
  {
    if matches == [] then db
    else AppliedOne(Applied(db, e, key, matches[..|matches| - 1], faults), db, e, key, matches[|matches| - 1], faults)
  }

  function Outcomes(db: Db, e: Input, key: string, matches: seq<Planned>, faults: Faults): seq<Outcome>
    requires Sound(db)
    decreases matches
  {
    if matches == [] then []
    else
      var front := matches[..|matches| - 1];
      Outcomes(db, e, key, front, faults)
        + [OutcomeOf(Applied(db, e, key, front, faults), db, key, matches[|matches| - 1], faults)]
  }

  function Tally(outcomes: seq<Outcome>): nat
    decreases outcomes
  {
    if outcomes == [] then 0 else Tally(outcomes[..|outcomes| - 1]) + |outcomes[|outcomes| - 1].tasks|
  }

  class Router {
    var db: Db
    const keyOf: string -> string

    constructor (db: Db, keyOf: string -> string)
      ensures this.db == db && this.keyOf == keyOf
    {
      this.db, this.keyOf := db, keyOf;
    }

    /** One transaction: the event row, then the task's start when it wakes. */
    method Attach(task: nat, e: Input, org: int, wake: bool, fails: bool) returns (event: Option<nat>)
      requires task < |db.tasks|
      modifies this
      ensures event == if fails then None else Some(old(|db.events|))
      ensures db == if fails then old(db) else Attached(old(db), task, e, org, wake)
    {
      if fails {
        return None;
      }
      event := Some(|db.events|);
      var events := db.events + [Event(task, org, wake, Told(e))];
      if !wake {
        db := db.(tasks := db.tasks[task := db.tasks[task]], events := events,
                  notices := db.notices + [Notice(task, org, "", true)]);
        return;
      }
      var t := db.tasks[task];
      var wasDone := Tasks.IsTerminal(t.row.status);
      var woken := t.(row := Tasks.StartedByUser(t.row));
      db := db.(tasks := db.tasks[task := woken], events := events,
                notices := db.notices + [Notice(task, org, Tasks.RunnerToNotify(woken.row, woken.runner), wasDone)]);
    }

    method Create(e: Input, org: int, rule: Rule, fails: bool) returns (made: Option<(nat, nat)>)
      requires rule.create.Some?
      modifies this
      ensures made == if fails then None else Some((old(|db.tasks|), old(|db.events|)))
      ensures db == if fails then old(db) else Created(old(db), e, keyOf(e.url), org, rule, rule.create.value)
    {
      if fails {
        return None;
      }
      var task, external := |db.tasks|, |db.events|;
      var action := rule.create.value;
      var row := Tasks.Row(Tasks.Pending, Tasks.StartCmd, 1, false, action.autoArchive);
      var t := TaskRecord(org, rule.namespace, action.runner, action.workspace, row);
      var events := db.events + [Event(task, org, false, Told(e))];
      events := events + [Event(task, org, false, CreatedByRouter(row.status))];
      events := events + [Event(task, org, false, LinkAdded(e.url))];
      events := events + [Event(task, org, true, Instruction(Prompt(e, action)))];
      assert events == Created(db, e, keyOf(e.url), org, rule, action).events;
      db := Db(db.tasks + [t], db.links + [Link(task, e.url, keyOf(e.url), true, true)], events,
               db.notices + [Notice(task, org, Tasks.RunnerToNotify(t.row, t.runner), true)]);
      made := Some((task, external));
    }

    /** The loop over one org's links. */
    method AttachEach(ids: seq<nat>, e: Input, org: int, wake: bool, faults: set<nat>)
      returns (tasks: seq<nat>, events: seq<nat>)
      requires Known(db, ids)
      modifies this
      ensures db == AttachedAll(old(db), ids, e, org, wake, faults)
      ensures tasks == Woken(ids, faults) && events == Numbered(old(|db.events|), |tasks|)
    {
      var seen: set<nat> := {};
      tasks, events := [], [];
      for i := 0 to |ids|
        invariant forall t :: t in seen <==> t in ids[..i]
        invariant db == AttachedAll(old(db), ids[..i], e, org, wake, faults)
        invariant tasks == Woken(ids[..i], faults)
        invariant events == Numbered(old(|db.events|), |tasks|) && |db.events| == old(|db.events|) + |tasks|
      {
        assert ids[..i + 1][..i] == ids[..i];
        if ids[i] in seen {
          continue;
        }
        seen := seen + {ids[i]};
        var event := Attach(ids[i], e, org, wake, ids[i] in faults);
        if event.None? {
          continue;
        }
        tasks, events := tasks + [ids[i]], events + [event.value];
      }
      assert ids[..|ids|] == ids;
    }

    method Apply(e: Input, matches: seq<Planned>, faults: Faults) returns (outcomes: seq<Outcome>)
      requires Sound(db)
      modifies this
      ensures db == Applied(old(db), e, keyOf(e.url), matches, faults)
      ensures outcomes == Outcomes(old(db), e, keyOf(e.url), matches, faults)
    {
      if matches == [] {
        return [];
      }
      ghost var key := keyOf(e.url);
      var seen := db;
      outcomes := seq(|matches|, _ => BLANK);
      for i := 0 to |matches|
        invariant |outcomes| == |matches| && seen == old(db)
        invariant db == Applied(seen, e, key, matches[..i], faults)
        invariant outcomes[..i] == Outcomes(seen, e, key, matches[..i], faults)
        invariant forall j :: i <= j < |matches| ==> outcomes[j] == BLANK
      {
        var m := matches[i];
        assert matches[..i + 1][..i] == matches[..i];
        ghost var now := db;
        ghost var before := outcomes[..i];
        var outcome := Outcome(m.org, Some(m.rule), [], [], false);
        var ids := Subscribers(seen, keyOf(e.url), m.org, m.rule.namespace);
        if ids != [] {
          var tasks, events := AttachEach(ids, e, m.org, m.rule.wakeup, faults.attach);
          outcome := outcome.(tasks := tasks, events := events);
        } else if m.rule.create.Some? {
          var made := Create(e, m.org, m.rule, m.org in faults.create);
          if made.None? {
            assert OutcomeOf(now, seen, key, m, faults) == BLANK == outcomes[i];
            assert outcomes[..i + 1] == before + [BLANK];
            continue;
          }
          outcome := outcome.(tasks := [made.value.0], events := [made.value.1], created := true);
        }
        outcomes := outcomes[i := outcome];
        assert outcome == OutcomeOf(now, seen, key, m, faults);
        assert outcomes[..i + 1] == before + [outcome];
      }
      assert matches[..|matches|] == matches && outcomes[..|matches|] == outcomes;
    }

    method Route(e: Input, orgs: seq<OrgRules>, faults: Faults) returns (n: nat, matches: seq<Planned>)
      requires Sound(db)
      modifies this
      ensures e.url == "" ==> n == 0 && matches == [] && db == old(db)
      ensures e.url != "" ==> IsPlan(matches, orgs, e)
      ensures e.url != "" ==> db == Applied(old(db), e, keyOf(e.url), matches, faults)
      ensures e.url != "" ==> n == Tally(Outcomes(old(db), e, keyOf(e.url), matches, faults))
    {
      if e.url == "" {
        return 0, [];
      }
      matches := Plan(orgs, e);
      var outcomes := Apply(e, matches, faults);
      n := 0;
      for i := 0 to |outcomes|
        invariant n == Tally(outcomes[..i])
      {
        assert outcomes[..i + 1][..i] == outcomes[..i];
        n := n + |outcomes[i].tasks|;
      }
      assert outcomes[..|outcomes|] == outcomes;
    }
  }

  // ---- what attaching to a list of tasks does ------------------------------

  /** How many of the events tell the task of something external. */
  function ToldTimes(events: seq<Event>, task: nat): nat {
    if events == [] then 0
    else
      var last := events[|events| - 1];
      ToldTimes(events[..|events| - 1], task) + (if last.task == task && last.payload.External? then 1 else 0)
  }

  lemma {:induction false} ToldTimesAppend(a: seq<Event>, b: seq<Event>, task: nat)
    ensures ToldTimes(a + b, task) == ToldTimes(a, task) + ToldTimes(b, task)
  {
    if b == [] {
      assert a + b == a;
    } else {
      assert (a + b)[..|a + b| - 1] == a + b[..|b| - 1];
      ToldTimesAppend(a, b[..|b| - 1], task);
    }
  }

  /** Each task listed, however often, is told once unless its transaction
      fails, and started once when the rule wakes; all else stays. */
  lemma {:induction false} AttachesOncePerTask(db: Db, ids: seq<nat>, e: Input, org: int, wake: bool, faults: set<nat>)
    requires Known(db, ids)
    ensures var r := AttachedAll(db, ids, e, org, wake, faults);
      && |r.tasks| == |db.tasks| && r.links == db.links && db.events <= r.events
      && (forall t :: 0 <= t < |db.tasks| ==>
          var reached := t in ids && t !in faults;
          && ToldTimes(r.events, t) == ToldTimes(db.events, t) + (if reached then 1 else 0)
          && r.tasks[t] == if reached && wake then db.tasks[t].(row := Tasks.StartedByUser(db.tasks[t].row))
                           else db.tasks[t])
    decreases ids
  {
    if ids != [] {
      var n := |ids| - 1;
      assert ids == ids[..n] + [ids[n]];
      AttachesOncePerTask(db, ids[..n], e, org, wake, faults);
      if Attaches(ids, faults) {
        var before := AttachedAll(db, ids[..n], e, org, wake, faults);
        forall t | 0 <= t < |db.tasks|
          ensures ToldTimes(Attached(before, ids[n], e, org, wake).events, t)
               == ToldTimes(before.events, t) + if t == ids[n] then 1 else 0
        {
          var told := Event(ids[n], org, wake, Told(e));
          assert (before.events + [told])[..|before.events|] == before.events;
        }
      }
    }
  }
}
