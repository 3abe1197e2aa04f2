/** The guards in front of a launch: one pass of an event over the workspace's agents and subscriptions, with
    its cooldown, durable dedup, backpressure and once-per-pass rule.  The laws here are
    those of passes that do not interleave. */
module LaunchGuards {
  import opened Agents
  import opened Counting

  datatype Option<+T> = None | Some(value: T)

  /** Kinds, events and subscriptions are only ever compared. */
  datatype Event = Event(workspace: Workspace, kind: nat, eventId: Option<nat>, causedBy: Option<AgentId>)

  /** What a cooldown is kept for: an agent and a kind of event, or a subscription. */
  datatype Key = SpecKey(workspace: Workspace, agent: AgentId, kind: nat) | SubKey(workspace: Workspace, subscription: nat)

  datatype Row = Row(workspace: Workspace, agent: AgentId, eventId: nat)

  /** What the registry answers for an agent: nothing, or whether it is enabled and triggered by the event. */
  datatype SpecAnswer = Unreadable | Spec(enabled: bool, triggered: bool)

  /** An agent of the workspace as the pass meets it: `at` is the clock, `lookup` whether the session store
      could be asked about the event, `admitted` the budget gate's answer. */
  datatype Entry = Entry(agent: AgentId, creator: bool, spec: SpecAnswer, at: int, lookup: bool, admitted: bool)

  /** A subscription as the pass meets it; `wakes` when its reaction is an agent and its selector matches. */
  datatype Sub = Sub(id: nat, wakes: bool, agent: AgentId, spec: SpecAnswer, cooldownSec: Option<nat>, at: int, lookup: bool, admitted: bool)

  datatype Launch = Launch(key: Key, agent: AgentId, event: Event, at: int, cooldown: nat)

  datatype Config = Config(cooldownMs: nat, maxQueued: nat)

  /** `rows` are the trigger sessions the store holds; a row appears when its queued run starts. */
  datatype State = State(last: map<Key, int>, pending: map<AgentKey, nat>, rows: set<Row>, log: seq<Launch>)

  const START := State(map[], map[], {}, [])

  datatype Pass = Pass(state: State, woken: set<AgentId>)

  // ---------------------------------------------------------------- one pass, on values

  predicate Cool(s: State, key: Key, at: int, cooldown: nat) {
    key in s.last ==> at - s.last[key] >= cooldown
  }

  /** Novelty must be provable: an event with an id needs a lookup, and the lookup must find no session. */
  predicate Novel(s: State, event: Event, agent: AgentId, lookup: bool) {
    event.eventId.Some? ==> lookup && Row(event.workspace, agent, event.eventId.value) !in s.rows
  }

  predicate HasRoom(c: Config, s: State, event: Event, agent: AgentId) {
    PendingOf(s.pending, AgentKey(event.workspace, agent)) < c.maxQueued
  }

  function Commit(s: State, l: Launch): State {
    var k := AgentKey(l.event.workspace, l.agent);
    s.(last := s.last[l.key := l.at], pending := s.pending[k := PendingOf(s.pending, k) + 1], log := s.log + [l])
  }

  function EntryLaunch(c: Config, event: Event, e: Entry): Launch {
    Launch(SpecKey(event.workspace, e.agent, event.kind), e.agent, event, e.at, c.cooldownMs)
  }

  predicate EntryPasses(c: Config, s: State, event: Event, e: Entry) {
    && e.spec.Spec? && e.spec.enabled && e.spec.triggered
    && event.causedBy != Some(e.agent) && e.creator
    && Cool(s, SpecKey(event.workspace, e.agent, event.kind), e.at, c.cooldownMs)
    && Novel(s, event, e.agent, e.lookup) && HasRoom(c, s, event, e.agent) && e.admitted
  }

  function DoEntry(c: Config, p: Pass, event: Event, e: Entry): Pass {
    if EntryPasses(c, p.state, event, e) then Pass(Commit(p.state, EntryLaunch(c, event, e)), p.woken + {e.agent}) else p
  }

  /** A subscription's own cooldown, or the service's. */
  function SubCooldown(c: Config, sub: Sub): nat {
    if sub.cooldownSec.Some? then sub.cooldownSec.value * 1000 else c.cooldownMs
  }

  function SubLaunch(c: Config, event: Event, sub: Sub): Launch {
    Launch(SubKey(event.workspace, sub.id), sub.agent, event, sub.at, SubCooldown(c, sub))
  }

  /** The creator of the first entry with this id. */
  predicate CreatorKnown(entries: seq<Entry>, agent: AgentId) {
    entries != [] && if entries[0].agent == agent then entries[0].creator else CreatorKnown(entries[1..], agent)
  }

  predicate SubPasses(c: Config, p: Pass, event: Event, entries: seq<Entry>, sub: Sub) {
    && sub.wakes && sub.agent !in p.woken
    && sub.spec.Spec? && sub.spec.enabled
    && event.causedBy != Some(sub.agent) && CreatorKnown(entries, sub.agent)
    && Cool(p.state, SubKey(event.workspace, sub.id), sub.at, SubCooldown(c, sub))
    && Novel(p.state, event, sub.agent, sub.lookup) && HasRoom(c, p.state, event, sub.agent) && sub.admitted
  }

  function DoSub(c: Config, p: Pass, event: Event, entries: seq<Entry>, sub: Sub): Pass {
    if SubPasses(c, p, event, entries, sub) then Pass(Commit(p.state, SubLaunch(c, event, sub)), p.woken + {sub.agent}) else p
  }

  function DoEntries(c: Config, p: Pass, event: Event, entries: seq<Entry>): Pass {
    if entries == [] then p
    else DoEntry(c, DoEntries(c, p, event, entries[..|entries| - 1]), event, entries[|entries| - 1])
  }

  function DoSubs(c: Config, p: Pass, event: Event, entries: seq<Entry>, subs: seq<Sub>): Pass {
    if subs == [] then p
    else DoSub(c, DoSubs(c, p, event, entries, subs[..|subs| - 1]), event, entries, subs[|subs| - 1])
  }

  /** The whole pass.  An unreachable registry launches nothing; unreachable or absent subscriptions are []. */
  function DoPass(c: Config, s: State, event: Event, entries: Option<seq<Entry>>, subs: seq<Sub>): State {
    if entries.None? then s
    else DoSubs(c, DoEntries(c, Pass(s, {}), event, entries.value), event, entries.value, subs).state
  }

  // ---------------------------------------------------------------- the guards of the activator

  class Guards {
    const config: Config
    var last: map<Key, int>
    var pending: map<AgentKey, nat>
    var rows: set<Row>
    var log: seq<Launch>

    ghost function View(): State reads this { State(last, pending, rows, log) }

    constructor (c: Config)
      ensures View() == START && config == c
    {
      config, last, pending, rows, log := c, map[], map[], {}, [];
    }

    method Record(l: Launch)
      modifies this`last, this`pending, this`log
      ensures View() == Commit(old(View()), l)
    {
      var k := AgentKey(l.event.workspace, l.agent);
      last := last[l.key := l.at];
      pending := pending[k := PendingOf(pending, k) + 1];
      log := log + [l];
    }

    method OnEvent(event: Event, entries: Option<seq<Entry>>, subs: seq<Sub>) returns (activated: nat)
      modifies this`last, this`pending, this`log
      ensures View() == DoPass(config, old(View()), event, entries, subs)
      ensures |log| == |old(log)| + activated
    {
      if entries.None? { return 0; }
      ghost var was := View();
      var all := entries.value;
      var woken: set<AgentId> := {};
      activated := 0;
      var i := 0;
      while i < |all|
        invariant 0 <= i <= |all| && rows == was.rows
        invariant Pass(View(), woken) == DoEntries(config, Pass(was, {}), event, all[..i])
        invariant |log| == |was.log| + activated
      {
        assert all[..i + 1][..i] == all[..i];
        var e := all[i];
        i := i + 1;
        if !e.spec.Spec? || !e.spec.enabled || !e.spec.triggered { continue; }
        if event.causedBy == Some(e.agent) || !e.creator { continue; }
        var l := EntryLaunch(config, event, e);
        if l.key in last && e.at - last[l.key] < config.cooldownMs { continue; }
        if event.eventId.Some? && (!e.lookup || Row(event.workspace, e.agent, event.eventId.value) in rows) { continue; }
        if PendingOf(pending, AgentKey(event.workspace, e.agent)) >= config.maxQueued || !e.admitted { continue; }
        Record(l);
        activated := activated + 1;
        woken := woken + {e.agent};
      }
      assert all[..i] == all;
      var more := OnSubscriptions(event, all, subs, woken);
      activated := activated + more;
    }

    method OnSubscriptions(event: Event, entries: seq<Entry>, subs: seq<Sub>, woken: set<AgentId>) returns (activated: nat)
      modifies this`last, this`pending, this`log
      ensures View() == DoSubs(config, Pass(old(View()), woken), event, entries, subs).state
      ensures |log| == |old(log)| + activated
    {
      ghost var p := Pass(View(), woken);
      var seen := woken;
      activated := 0;
      var i := 0;
      while i < |subs|
        invariant 0 <= i <= |subs| && rows == p.state.rows
        invariant Pass(View(), seen) == DoSubs(config, p, event, entries, subs[..i])
        invariant |log| == |p.state.log| + activated
      {
        assert subs[..i + 1][..i] == subs[..i];
        var sub := subs[i];
        i := i + 1;
        if !sub.wakes || sub.agent in seen || !sub.spec.Spec? || !sub.spec.enabled { continue; }
        if event.causedBy == Some(sub.agent) || !CreatorKnown(entries, sub.agent) { continue; }
        var l := SubLaunch(config, event, sub);
        if l.key in last && sub.at - last[l.key] < l.cooldown { continue; }
        if event.eventId.Some? && (!sub.lookup || Row(event.workspace, sub.agent, event.eventId.value) in rows) { continue; }
        if PendingOf(pending, AgentKey(event.workspace, sub.agent)) >= config.maxQueued || !sub.admitted { continue; }
        Record(l);
        activated := activated + 1;
        seen := seen + {sub.agent};
      }
      assert subs[..i] == subs;
    }
  }

  // ---------------------------------------------------------------- runs of passes

  datatype Step =
    | Offer(event: Event, entries: Option<seq<Entry>>, subs: seq<Sub>)
    | RowAppears(row: Row)          // a queued run starts and writes its session
    | RunSettles(key: AgentKey)

  function Next(c: Config, s: State, step: Step): State {
    match step
    case Offer(event, entries, subs) => DoPass(c, s, event, entries, subs)
    case RowAppears(row) => s.(rows := s.rows + {row})
    case RunSettles(k) => s.(pending := s.pending[k := if PendingOf(s.pending, k) == 0 then 0 else PendingOf(s.pending, k) - 1])
  }

  function Reach(c: Config, steps: seq<Step>): State {
    if steps == [] then START else Next(c, Reach(c, steps[..|steps| - 1]), steps[|steps| - 1])
  }

  /** What a launch guards against, in the state it is recorded in. */
  ghost predicate Guarded(c: Config, s: State, l: Launch) {
    && Cool(s, l.key, l.at, l.cooldown) && (l.key.SpecKey? ==> l.cooldown == c.cooldownMs)
    && HasRoom(c, s, l.event, l.agent)
    && (l.event.eventId.Some? ==> Row(l.event.workspace, l.agent, l.event.eventId.value) !in s.rows)
    && l.event.causedBy != Some(l.agent)
  }

  /** A pass is a series of guarded launches of its event. */
  ghost predicate Extends(c: Config, event: Event, s: State, t: State, ls: seq<Launch>)
    decreases |ls|
  {
    if ls == [] then s == t
    else
      var l := ls[|ls| - 1];
      l.event == event &&
      exists m: State :: Extends(c, event, s, m, ls[..|ls| - 1]) && Guarded(c, m, l) && t == Commit(m, l)
  }

  lemma ExtendsPush(c: Config, event: Event, s: State, m: State, ls: seq<Launch>, l: Launch)
    requires Extends(c, event, s, m, ls) && Guarded(c, m, l) && l.event == event
    ensures Extends(c, event, s, Commit(m, l), ls + [l])
  {
    assert (ls + [l])[..|ls|] == ls;
  }

  lemma {:induction false} ExtendsLog(c: Config, event: Event, s: State, t: State, ls: seq<Launch>)
    requires Extends(c, event, s, t, ls)
    ensures t.log == s.log + ls && t.rows == s.rows
    decreases |ls|
  {
    if ls != [] {
      var n := |ls| - 1;
      var m: State :| Extends(c, event, s, m, ls[..n]) && Guarded(c, m, ls[n]) && t == Commit(m, ls[n]);
      ExtendsLog(c, event, s, m, ls[..n]);
      assert ls == ls[..n] + [ls[n]];
    }
  }

  lemma {:induction false} EntriesExtend(c: Config, s: State, p: Pass, event: Event, entries: seq<Entry>, ls: seq<Launch>)
    returns (more: seq<Launch>)
    requires Extends(c, event, s, p.state, ls)
    ensures Extends(c, event, s, DoEntries(c, p, event, entries).state, more)
  {
    more := ls;
    if entries != [] {
      var n := |entries| - 1;
      more := EntriesExtend(c, s, p, event, entries[..n], ls);
      var q := DoEntries(c, p, event, entries[..n]);
      if EntryPasses(c, q.state, event, entries[n]) {
        ExtendsPush(c, event, s, q.state, more, EntryLaunch(c, event, entries[n]));
        more := more + [EntryLaunch(c, event, entries[n])];
      }
    }
  }

  lemma {:induction false} SubsExtend(c: Config, s: State, p: Pass, event: Event, entries: seq<Entry>, subs: seq<Sub>, ls: seq<Launch>)
    returns (more: seq<Launch>)
    requires Extends(c, event, s, p.state, ls)
    ensures Extends(c, event, s, DoSubs(c, p, event, entries, subs).state, more)
  {
    more := ls;
    if subs != [] {
      var n := |subs| - 1;
      more := SubsExtend(c, s, p, event, entries, subs[..n], ls);
      var q := DoSubs(c, p, event, entries, subs[..n]);
      if SubPasses(c, q, event, entries, subs[n]) {
        ExtendsPush(c, event, s, q.state, more, SubLaunch(c, event, subs[n]));
        more := more + [SubLaunch(c, event, subs[n])];
      }
    }
  }

  lemma PassExtends(c: Config, s: State, event: Event, entries: Option<seq<Entry>>, subs: seq<Sub>) returns (ls: seq<Launch>)
    ensures Extends(c, event, s, DoPass(c, s, event, entries, subs), ls)
    ensures DoPass(c, s, event, entries, subs).log == s.log + ls
  {
    ls := [];
    if entries.Some? {
      ls := EntriesExtend(c, s, Pass(s, {}), event, entries.value, []);
      ls := SubsExtend(c, s, DoEntries(c, Pass(s, {}), event, entries.value), event, entries.value, subs, ls);
    }
    ExtendsLog(c, event, s, DoPass(c, s, event, entries, subs), ls);
  }

  // ---------------------------------------------------------------- rate

  /** `last` is at or after every launch of its key, and launches of one key keep their cooldown. */
  ghost predicate SpacedInv(c: Config, s: State) {
    && (forall i :: 0 <= i < |s.log| ==> s.log[i].key in s.last && s.log[i].at <= s.last[s.log[i].key])
    && (forall i :: 0 <= i < |s.log| && s.log[i].key.SpecKey? ==> s.log[i].cooldown == c.cooldownMs)
    && (forall i, j :: 0 <= i < j < |s.log| && s.log[i].key == s.log[j].key ==> s.log[j].at - s.log[i].at >= s.log[j].cooldown)
  }

  lemma CommitKeepsSpaced(c: Config, s: State, l: Launch)
    requires SpacedInv(c, s) && Guarded(c, s, l)
    ensures SpacedInv(c, Commit(s, l))
  {
  }

  lemma {:induction false} ExtendsKeepsSpaced(c: Config, event: Event, s: State, t: State, ls: seq<Launch>)
    requires SpacedInv(c, s) && Extends(c, event, s, t, ls)
    ensures SpacedInv(c, t)
    decreases |ls|
  {
    if ls != [] {
      var n := |ls| - 1;
      var m: State :| Extends(c, event, s, m, ls[..n]) && Guarded(c, m, ls[n]) && t == Commit(m, ls[n]);
      ExtendsKeepsSpaced(c, event, s, m, ls[..n]);
      CommitKeepsSpaced(c, m, ls[n]);
    }
  }

  lemma {:induction false} ReachSpaced(c: Config, steps: seq<Step>)
    ensures SpacedInv(c, Reach(c, steps))
  {
    if steps != [] {
      var n := |steps| - 1;
      var s := Reach(c, steps[..n]);
      ReachSpaced(c, steps[..n]);
      match steps[n] {
        case Offer(event, entries, subs) =>
          var ls := PassExtends(c, s, event, entries, subs);
          ExtendsKeepsSpaced(c, event, s, DoPass(c, s, event, entries, subs), ls);
        case _ =>
      }
    }
  }

  /** Over any run of passes, whatever the clock does, two launches of one agent for one kind of event are at
      least the cooldown apart, and two launches of one subscription the later one's own cooldown. */
  lemma LaunchesAreSpaced(c: Config, steps: seq<Step>, i: nat, j: nat)
    requires i < j < |Reach(c, steps).log| && Reach(c, steps).log[i].key == Reach(c, steps).log[j].key
    ensures var log := Reach(c, steps).log;
            && log[j].at - log[i].at >= log[j].cooldown
            && (log[j].key.SpecKey? ==> log[j].at - log[i].at >= c.cooldownMs)
  {
    ReachSpaced(c, steps);
  }

  function Within(key: Key, lo: int, length: nat): Launch -> bool {
    (l: Launch) => l.key == key && lo <= l.at <= lo + length
  }

  /** n launches in a window reach (n - 1) cooldowns into it. */
  lemma {:induction false} WindowSpan(c: Config, s: State, n: nat, key: Key, lo: int, length: nat) returns (last: nat)
    requires SpacedInv(c, s) && key.SpecKey? && n <= |s.log| && Count(s.log[..n], Within(key, lo, length)) > 0
    ensures last < n && Within(key, lo, length)(s.log[last])
    ensures s.log[last].at >= lo + (Count(s.log[..n], Within(key, lo, length)) - 1) * c.cooldownMs
  {
    var p := Within(key, lo, length);
    assert s.log[..n] == s.log[..n - 1] + [s.log[n - 1]];
    CountPush(s.log[..n - 1], s.log[n - 1], p);
    if Count(s.log[..n - 1], p) == 0 {
      last := n - 1;
    } else {
      last := WindowSpan(c, s, n - 1, key, lo, length);
      if p(s.log[n - 1]) {
        assert s.log[n - 1].at >= s.log[last].at + c.cooldownMs;
        Another(Count(s.log[..n - 1], p), c.cooldownMs);
        last := n - 1;
      }
    }
  }

  lemma Another(n: nat, c: nat)
    ensures (n + 1 - 1) * c == (n - 1) * c + c
  {
  }

  lemma Fits(n: nat, c: nat, length: nat)
    requires c > 0 && n > 0 && (n - 1) * c <= length
    ensures n <= length / c + 1
  {
    if n - 1 > length / c {
      var q := length / c;
      assert (n - 1) * c >= (q + 1) * c by { Monotone(q + 1, n - 1, c); }
    }
  }

  lemma Monotone(a: nat, b: nat, c: nat)
    requires a <= b
    ensures a * c <= b * c
  {
  }

  /** A window of length L holds at most floor(L / cooldown) + 1 launches of one agent for one kind. */
  lemma WindowIsBounded(c: Config, steps: seq<Step>, workspace: Workspace, agent: AgentId, kind: nat, lo: int, length: nat)
    requires c.cooldownMs > 0
    ensures Count(Reach(c, steps).log, Within(SpecKey(workspace, agent, kind), lo, length)) <= length / c.cooldownMs + 1
  {
    var s, key := Reach(c, steps), SpecKey(workspace, agent, kind);
    ReachSpaced(c, steps);
    assert s.log[..|s.log|] == s.log;
    var n := Count(s.log, Within(key, lo, length));
    if n > 0 {
      var last := WindowSpan(c, s, |s.log|, key, lo, length);
      Fits(n, c.cooldownMs, length);
    }
  }

  // ---------------------------------------------------------------- dedup, backpressure, no self-reaction

  /** No launch added by a pass reacts to the agent's own run, or is for an event the store already holds a
      session of that agent for. */
  lemma {:induction false} AddedAreGuarded(c: Config, event: Event, s: State, t: State, ls: seq<Launch>, i: nat)
    requires Extends(c, event, s, t, ls) && i < |ls|
    ensures ls[i].event == event && event.causedBy != Some(ls[i].agent)
    ensures event.eventId.Some? ==> Row(event.workspace, ls[i].agent, event.eventId.value) !in s.rows
    decreases |ls|
  {
    var n := |ls| - 1;
    var m: State :| Extends(c, event, s, m, ls[..n]) && Guarded(c, m, ls[n]) && t == Commit(m, ls[n]);
    if i < n { AddedAreGuarded(c, event, s, m, ls[..n], i); }
    ExtendsLog(c, event, s, m, ls[..n]);
  }

  lemma StepAdds(c: Config, s: State, step: Step) returns (ls: seq<Launch>)
    ensures Next(c, s, step).log == s.log + ls && s.rows <= Next(c, s, step).rows
    ensures forall i :: 0 <= i < |ls| ==> ls[i].event.causedBy != Some(ls[i].agent)
    ensures forall i :: 0 <= i < |ls| && ls[i].event.eventId.Some? ==>
              Row(ls[i].event.workspace, ls[i].agent, ls[i].event.eventId.value) !in s.rows
  {
    ls := [];
    match step {
      case Offer(event, entries, subs) =>
        ls := PassExtends(c, s, event, entries, subs);
        ExtendsLog(c, event, s, Next(c, s, step), ls);
        forall i | 0 <= i < |ls|
          ensures ls[i].event == event && event.causedBy != Some(ls[i].agent)
          ensures event.eventId.Some? ==> Row(event.workspace, ls[i].agent, event.eventId.value) !in s.rows
        {
          AddedAreGuarded(c, event, s, Next(c, s, step), ls, i);
        }
      case _ =>
    }
  }

  lemma ReachPush(c: Config, steps: seq<Step>, step: Step)
    ensures Reach(c, steps + [step]) == Next(c, Reach(c, steps), step)
  {
    assert (steps + [step])[..|steps|] == steps;
  }

  lemma AppendNothing(steps: seq<Step>)
    ensures steps + [] == steps
  {
  }

  /** Once the session row of an (agent, event) exists, no re-delivery, by push or by reconcile, and no
      subscription ever launches that agent for that event again. */
  lemma {:induction false} RedeliveryNeverRelaunches(c: Config, steps: seq<Step>, row: Row, more: seq<Step>, i: nat)
    requires row in Reach(c, steps).rows
    requires |Reach(c, steps).log| <= i < |Reach(c, steps + more).log|
    ensures var l := Reach(c, steps + more).log[i];
            l.event.eventId.Some? ==> Row(l.event.workspace, l.agent, l.event.eventId.value) != row
  {
    AppendNothing(steps);
    if more != [] {
      var n := |more| - 1;
      assert steps + more == steps + more[..n] + [more[n]];
      ReachPush(c, steps + more[..n], more[n]);
      RowsStay(c, steps, row, more[..n]);
      var ls := StepAdds(c, Reach(c, steps + more[..n]), more[n]);
      if i < |Reach(c, steps + more[..n]).log| { RedeliveryNeverRelaunches(c, steps, row, more[..n], i); }
    }
  }

  lemma {:induction false} RowsStay(c: Config, steps: seq<Step>, row: Row, more: seq<Step>)
    requires row in Reach(c, steps).rows
    ensures row in Reach(c, steps + more).rows
  {
    if more == [] {
      assert steps + more == steps;
    } else {
      var n := |more| - 1;
      assert steps + more == steps + more[..n] + [more[n]];
      ReachPush(c, steps + more[..n], more[n]);
      RowsStay(c, steps, row, more[..n]);
      var _ := StepAdds(c, Reach(c, steps + more[..n]), more[n]);
    }
  }

  /** No run of an agent is ever launched by a fact that agent's own run caused. */
  lemma {:induction false} NoSelfReaction(c: Config, steps: seq<Step>, i: nat)
    requires i < |Reach(c, steps).log|
    ensures Reach(c, steps).log[i].event.causedBy != Some(Reach(c, steps).log[i].agent)
  {
    var n := |steps| - 1;
    var s := Reach(c, steps[..n]);
    var ls := StepAdds(c, s, steps[n]);
    if i < |s.log| { NoSelfReaction(c, steps[..n], i); }
  }

  ghost predicate QueuesFit(c: Config, s: State) {
    forall k: AgentKey :: PendingOf(s.pending, k) <= c.maxQueued
  }

  lemma CommitKeepsQueues(c: Config, s: State, l: Launch)
    requires QueuesFit(c, s) && Guarded(c, s, l)
    ensures QueuesFit(c, Commit(s, l))
  {
    forall k: AgentKey ensures PendingOf(Commit(s, l).pending, k) <= c.maxQueued {
      assert PendingOf(s.pending, k) <= c.maxQueued;
    }
  }

  lemma {:induction false} ExtendsKeepsQueues(c: Config, event: Event, s: State, t: State, ls: seq<Launch>)
    requires QueuesFit(c, s) && Extends(c, event, s, t, ls)
    ensures QueuesFit(c, t)
    decreases |ls|
  {
    if ls != [] {
      var n := |ls| - 1;
      var m: State :| Extends(c, event, s, m, ls[..n]) && Guarded(c, m, ls[n]) && t == Commit(m, ls[n]);
      ExtendsKeepsQueues(c, event, s, m, ls[..n]);
      CommitKeepsQueues(c, m, ls[n]);
    }
  }

  /** Backpressure: no agent ever has more than the maximum of runs queued. */
  lemma {:induction false} QueueIsBounded(c: Config, steps: seq<Step>)
    ensures QueuesFit(c, Reach(c, steps))
  {
    if steps != [] {
      var n := |steps| - 1;
      var s := Reach(c, steps[..n]);
      QueueIsBounded(c, steps[..n]);
      match steps[n] {
        case Offer(event, entries, subs) =>
          var ls := PassExtends(c, s, event, entries, subs);
          ExtendsKeepsQueues(c, event, s, DoPass(c, s, event, entries, subs), ls);
        case RowAppears(_) =>
        case RunSettles(_) =>
          forall k: AgentKey ensures PendingOf(Reach(c, steps).pending, k) <= c.maxQueued {
            assert PendingOf(s.pending, k) <= c.maxQueued;
          }
      }
    }
  }

  // ---------------------------------------------------------------- once per pass

  ghost predicate Distinct(entries: seq<Entry>) {
    forall i, j :: 0 <= i < j < |entries| ==> entries[i].agent != entries[j].agent
  }

  /** The launches from the n-th on are of different agents, all of them marked woken. */
  ghost predicate WokenOnce(p: Pass, n: nat) {
    && n <= |p.state.log|
    && (forall i :: n <= i < |p.state.log| ==> p.state.log[i].agent in p.woken)
    && (forall i, j :: n <= i < j < |p.state.log| ==> p.state.log[i].agent != p.state.log[j].agent)
  }

  lemma {:induction false} EntriesWakeOnce(c: Config, s: State, event: Event, entries: seq<Entry>)
    requires Distinct(entries)
    ensures WokenOnce(DoEntries(c, Pass(s, {}), event, entries), |s.log|)
    ensures forall a :: a in DoEntries(c, Pass(s, {}), event, entries).woken ==> exists i :: 0 <= i < |entries| && entries[i].agent == a
  {
    if entries != [] {
      var n := |entries| - 1;
      var q := DoEntries(c, Pass(s, {}), event, entries[..n]);
      EntriesWakeOnce(c, s, event, entries[..n]);
      forall a | a in q.woken ensures a != entries[n].agent && exists i :: 0 <= i < |entries| && entries[i].agent == a {
        var i :| 0 <= i < n && entries[..n][i].agent == a;
        assert entries[i].agent == a;
      }
    }
  }

  lemma {:induction false} SubsWakeOnce(c: Config, p: Pass, n: nat, event: Event, entries: seq<Entry>, subs: seq<Sub>)
    requires WokenOnce(p, n)
    ensures WokenOnce(DoSubs(c, p, event, entries, subs), n)
  {
    if subs != [] { SubsWakeOnce(c, p, n, event, entries, subs[..|subs| - 1]); }
  }

  /** No pass wakes an agent twice, spec triggers and subscriptions together. */
  lemma OncePerPass(c: Config, s: State, event: Event, entries: seq<Entry>, subs: seq<Sub>, i: nat, j: nat)
    requires Distinct(entries) && |s.log| <= i < j < |DoPass(c, s, event, Some(entries), subs).log|
    ensures DoPass(c, s, event, Some(entries), subs).log[i].agent != DoPass(c, s, event, Some(entries), subs).log[j].agent
  {
    EntriesWakeOnce(c, s, event, entries);
    SubsWakeOnce(c, DoEntries(c, Pass(s, {}), event, entries), |s.log|, event, entries, subs);
  }

  /** The launch comes from an agent, or from a subscription, that its own answers let run. */
  ghost predicate Qualifies(c: Config, event: Event, entries: seq<Entry>, subs: seq<Sub>, l: Launch) {
    || (exists e :: e in entries && l == EntryLaunch(c, event, e)
                    && e.spec.Spec? && e.spec.enabled && e.spec.triggered && e.creator && e.admitted)
    || (exists sub :: sub in subs && l == SubLaunch(c, event, sub)
                      && sub.wakes && sub.spec.Spec? && sub.spec.enabled && CreatorKnown(entries, sub.agent) && sub.admitted)
  }

  lemma {:induction false} EntriesQualify(c: Config, s: State, event: Event, entries: seq<Entry>, i: nat)
    requires |s.log| <= i < |DoEntries(c, Pass(s, {}), event, entries).state.log|
    ensures Qualifies(c, event, entries, [], DoEntries(c, Pass(s, {}), event, entries).state.log[i])
  {
    if entries != [] {
      var n := |entries| - 1;
      var q := DoEntries(c, Pass(s, {}), event, entries[..n]);
      if i < |q.state.log| {
        EntriesQualify(c, s, event, entries[..n], i);
        var e :| e in entries[..n] && q.state.log[i] == EntryLaunch(c, event, e)
                 && e.spec.Spec? && e.spec.enabled && e.spec.triggered && e.creator && e.admitted;
        assert e in entries;
      } else {
        assert entries[n] in entries;
      }
    }
  }

  lemma {:induction false} SubsQualify(c: Config, p: Pass, m: nat, event: Event, entries: seq<Entry>, subs: seq<Sub>, i: nat)
    requires m <= |p.state.log| && m <= i < |DoSubs(c, p, event, entries, subs).state.log|
    requires forall k :: m <= k < |p.state.log| ==> Qualifies(c, event, entries, [], p.state.log[k])
    ensures Qualifies(c, event, entries, subs, DoSubs(c, p, event, entries, subs).state.log[i])
  {
    if subs != [] {
      var n := |subs| - 1;
      var q := DoSubs(c, p, event, entries, subs[..n]);
      if i < |q.state.log| {
        SubsQualify(c, p, m, event, entries, subs[..n], i);
        assert forall sub :: sub in subs[..n] ==> sub in subs;
      } else {
        assert subs[n] in subs;
      }
    }
  }

  /** Every launch of a pass is of an enabled, admitted agent with a creator to act as, woken by its own trigger or
      by a subscription that selects the event. */
  lemma LaunchesQualify(c: Config, s: State, event: Event, entries: seq<Entry>, subs: seq<Sub>, i: nat)
    requires |s.log| <= i < |DoPass(c, s, event, Some(entries), subs).log|
    ensures Qualifies(c, event, entries, subs, DoPass(c, s, event, Some(entries), subs).log[i])
  {
    var p := DoEntries(c, Pass(s, {}), event, entries);
    forall k | |s.log| <= k < |p.state.log| ensures Qualifies(c, event, entries, [], p.state.log[k]) {
      EntriesQualify(c, s, event, entries, k);
    }
    var ls := EntriesExtend(c, s, Pass(s, {}), event, entries, []);
    ExtendsLog(c, event, s, p.state, ls);
    SubsQualify(c, p, |s.log|, event, entries, subs, i);
  }

  // ---------------------------------------------------------------- nobody who qualifies is passed over

  /** What a pass does to one agent's entry depends on nobody else's. */
  lemma {:induction false} OthersLeaveItsGuards(c: Config, s: State, event: Event, entries: seq<Entry>, e: Entry)
    requires forall i :: 0 <= i < |entries| ==> entries[i].agent != e.agent
    ensures EntryPasses(c, DoEntries(c, Pass(s, {}), event, entries).state, event, e) <==> EntryPasses(c, s, event, e)
    ensures DoEntries(c, Pass(s, {}), event, entries).state.rows == s.rows
  {
    if entries != [] {
      OthersLeaveItsGuards(c, s, event, entries[..|entries| - 1], e);
    }
  }

  ghost predicate LaunchedIn(s: State, t: State, l: Launch) {
    exists i :: |s.log| <= i < |t.log| && t.log[i] == l
  }

  lemma {:induction false} EntriesGrow(c: Config, p: Pass, event: Event, entries: seq<Entry>, n: nat)
    requires n <= |entries|
    ensures DoEntries(c, p, event, entries[..n]).state.log <= DoEntries(c, p, event, entries).state.log
    decreases |entries|
  {
    if n < |entries| {
      var m := |entries| - 1;
      assert entries[..m][..n] == entries[..n];
      EntriesGrow(c, p, event, entries[..m], n);
    } else {
      assert entries[..n] == entries;
    }
  }

  lemma {:induction false} SubsGrow(c: Config, p: Pass, event: Event, entries: seq<Entry>, subs: seq<Sub>)
    ensures p.state.log <= DoSubs(c, p, event, entries, subs).state.log
    ensures forall i :: |p.state.log| <= i < |DoSubs(c, p, event, entries, subs).state.log| ==>
              DoSubs(c, p, event, entries, subs).state.log[i].key.SubKey?
  {
    if subs != [] { SubsGrow(c, p, event, entries, subs[..|subs| - 1]); }
  }

  /** What an entry is asked, of the state the pass begins in: its answers, who caused the event, the time
      since the last launch of its agent for this kind of event, the store's rows, and the agent's queue. */
  ghost predicate EntryDue(c: Config, s: State, event: Event, e: Entry) {
    var key := SpecKey(event.workspace, e.agent, event.kind);
    && e.spec == Spec(true, true) && e.creator && e.admitted
    && event.causedBy != Some(e.agent)
    && (key in s.last ==> e.at >= s.last[key] + c.cooldownMs)
    && (event.eventId.Some? ==> e.lookup && Row(event.workspace, e.agent, event.eventId.value) !in s.rows)
    && PendingOf(s.pending, AgentKey(event.workspace, e.agent)) < c.maxQueued
  }

  /** An agent is launched by its trigger exactly when it is due as the pass begins: not the order of the
      agents, nor what the pass launches on the way, makes a difference. */
  lemma EntryLaunchedIff(c: Config, s: State, event: Event, entries: seq<Entry>, subs: seq<Sub>, k: nat)
    requires Distinct(entries) && k < |entries|
    ensures var e := entries[k];
            LaunchedIn(s, DoPass(c, s, event, Some(entries), subs),
                       Launch(SpecKey(event.workspace, e.agent, event.kind), e.agent, event, e.at, c.cooldownMs))
            <==> EntryDue(c, s, event, e)
  {
    var start, e, l := Pass(s, {}), entries[k], EntryLaunch(c, event, entries[k]);
    var before, after := DoEntries(c, start, event, entries[..k]), DoEntries(c, start, event, entries[..k + 1]);
    var all, t := DoEntries(c, start, event, entries), DoPass(c, s, event, Some(entries), subs);
    assert entries[..k + 1][..k] == entries[..k];
    OthersLeaveItsGuards(c, s, event, entries[..k], e);
    EntriesGrow(c, start, event, entries, k + 1);
    SubsGrow(c, all, event, entries, subs);
    if EntryPasses(c, s, event, e) {
      var ls := EntriesExtend(c, s, start, event, entries[..k], []);
      ExtendsLog(c, event, s, before.state, ls);
      assert t.log[|before.state.log|] == l;
    } else if i :| |s.log| <= i < |t.log| && t.log[i] == l {
      TriggerIsItsEntry(c, s, event, entries, i, k);
    }
  }

  /** A trigger's launch is of an entry that passed its guards; with distinct agents, of that agent's. */
  lemma {:induction false} TriggerIsItsEntry(c: Config, s: State, event: Event, entries: seq<Entry>, i: nat, k: nat)
    requires Distinct(entries) && k < |entries|
    requires |s.log| <= i < |DoEntries(c, Pass(s, {}), event, entries).state.log|
    requires DoEntries(c, Pass(s, {}), event, entries).state.log[i] == EntryLaunch(c, event, entries[k])
    ensures EntryPasses(c, s, event, entries[k])
  {
    var n := |entries| - 1;
    var q := DoEntries(c, Pass(s, {}), event, entries[..n]);
    if k < n {
      TriggerIsItsEntry(c, s, event, entries[..n], i, k);
    } else if i < |q.state.log| {
      EntriesAreOf(c, s, event, entries[..n], i);
    } else {
      OthersLeaveItsGuards(c, s, event, entries[..n], entries[n]);
    }
  }

  lemma {:induction false} EntriesAreOf(c: Config, s: State, event: Event, entries: seq<Entry>, i: nat)
    requires |s.log| <= i < |DoEntries(c, Pass(s, {}), event, entries).state.log|
    ensures exists j :: 0 <= j < |entries| && DoEntries(c, Pass(s, {}), event, entries).state.log[i].agent == entries[j].agent
  {
    if entries != [] {
      var n := |entries| - 1;
      var q := DoEntries(c, Pass(s, {}), event, entries[..n]);
      if i < |q.state.log| {
        EntriesAreOf(c, s, event, entries[..n], i);
        var j :| 0 <= j < n && q.state.log[i].agent == entries[..n][j].agent;
        assert entries[j].agent == q.state.log[i].agent;
      } else {
        assert entries[n].agent == entries[n].agent;
      }
    }
  }

  /** Everything an entry is asked except whether its event is new to the store. */
  predicate OtherwisePasses(c: Config, s: State, event: Event, e: Entry) {
    && e.spec.Spec? && e.spec.enabled && e.spec.triggered
    && event.causedBy != Some(e.agent) && e.creator && e.lookup
    && Cool(s, SpecKey(event.workspace, e.agent, event.kind), e.at, c.cooldownMs)
    && HasRoom(c, s, event, e.agent) && e.admitted
  }

  /** Dedup is exact, and it is the row that decides: in every reachable state an agent that passes its other
      guards is launched for an event if and only if the store holds no session of it for that event.  A run
      still queued has none, so it does not keep a second one away. */
  lemma DedupIffRowStored(c: Config, steps: seq<Step>, event: Event, entries: seq<Entry>, subs: seq<Sub>, k: nat)
    requires Distinct(entries) && k < |entries| && event.eventId.Some?
    requires OtherwisePasses(c, Reach(c, steps), event, entries[k])
    ensures var s := Reach(c, steps);
            LaunchedIn(s, Next(c, s, Offer(event, Some(entries), subs)), EntryLaunch(c, event, entries[k]))
            <==> Row(event.workspace, entries[k].agent, event.eventId.value) !in s.rows
  {
    EntryLaunchedIff(c, Reach(c, steps), event, entries, subs, k);
  }

  // ---------------------------------------------------------------- subscriptions

  ghost predicate DistinctSubs(subs: seq<Sub>) {
    forall i, j :: 0 <= i < j < |subs| ==> subs[i].id != subs[j].id
  }

  /** What a subscription is asked, of the state the pass begins in.  Its agent needs an entry with a creator,
      and the cooldown is its own, in seconds, or the service's. */
  ghost predicate SubDue(c: Config, s: State, event: Event, entries: seq<Entry>, sub: Sub) {
    var key := SubKey(event.workspace, sub.id);
    && sub.wakes && sub.spec.Spec? && sub.spec.enabled && sub.admitted
    && (exists i :: 0 <= i < |entries| && entries[i].agent == sub.agent && entries[i].creator)
    && event.causedBy != Some(sub.agent)
    && (key in s.last ==> sub.at >= s.last[key] + (match sub.cooldownSec case Some(sec) => 1000 * sec case None => c.cooldownMs))
    && (event.eventId.Some? ==> sub.lookup && Row(event.workspace, sub.agent, event.eventId.value) !in s.rows)
    && PendingOf(s.pending, AgentKey(event.workspace, sub.agent)) < c.maxQueued
  }

  /** An agent of the workspace is due by its own trigger. */
  ghost predicate TriggerDue(c: Config, s: State, event: Event, entries: seq<Entry>, a: AgentId) {
    exists i :: 0 <= i < |entries| && entries[i].agent == a && EntryDue(c, s, event, entries[i])
  }

  /** One of these subscriptions to it is due. */
  ghost predicate AnyDue(c: Config, s: State, event: Event, entries: seq<Entry>, subs: seq<Sub>, a: AgentId) {
    exists j :: 0 <= j < |subs| && subs[j].agent == a && SubDue(c, s, event, entries, subs[j])
  }

  lemma {:induction false} CreatorKnownIff(entries: seq<Entry>, a: AgentId)
    requires Distinct(entries)
    ensures CreatorKnown(entries, a) <==> exists i :: 0 <= i < |entries| && entries[i].agent == a && entries[i].creator
  {
    if entries != [] {
      var rest := entries[1..];
      CreatorKnownIff(rest, a);
      assert forall i :: 0 < i < |entries| ==> entries[i] == rest[i - 1];
      assert forall i :: 0 <= i < |rest| ==> rest[i] == entries[i + 1];
    }
  }

  /** A pass so far has changed neither the rows nor the queue of any agent it has not woken. */
  ghost predicate Spares(s: State, q: Pass, w: Workspace) {
    && q.state.rows == s.rows
    && forall a: AgentId :: a in q.woken || PendingOf(q.state.pending, AgentKey(w, a)) == PendingOf(s.pending, AgentKey(w, a))
  }

  ghost predicate SameLast(s: State, t: State, key: Key) {
    (key in t.last <==> key in s.last) && (key in s.last ==> t.last[key] == s.last[key])
  }

  lemma {:induction false} EntriesSpare(c: Config, s: State, event: Event, entries: seq<Entry>)
    ensures Spares(s, DoEntries(c, Pass(s, {}), event, entries), event.workspace)
    ensures forall key: Key :: key.SubKey? ==> SameLast(s, DoEntries(c, Pass(s, {}), event, entries).state, key)
  {
    if entries != [] { EntriesSpare(c, s, event, entries[..|entries| - 1]); }
  }

  lemma {:induction false} EntriesWake(c: Config, s: State, event: Event, entries: seq<Entry>, a: AgentId)
    requires Distinct(entries)
    ensures a in DoEntries(c, Pass(s, {}), event, entries).woken <==> TriggerDue(c, s, event, entries, a)
  {
    if entries != [] {
      var n := |entries| - 1;
      var less, e := entries[..n], entries[n];
      EntriesWake(c, s, event, less, a);
      OthersLeaveItsGuards(c, s, event, less, e);
      assert EntryPasses(c, s, event, e) <==> EntryDue(c, s, event, e);
      assert forall i :: 0 <= i < n ==> less[i] == entries[i];
    }
  }

  /** At its turn a subscription passes exactly when it was due as the pass began and nobody has woken its agent. */
  lemma SubTurn(c: Config, s: State, q: Pass, event: Event, entries: seq<Entry>, sub: Sub)
    requires Distinct(entries) && Spares(s, q, event.workspace)
    requires SameLast(s, q.state, SubKey(event.workspace, sub.id))
    ensures SubPasses(c, q, event, entries, sub) <==> SubDue(c, s, event, entries, sub) && sub.agent !in q.woken
  {
    CreatorKnownIff(entries, sub.agent);
  }

  /** The pass once its triggers and these subscriptions have had their turn. */
  function Served(c: Config, s: State, event: Event, entries: seq<Entry>, subs: seq<Sub>): Pass {
    DoSubs(c, DoEntries(c, Pass(s, {}), event, entries), event, entries, subs)
  }

  lemma {:induction false} SubsSpare(c: Config, s: State, event: Event, entries: seq<Entry>, subs: seq<Sub>)
    ensures Spares(s, Served(c, s, event, entries, subs), event.workspace)
    ensures forall id :: (forall j :: 0 <= j < |subs| ==> subs[j].id != id) ==>
              SameLast(s, Served(c, s, event, entries, subs).state, SubKey(event.workspace, id))
  {
    if subs == [] {
      EntriesSpare(c, s, event, entries);
    } else {
      var n := |subs| - 1;
      SubsSpare(c, s, event, entries, subs[..n]);
      forall id | forall j :: 0 <= j < |subs| ==> subs[j].id != id
        ensures SameLast(s, Served(c, s, event, entries, subs).state, SubKey(event.workspace, id))
      {
        assert SameLast(s, Served(c, s, event, entries, subs[..n]).state, SubKey(event.workspace, id));
      }
    }
  }

  /** Who has been woken by then: the agents due by their triggers, and those of the due subscriptions. */
  lemma {:induction false} SubsWake(c: Config, s: State, event: Event, entries: seq<Entry>, subs: seq<Sub>, a: AgentId)
    requires Distinct(entries) && DistinctSubs(subs)
    ensures a in Served(c, s, event, entries, subs).woken
            <==> TriggerDue(c, s, event, entries, a) || AnyDue(c, s, event, entries, subs, a)
  {
    if subs == [] {
      EntriesWake(c, s, event, entries, a);
    } else {
      var n := |subs| - 1;
      var less := subs[..n];
      SubsWake(c, s, event, entries, less, a);
      SubsSpare(c, s, event, entries, less);
      SubTurn(c, s, Served(c, s, event, entries, less), event, entries, subs[n]);
      assert forall j :: 0 <= j < n ==> less[j] == subs[j];
    }
  }

  ghost predicate KeyLaunchedIn(s: State, t: State, key: Key) {
    exists i :: |s.log| <= i < |t.log| && t.log[i].key == key
  }

  /** Only its own turn launches a subscription. */
  lemma {:induction false} SubLaunchedAtItsTurn(c: Config, s: State, event: Event, entries: seq<Entry>, subs: seq<Sub>, k: nat)
    requires DistinctSubs(subs) && k < |subs|
    ensures var t, key := Served(c, s, event, entries, subs).state, SubKey(event.workspace, subs[k].id);
            var passes := SubPasses(c, Served(c, s, event, entries, subs[..k]), event, entries, subs[k]);
            (passes ==> LaunchedIn(s, t, SubLaunch(c, event, subs[k]))) && (KeyLaunchedIn(s, t, key) ==> passes)
  {
    var n := |subs| - 1;
    var less := subs[..n];
    var q, r := Served(c, s, event, entries, less), Served(c, s, event, entries, subs);
    ServedGrows(c, s, event, entries, less);
    if k < n {
      assert less[..k] == subs[..k];
      SubLaunchedAtItsTurn(c, s, event, entries, less, k);
      OneMoreLaunch(c, s, q, event, entries, subs[n], SubLaunch(c, event, subs[k]));
    } else {
      NoKeyYet(c, s, event, entries, less, subs[n].id);
      if SubPasses(c, q, event, entries, subs[n]) { assert r.state.log[|q.state.log|] == SubLaunch(c, event, subs[n]); }
    }
  }

  lemma OneMoreLaunch(c: Config, s: State, q: Pass, event: Event, entries: seq<Entry>, sub: Sub, l: Launch)
    requires |s.log| <= |q.state.log| && l.key != SubKey(event.workspace, sub.id)
    ensures LaunchedIn(s, q.state, l) ==> LaunchedIn(s, DoSub(c, q, event, entries, sub).state, l)
    ensures KeyLaunchedIn(s, DoSub(c, q, event, entries, sub).state, l.key) ==> KeyLaunchedIn(s, q.state, l.key)
  {
    var r := DoSub(c, q, event, entries, sub);
    assert forall i :: 0 <= i < |q.state.log| ==> r.state.log[i] == q.state.log[i];
  }

  lemma ServedGrows(c: Config, s: State, event: Event, entries: seq<Entry>, subs: seq<Sub>)
    ensures s.log <= Served(c, s, event, entries, subs).state.log
  {
    EntriesGrow(c, Pass(s, {}), event, entries, 0);
    assert entries[..0] == [];
    SubsGrow(c, DoEntries(c, Pass(s, {}), event, entries), event, entries, subs);
  }

  lemma {:induction false} EntriesAreTriggers(c: Config, s: State, event: Event, entries: seq<Entry>, key: Key)
    requires key.SubKey?
    ensures !KeyLaunchedIn(s, DoEntries(c, Pass(s, {}), event, entries).state, key)
  {
    if entries != [] {
      EntriesAreTriggers(c, s, event, entries[..|entries| - 1], key);
    }
  }

  lemma {:induction false} NoKeyYet(c: Config, s: State, event: Event, entries: seq<Entry>, subs: seq<Sub>, id: nat)
    requires forall j :: 0 <= j < |subs| ==> subs[j].id != id
    ensures !KeyLaunchedIn(s, Served(c, s, event, entries, subs).state, SubKey(event.workspace, id))
  {
    if subs == [] {
      EntriesAreTriggers(c, s, event, entries, SubKey(event.workspace, id));
    } else {
      NoKeyYet(c, s, event, entries, subs[..|subs| - 1], id);
    }
  }

  /** A subscription is launched exactly when it is due as the pass begins and its agent is neither due by its
      own trigger nor by an earlier subscription; its launch keeps its own cooldown, and nothing else is
      launched for it. */
  lemma SubLaunchedIff(c: Config, s: State, event: Event, entries: seq<Entry>, subs: seq<Sub>, k: nat)
    requires Distinct(entries) && DistinctSubs(subs) && k < |subs|
    ensures var t, sub := DoPass(c, s, event, Some(entries), subs), subs[k];
            var due := SubDue(c, s, event, entries, sub) && !TriggerDue(c, s, event, entries, sub.agent)
                       && !AnyDue(c, s, event, entries, subs[..k], sub.agent);
            var cooldown := match sub.cooldownSec case Some(sec) => 1000 * sec case None => c.cooldownMs;
            && (LaunchedIn(s, t, Launch(SubKey(event.workspace, sub.id), sub.agent, event, sub.at, cooldown)) <==> due)
            && (KeyLaunchedIn(s, t, SubKey(event.workspace, sub.id)) <==> due)
  {
    SubLaunchedAtItsTurn(c, s, event, entries, subs, k);
    SubsSpare(c, s, event, entries, subs[..k]);
    SubsWake(c, s, event, entries, subs[..k], subs[k].agent);
    SubTurn(c, s, Served(c, s, event, entries, subs[..k]), event, entries, subs[k]);
  }
}
