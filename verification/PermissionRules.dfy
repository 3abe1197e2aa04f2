/** Standing "always allow / always deny" rules of a session: an in-memory map over a durable record.  The map
    is the hot path; a session unseen since boot hydrates from the record once, and every change writes the
    whole map through. */
module PermissionRules {

  datatype Option<+T> = None | Some(value: T)

  datatype Decision = Allow | Deny

  /** Tools, workspaces and sessions are only ever compared. */
  type Tool = nat

  datatype Key = Key(workspace: nat, session: nat)

  type Rules = map<Tool, Decision>

  function Get(rules: Rules, t: Tool): Option<Decision> {
    if t in rules then Some(rules[t]) else None
  }

  /** A change of some tools' rules: a decision for one of them, or none any more. */
  type Edit = map<Tool, Option<Decision>>

  function Edited(rules: Rules, edit: Edit): (r: Rules)
    ensures forall t :: Get(r, t) == if t in edit then edit[t] else Get(rules, t)
  {
    map t | t in rules.Keys + edit.Keys && (t in edit ==> edit[t].Some?) :: if t in edit then edit[t].value else rules[t]
  }

  // ---------------------------------------------------------------- the in-memory map

  function RulesOf(all: map<Key, Rules>, key: Key): Option<Rules> {
    if key in all then Some(all[key]) else None
  }

  class RuleBook {
    var rules: map<Key, Rules>

    constructor ()
      ensures rules == map[]
    {
      rules := map[];
    }

    /** No-clobber: what is in memory is newer.  An empty record still marks the session hydrated. */
    method Hydrate(key: Key, stored: Rules)
      modifies this
      ensures RulesOf(rules, key) == Some(if key in old(rules) then old(rules)[key] else stored)
      ensures forall k :: k != key ==> RulesOf(rules, k) == RulesOf(old(rules), k)
    {
      if key in rules { return; }
      rules := rules[key := stored];
    }

    method Set(key: Key, tool: Tool, decision: Decision)
      modifies this
      ensures RulesOf(rules, key) == Some(Edited(if key in old(rules) then old(rules)[key] else map[], map[tool := Some(decision)]))
      ensures forall k :: k != key ==> RulesOf(rules, k) == RulesOf(old(rules), k)
    {
      var forSession: Rules := if key in rules then rules[key] else map[];
      SameRules(forSession[tool := decision], Edited(forSession, map[tool := Some(decision)]));
      rules := rules[key := forSession[tool := decision]];
    }

    /** Clearing a rule of a session that is not in memory does nothing, and does not hydrate it. */
    method Clear(key: Key, tool: Tool)
      modifies this
      ensures RulesOf(rules, key) == if key in old(rules) then Some(Edited(old(rules)[key], map[tool := None])) else None
      ensures forall k :: k != key ==> RulesOf(rules, k) == RulesOf(old(rules), k)
    {
      if key in rules {
        SameRules(rules[key] - {tool}, Edited(rules[key], map[tool := None]));
        rules := rules[key := rules[key] - {tool}];
      }
    }

    method List(key: Key) returns (listed: Rules)
      ensures forall t :: Get(listed, t) == if key in rules then Get(rules[key], t) else None
    {
      listed := if key in rules then rules[key] else map[];
    }
  }

  lemma SameRules(a: Rules, b: Rules)
    requires forall t :: Get(a, t) == Get(b, t)
    ensures a == b
  {
    forall t ensures t in a <==> t in b {
      assert Get(a, t) == Get(b, t);
    }
    forall t | t in a ensures a[t] == b[t] {
      assert Get(a, t) == Get(b, t);
    }
  }

  // ---------------------------------------------------------------- memory, record and restarts

  /** A copy of a session's rules.  `stamps` remembers which change gave each tool its rule, counted from 1; a
      rule no change ever gave has stamp 0. */
  datatype Copy = Copy(rules: Rules, stamps: map<Tool, nat>)

  function Stamp(c: Copy, t: Tool): nat {
    if t in c.stamps then c.stamps[t] else 0
  }

  /** A change a member made, and whether the store has answered for it. */
  datatype Change = Change(edit: Edit, stored: bool)

  /** A write-through on its way: the whole map as it stood, for which change, and whether the process that
      sent it is still there. */
  datatype Write = Write(copy: Copy, change: nat, live: bool)

  /** One session.  `held` are requests holding the record they read; `boot` counts the changes before the
      last restart. */
  datatype State = State(initial: Rules, record: Copy, memory: Option<Copy>, held: seq<Copy>, writes: seq<Write>, changes: seq<Change>, boot: nat)

  datatype Step =
    | Read                                // a request loads the session row
    | Hydrate(read: nat)                  // and hydrates: GET /rules, or the chat route
    | Apply(read: nat, edit: Edit)        // or hydrates, changes a rule and writes through
    | Approve(edit: Edit)                 // a plan approval inside a turn of a hydrated session
    | Land(write: nat)                    // a write on its way reaches the record, in whatever order
    | Fail(write: nat)                    // or is refused
    | Restart

  function Hydrated(s: State, read: nat): Copy
    requires read < |s.held|
  {
    if s.memory.Some? then s.memory.value else s.held[read]
  }

  function DoEdit(s: State, c: Copy, edit: Edit): State {
    var n := |s.changes| + 1;
    var next := Copy(Edited(c.rules, edit), c.stamps + map t | t in edit :: n);
    s.(memory := Some(next), writes := s.writes + [Write(next, n - 1, true)], changes := s.changes + [Change(edit, false)])
  }

  /** A write lands; its sender learns of it only if it is still there. */
  function DoLand(s: State, w: nat): State
    requires w < |s.writes|
  {
    var write := s.writes[w];
    s.(record := write.copy,
       writes := s.writes[..w] + s.writes[w + 1..],
       changes := if write.live && write.change < |s.changes|
                  then s.changes[write.change := s.changes[write.change].(stored := true)] else s.changes)
  }

  function Next(s: State, step: Step): State {
    match step
    case Read => s.(held := s.held + [s.record])
    case Hydrate(r) => if r < |s.held| then s.(memory := Some(Hydrated(s, r))) else s
    case Apply(r, edit) => if r < |s.held| then DoEdit(s, Hydrated(s, r), edit) else s
    case Approve(edit) => if s.memory.Some? then DoEdit(s, s.memory.value, edit) else s
    case Land(w) => if w < |s.writes| then DoLand(s, w) else s
    case Fail(w) => if w < |s.writes| then s.(writes := s.writes[..w] + s.writes[w + 1..]) else s
    case Restart =>
      s.(memory := None, held := [], boot := |s.changes|,
         writes := seq(|s.writes|, i requires 0 <= i < |s.writes| => s.writes[i].(live := false)))
  }

  function Start(initial: Rules): State {
    State(initial, Copy(initial, map[]), None, [], [], [], 0)
  }

  function Reach(initial: Rules, steps: seq<Step>): State {
    if steps == [] then Start(initial) else Next(Reach(initial, steps[..|steps| - 1]), steps[|steps| - 1])
  }

  // ---------------------------------------------------------------- what each copy knows

  /** A copy's rule for a tool is the one its stamp says. */
  ghost predicate Faithful(s: State, c: Copy, t: Tool) {
    var n := Stamp(c, t);
    && n <= |s.changes|
    && (n == 0 ==> Get(c.rules, t) == Get(s.initial, t))
    && (n > 0 ==> t in s.changes[n - 1].edit && Get(c.rules, t) == s.changes[n - 1].edit[t])
  }

  /** The copy is no older than any change of the tool, up to change `upto`, that the store has answered for. */
  ghost predicate Covers(s: State, c: Copy, t: Tool, upto: nat) {
    forall i :: 0 <= i < |s.changes| && i <= upto && s.changes[i].stored && t in s.changes[i].edit ==> Stamp(c, t) > i
  }

  ghost predicate CoversAll(s: State, c: Copy, t: Tool) {
    Covers(s, c, t, |s.changes|)
  }

  /** Copies in the order they were made: dead writes, then live ones, then the memory. */
  ghost predicate OrderInv(s: State, t: Tool) {
    && (forall i, j :: 0 <= i < j < |s.writes| && s.writes[i].live ==>
          s.writes[j].live && Stamp(s.writes[i].copy, t) <= Stamp(s.writes[j].copy, t))
    && (forall i, j :: 0 <= i < j < |s.writes| ==> s.writes[i].change < s.writes[j].change)
    && (forall i :: 0 <= i < |s.writes| ==> WriteOk(s, t, s.writes[i]))
  }

  /** A live write belongs to this process, is no newer than its memory, and carries its own change; a dead one is
      of an earlier process. */
  ghost predicate WriteOk(s: State, t: Tool, w: Write) {
    && w.change < |s.changes| && Stamp(w.copy, t) <= w.change + 1
    && (w.live <==> s.boot <= w.change)
    && (w.live ==>
          && s.memory.Some? && Stamp(w.copy, t) <= Stamp(s.memory.value, t)
          && (t in s.changes[w.change].edit ==> Stamp(w.copy, t) == w.change + 1))
  }

  /** The memory has every change made since the last restart. */
  ghost predicate CurrentInv(s: State, t: Tool) {
    && s.boot <= |s.changes|
    && (s.boot < |s.changes| ==> s.memory.Some?)
    && (forall i :: s.boot <= i < |s.changes| && s.memory.Some? && t in s.changes[i].edit ==> Stamp(s.memory.value, t) > i)
  }

  /** Every copy says what its stamps say. */
  ghost predicate FaithInv(s: State, t: Tool) {
    && Faithful(s, s.record, t)
    && (s.memory.Some? ==> Faithful(s, s.memory.value, t))
    && (forall i :: 0 <= i < |s.writes| ==> Faithful(s, s.writes[i].copy, t))
    && (forall i :: 0 <= i < |s.held| ==> Faithful(s, s.held[i], t))
  }

  ghost predicate Inv(s: State, t: Tool) {
    OrderInv(s, t) && CurrentInv(s, t) && FaithInv(s, t)
  }

  /** And as long as the record has not gone back, nor has any copy: a write covers what was acknowledged up to its
      own change, everything else all of it. */
  ghost predicate CoverInv(s: State, t: Tool) {
    && CoversAll(s, s.record, t)
    && (s.memory.Some? ==> CoversAll(s, s.memory.value, t))
    && (forall i :: 0 <= i < |s.writes| ==> Covers(s, s.writes[i].copy, t, s.writes[i].change))
    && (s.memory.None? ==> forall i :: 0 <= i < |s.held| ==> CoversAll(s, s.held[i], t))
  }

  // ---------------------------------------------------------------- what holds in every run

  lemma EditKeepsOrder(s: State, c: Copy, edit: Edit, t: Tool)
    requires OrderInv(s, t) && CurrentInv(s, t) && Faithful(s, c, t) && (s.memory.Some? ==> c == s.memory.value)
    ensures OrderInv(DoEdit(s, c, edit), t) && CurrentInv(DoEdit(s, c, edit), t)
  {
    var u := DoEdit(s, c, edit);
    assert forall i :: 0 <= i < |s.changes| ==> u.changes[i] == s.changes[i];
    assert forall i :: 0 <= i < |s.writes| ==> u.writes[i] == s.writes[i];
    assert Stamp(u.memory.value, t) == if t in edit then |s.changes| + 1 else Stamp(c, t);
    forall i | 0 <= i < |u.writes| ensures WriteOk(u, t, u.writes[i]) {
      if i < |s.writes| { assert WriteOk(s, t, s.writes[i]); }
    }
  }

  lemma EditKeepsFaith(s: State, c: Copy, edit: Edit, t: Tool)
    requires FaithInv(s, t) && Faithful(s, c, t)
    ensures FaithInv(DoEdit(s, c, edit), t)
  {
    var u := DoEdit(s, c, edit);
    assert forall i :: 0 <= i < |s.changes| ==> u.changes[i] == s.changes[i];
    assert forall i :: 0 <= i < |s.writes| ==> u.writes[i] == s.writes[i];
    assert Stamp(u.memory.value, t) == if t in edit then |s.changes| + 1 else Stamp(c, t);
  }

  /** One write leaves the queue. */
  lemma LeaveKeepsOrder(s: State, u: State, w: nat, t: Tool)
    requires OrderInv(s, t) && w < |s.writes| && u.writes == s.writes[..w] + s.writes[w + 1..]
    requires u.memory == s.memory && u.boot == s.boot && |u.changes| == |s.changes|
    requires forall i :: 0 <= i < |s.changes| ==> u.changes[i].edit == s.changes[i].edit
    ensures OrderInv(u, t)
  {
    assert forall i :: 0 <= i < |u.writes| ==> u.writes[i] == s.writes[if i < w then i else i + 1];
    forall i | 0 <= i < |u.writes| ensures WriteOk(u, t, u.writes[i]) {
      assert WriteOk(s, t, s.writes[if i < w then i else i + 1]);
    }
  }

  lemma LeaveKeepsFaith(s: State, u: State, w: nat, t: Tool)
    requires FaithInv(s, t) && w < |s.writes| && u.writes == s.writes[..w] + s.writes[w + 1..]
    requires u.memory == s.memory && u.held == s.held && u.initial == s.initial && |u.changes| == |s.changes|
    requires u.record == s.record || u.record == s.writes[w].copy
    requires forall i :: 0 <= i < |s.changes| ==> u.changes[i].edit == s.changes[i].edit
    ensures FaithInv(u, t)
  {
    assert forall c :: Faithful(s, c, t) ==> Faithful(u, c, t);
    forall i | 0 <= i < |u.writes| ensures Faithful(u, u.writes[i].copy, t) {
      assert u.writes[i] == s.writes[if i < w then i else i + 1];
    }
  }

  lemma LandKeepsInv(s: State, w: nat, t: Tool)
    requires Inv(s, t) && w < |s.writes|
    ensures Inv(DoLand(s, w), t)
  {
    LeaveKeepsOrder(s, DoLand(s, w), w, t);
    LeaveKeepsFaith(s, DoLand(s, w), w, t);
  }

  lemma FailKeepsInv(s: State, w: nat, t: Tool)
    requires Inv(s, t) && w < |s.writes|
    ensures Inv(Next(s, Fail(w)), t)
  {
    LeaveKeepsOrder(s, Next(s, Fail(w)), w, t);
    LeaveKeepsFaith(s, Next(s, Fail(w)), w, t);
  }

  lemma RestartKeepsInv(s: State, t: Tool)
    requires Inv(s, t)
    ensures Inv(Next(s, Restart), t)
  {
    var u := Next(s, Restart);
    assert forall i :: 0 <= i < |u.writes| ==> u.writes[i] == s.writes[i].(live := false);
    forall i | 0 <= i < |u.writes| ensures WriteOk(u, t, u.writes[i]) {
      assert WriteOk(s, t, s.writes[i]);
    }
  }

  lemma EditKeepsInv(s: State, c: Copy, edit: Edit, t: Tool)
    requires Inv(s, t) && Faithful(s, c, t) && (s.memory.Some? ==> c == s.memory.value)
    ensures Inv(DoEdit(s, c, edit), t)
  {
    EditKeepsOrder(s, c, edit, t);
    EditKeepsFaith(s, c, edit, t);
  }

  lemma ReadKeepsInv(s: State, t: Tool)
    requires Inv(s, t)
    ensures Inv(Next(s, Read), t)
  {
    forall i | 0 <= i < |s.writes| ensures WriteOk(Next(s, Read), t, s.writes[i]) {
      assert WriteOk(s, t, s.writes[i]);
    }
  }

  lemma HydrateKeepsInv(s: State, r: nat, t: Tool)
    requires Inv(s, t) && r < |s.held|
    ensures Inv(Next(s, Hydrate(r)), t)
  {
    forall i | 0 <= i < |s.writes| ensures WriteOk(Next(s, Hydrate(r)), t, s.writes[i]) {
      assert WriteOk(s, t, s.writes[i]);
    }
  }

  lemma StepKeepsInv(s: State, step: Step, t: Tool)
    requires Inv(s, t)
    ensures Inv(Next(s, step), t)
  {
    match step {
      case Read => ReadKeepsInv(s, t);
      case Hydrate(r) => if r < |s.held| { HydrateKeepsInv(s, r, t); }
      case Apply(r, edit) => if r < |s.held| { EditKeepsInv(s, Hydrated(s, r), edit, t); }
      case Approve(edit) => if s.memory.Some? { EditKeepsInv(s, s.memory.value, edit, t); }
      case Land(w) => if w < |s.writes| { LandKeepsInv(s, w, t); }
      case Fail(w) => if w < |s.writes| { FailKeepsInv(s, w, t); }
      case Restart => RestartKeepsInv(s, t);
    }
  }

  lemma {:induction false} ReachInv(initial: Rules, steps: seq<Step>, t: Tool)
    ensures Inv(Reach(initial, steps), t)
  {
    if steps != [] {
      ReachInv(initial, steps[..|steps| - 1], t);
      StepKeepsInv(Reach(initial, steps[..|steps| - 1]), steps[|steps| - 1], t);
    }
  }

  // ---------------------------------------------------------------- when the record keeps what it acknowledged

  /** A write that was sent for an earlier change than one of the tool already acknowledged. */
  ghost predicate Older(s: State, w: nat, t: Tool) {
    w < |s.writes| && exists i :: s.writes[w].change < i < |s.changes| && s.changes[i].stored && t in s.changes[i].edit
  }

  ghost predicate Keeps(s: State, step: Step, t: Tool) {
    step.Land? ==> !Older(s, step.write, t)
  }

  /** No write lands after a later change of the tool was acknowledged. */
  ghost predicate NoneLandsLate(initial: Rules, steps: seq<Step>, t: Tool) {
    forall i :: 0 <= i < |steps| ==> Keeps(Reach(initial, steps[..i]), steps[i], t)
  }

  /** At every moment the record is no older than any change of the tool it has acknowledged. */
  ghost predicate NeverGoesBack(initial: Rules, steps: seq<Step>, t: Tool) {
    forall i :: 0 <= i <= |steps| ==> Kept(initial, steps[..i], t)
  }

  lemma EditKeepsCover(s: State, c: Copy, edit: Edit, t: Tool)
    requires CoverInv(s, t) && OrderInv(s, t) && Faithful(s, c, t) && CoversAll(s, c, t)
    ensures CoverInv(DoEdit(s, c, edit), t)
  {
    var u := DoEdit(s, c, edit);
    assert forall i :: 0 <= i < |s.changes| ==> u.changes[i] == s.changes[i];
    assert Stamp(u.memory.value, t) == if t in edit then |s.changes| + 1 else Stamp(c, t);
    forall i | 0 <= i < |u.writes| ensures Covers(u, u.writes[i].copy, t, u.writes[i].change) {
      if i < |s.writes| { assert u.writes[i] == s.writes[i]; }
    }
  }

  /** What an acknowledgement asks of another copy. */
  lemma AckCovers(s: State, w: nat, t: Tool, c: Copy, upto: nat)
    requires w < |s.writes| && Covers(s, c, t, upto)
    requires (s.writes[w].live && s.writes[w].change <= upto && s.writes[w].change < |s.changes|
              && t in s.changes[s.writes[w].change].edit) ==> Stamp(c, t) > s.writes[w].change
    ensures Covers(DoLand(s, w), c, t, upto)
  {
  }

  lemma LandKeepsCover(s: State, w: nat, t: Tool)
    requires Inv(s, t) && CoverInv(s, t) && w < |s.writes| && !Older(s, w, t)
    ensures CoverInv(DoLand(s, w), t)
  {
    var u, write := DoLand(s, w), s.writes[w];
    assert WriteOk(s, t, write);
    assert CoversAll(s, write.copy, t);
    AckCovers(s, w, t, write.copy, |s.changes|);
    if s.memory.Some? { AckCovers(s, w, t, s.memory.value, |s.changes|); }
    forall i | 0 <= i < |u.writes| ensures Covers(u, u.writes[i].copy, t, u.writes[i].change) {
      var j := if i < w then i else i + 1;
      assert u.writes[i] == s.writes[j];
      AckCovers(s, w, t, s.writes[j].copy, s.writes[j].change);
    }
    if s.memory.None? {
      forall i | 0 <= i < |s.held| ensures CoversAll(u, s.held[i], t) {
        AckCovers(s, w, t, s.held[i], |s.changes|);
      }
    }
  }

  lemma FailKeepsCover(s: State, w: nat, t: Tool)
    requires CoverInv(s, t) && w < |s.writes|
    ensures CoverInv(Next(s, Fail(w)), t)
  {
    var u := Next(s, Fail(w));
    assert forall i :: 0 <= i < |u.writes| ==> u.writes[i] == s.writes[if i < w then i else i + 1];
  }

  lemma RestartKeepsCover(s: State, t: Tool)
    requires CoverInv(s, t)
    ensures CoverInv(Next(s, Restart), t)
  {
    var u := Next(s, Restart);
    assert forall i :: 0 <= i < |u.writes| ==> u.writes[i].copy == s.writes[i].copy && u.writes[i].change == s.writes[i].change;
  }

  lemma HydrateKeepsCover(s: State, r: nat, t: Tool)
    requires CoverInv(s, t) && r < |s.held|
    ensures CoverInv(Next(s, Hydrate(r)), t)
  {
  }

  lemma StepKeepsCover(s: State, step: Step, t: Tool)
    requires Inv(s, t) && CoverInv(s, t) && Keeps(s, step, t)
    ensures CoverInv(Next(s, step), t)
  {
    match step {
      case Read => assert CoversAll(Next(s, step), s.record, t);
      case Hydrate(r) => if r < |s.held| { HydrateKeepsCover(s, r, t); }
      case Apply(r, edit) => if r < |s.held| { EditKeepsCover(s, Hydrated(s, r), edit, t); }
      case Approve(edit) => if s.memory.Some? { EditKeepsCover(s, s.memory.value, edit, t); }
      case Land(w) => if w < |s.writes| { LandKeepsCover(s, w, t); }
      case Fail(w) => if w < |s.writes| { FailKeepsCover(s, w, t); }
      case Restart => RestartKeepsCover(s, t);
    }
  }

  /** A late landing takes the record back. */
  lemma LateLandingGoesBack(s: State, w: nat, t: Tool)
    requires Inv(s, t) && Older(s, w, t)
    ensures !CoversAll(DoLand(s, w), DoLand(s, w).record, t)
  {
    var i :| s.writes[w].change < i < |s.changes| && s.changes[i].stored && t in s.changes[i].edit;
    assert WriteOk(s, t, s.writes[w]);
    assert DoLand(s, w).changes[i].stored && DoLand(s, w).changes[i].edit == s.changes[i].edit;
  }

  lemma ReachPush(initial: Rules, steps: seq<Step>, step: Step)
    ensures Reach(initial, steps + [step]) == Next(Reach(initial, steps), step)
  {
    assert (steps + [step])[..|steps|] == steps;
  }

  lemma LastLate(initial: Rules, steps: seq<Step>, step: Step, t: Tool)
    ensures NoneLandsLate(initial, steps + [step], t)
            <==> NoneLandsLate(initial, steps, t) && Keeps(Reach(initial, steps), step, t)
  {
    var more := steps + [step];
    assert more[..|steps|] == steps;
    assert forall i :: 0 <= i < |steps| ==> more[..i] == steps[..i] && more[i] == steps[i];
  }

  /** The record covers what it acknowledged, after these steps. */
  ghost predicate Kept(initial: Rules, steps: seq<Step>, t: Tool) {
    CoversAll(Reach(initial, steps), Reach(initial, steps).record, t)
  }

  lemma LastBack(initial: Rules, steps: seq<Step>, step: Step, t: Tool)
    ensures NeverGoesBack(initial, steps + [step], t) <==> NeverGoesBack(initial, steps, t) && Kept(initial, steps + [step], t)
  {
    var more := steps + [step];
    assert more[..|more|] == more;
    assert forall i :: 0 <= i <= |steps| ==> more[..i] == steps[..i];
  }

  lemma {:induction false} ReachCover(initial: Rules, steps: seq<Step>, t: Tool)
    requires NoneLandsLate(initial, steps, t)
    ensures CoverInv(Reach(initial, steps), t)
  {
    if steps != [] {
      var before, step := steps[..|steps| - 1], steps[|steps| - 1];
      assert steps == before + [step];
      LastLate(initial, before, step, t);
      ReachCover(initial, before, t);
      ReachInv(initial, before, t);
      ReachPush(initial, before, step);
      StepKeepsCover(Reach(initial, before), step, t);
    }
  }

  lemma StepKeptIff(initial: Rules, steps: seq<Step>, step: Step, t: Tool)
    requires CoverInv(Reach(initial, steps), t)
    ensures Kept(initial, steps + [step], t) <==> Keeps(Reach(initial, steps), step, t)
  {
    var s := Reach(initial, steps);
    ReachInv(initial, steps, t);
    ReachPush(initial, steps, step);
    if Keeps(s, step, t) {
      StepKeepsCover(s, step, t);
    } else {
      LateLandingGoesBack(s, step.write, t);
    }
  }

  /** Each request awaits only its own write, so the code leaves their order to the store.  Over every run, with
      writes landing or failing in any order, the record never goes back on a change of the tool it acknowledged if
      and only if no write lands once a later change of the tool has been acknowledged. */
  lemma {:induction false} NeverGoesBackIffNoneLandsLate(initial: Rules, steps: seq<Step>, t: Tool)
    ensures NeverGoesBack(initial, steps, t) <==> NoneLandsLate(initial, steps, t)
  {
    if steps == [] {
      assert steps[..0] == [];
    } else {
      var before, step := steps[..|steps| - 1], steps[|steps| - 1];
      assert steps == before + [step];
      NeverGoesBackIffNoneLandsLate(initial, before, t);
      LastLate(initial, before, step, t);
      LastBack(initial, before, step, t);
      if NoneLandsLate(initial, before, t) {
        ReachCover(initial, before, t);
        StepKeptIff(initial, before, step, t);
      }
    }
  }

  /** Writes that land in the order they were sent never land late. */
  ghost predicate InOrder(steps: seq<Step>) {
    forall i :: 0 <= i < |steps| && steps[i].Land? ==> steps[i].write == 0
  }

  /** Then everything acknowledged was sent before everything still on its way. */
  ghost predicate AckedFirst(s: State) {
    forall w, i :: 0 <= w < |s.writes| && 0 <= i < |s.changes| && s.changes[i].stored ==> i < s.writes[w].change
  }

  lemma LandKeepsAckedFirst(s: State, t: Tool)
    requires AckedFirst(s) && OrderInv(s, t) && s.writes != []
    ensures AckedFirst(DoLand(s, 0))
  {
    var u := DoLand(s, 0);
    assert forall w :: 0 <= w < |u.writes| ==> u.writes[w] == s.writes[w + 1] && s.writes[0].change < s.writes[w + 1].change;
  }

  lemma FailKeepsAckedFirst(s: State, f: nat)
    requires AckedFirst(s) && f < |s.writes|
    ensures AckedFirst(Next(s, Fail(f)))
  {
    var u := Next(s, Fail(f));
    assert forall w :: 0 <= w < |u.writes| ==> u.writes[w] == s.writes[if w < f then w else w + 1];
  }

  lemma EditKeepsAckedFirst(s: State, c: Copy, edit: Edit)
    requires AckedFirst(s)
    ensures AckedFirst(DoEdit(s, c, edit))
  {
    var u := DoEdit(s, c, edit);
    assert forall w :: 0 <= w < |s.writes| ==> u.writes[w] == s.writes[w];
    assert forall i :: 0 <= i < |s.changes| ==> u.changes[i] == s.changes[i];
  }

  lemma RestartKeepsAckedFirst(s: State)
    requires AckedFirst(s)
    ensures AckedFirst(Next(s, Restart))
  {
    var u := Next(s, Restart);
    assert forall w :: 0 <= w < |u.writes| ==> u.writes[w].change == s.writes[w].change;
  }

  lemma StepKeepsAckedFirst(s: State, step: Step, t: Tool)
    requires AckedFirst(s) && OrderInv(s, t) && (step.Land? ==> step.write == 0)
    ensures AckedFirst(Next(s, step))
  {
    match step {
      case Read =>
      case Hydrate(_) =>
      case Apply(r, edit) => if r < |s.held| { EditKeepsAckedFirst(s, Hydrated(s, r), edit); }
      case Approve(edit) => if s.memory.Some? { EditKeepsAckedFirst(s, s.memory.value, edit); }
      case Land(_) => if s.writes != [] { LandKeepsAckedFirst(s, t); }
      case Fail(f) => if f < |s.writes| { FailKeepsAckedFirst(s, f); }
      case Restart => RestartKeepsAckedFirst(s);
    }
  }

  lemma InOrderIsNotOlder(s: State, step: Step, t: Tool)
    requires AckedFirst(s) && (step.Land? ==> step.write == 0)
    ensures Keeps(s, step, t)
  {
  }

  lemma {:induction false} InOrderIsNeverLate(initial: Rules, steps: seq<Step>, t: Tool)
    requires InOrder(steps)
    ensures NoneLandsLate(initial, steps, t) && AckedFirst(Reach(initial, steps))
  {
    if steps != [] {
      var before, step := steps[..|steps| - 1], steps[|steps| - 1];
      assert steps == before + [step];
      InOrderIsNeverLate(initial, before, t);
      LastLate(initial, before, step, t);
      ReachInv(initial, before, t);
      InOrderIsNotOlder(Reach(initial, before), step, t);
      StepKeepsAckedFirst(Reach(initial, before), step, t);
    }
  }

  // ---------------------------------------------------------------- what the rules then say

  /** `c` says of tool `t` what some change from the i-th on said. */
  ghost predicate SaysSince(s: State, c: Copy, t: Tool, i: nat) {
    exists j :: i <= j < |s.changes| && t in s.changes[j].edit && Get(c.rules, t) == s.changes[j].edit[t]
  }

  lemma CoverSaysSince(s: State, c: Copy, t: Tool, i: nat)
    requires Faithful(s, c, t) && CoversAll(s, c, t) && i < |s.changes| && s.changes[i].stored && t in s.changes[i].edit
    ensures SaysSince(s, c, t, i)
  {
    var j := Stamp(c, t) - 1;
    assert i <= j < |s.changes| && t in s.changes[j].edit && Get(c.rules, t) == s.changes[j].edit[t];
  }

  /** Over any interleaving of reads, hydrations, changes, failed writes and restarts in which no write lands late,
      as none does in order, an acknowledged change is never undone by anything older: the record, and the memory
      whenever the session is in it, say of the tool what that change or a later one said. */
  lemma AcknowledgedIsKept(initial: Rules, steps: seq<Step>, t: Tool, i: nat)
    requires InOrder(steps) || NoneLandsLate(initial, steps, t)
    requires i < |Reach(initial, steps).changes|
    requires Reach(initial, steps).changes[i].stored && t in Reach(initial, steps).changes[i].edit
    ensures var s := Reach(initial, steps);
            SaysSince(s, s.record, t, i) && (s.memory.Some? ==> SaysSince(s, s.memory.value, t, i))
  {
    var s := Reach(initial, steps);
    if InOrder(steps) { InOrderIsNeverLate(initial, steps, t); }
    ReachInv(initial, steps, t);
    ReachCover(initial, steps, t);
    CoverSaysSince(s, s.record, t, i);
    if s.memory.Some? { CoverSaysSince(s, s.memory.value, t, i); }
  }

  /** So the last decision on a tool, once acknowledged, is what both hold; and a tool nobody decided on keeps
      what the record said at the start. */
  lemma LastAcknowledgedRules(initial: Rules, steps: seq<Step>, t: Tool, i: nat)
    requires InOrder(steps) || NoneLandsLate(initial, steps, t)
    requires i < |Reach(initial, steps).changes|
    requires Reach(initial, steps).changes[i].stored && t in Reach(initial, steps).changes[i].edit
    requires forall j :: i < j < |Reach(initial, steps).changes| ==> t !in Reach(initial, steps).changes[j].edit
    ensures var s := Reach(initial, steps);
            && Get(s.record.rules, t) == s.changes[i].edit[t]
            && (s.memory.Some? ==> Get(s.memory.value.rules, t) == s.changes[i].edit[t])
  {
    AcknowledgedIsKept(initial, steps, t, i);
  }

  lemma UndecidedKeepsItsRule(initial: Rules, steps: seq<Step>, t: Tool)
    requires forall j :: 0 <= j < |Reach(initial, steps).changes| ==> t !in Reach(initial, steps).changes[j].edit
    ensures var s := Reach(initial, steps);
            && Get(s.record.rules, t) == Get(initial, t)
            && (s.memory.Some? ==> Get(s.memory.value.rules, t) == Get(initial, t))
  {
    ReachInv(initial, steps, t);
    ReachInitial(initial, steps);
  }

  lemma {:induction false} ReachInitial(initial: Rules, steps: seq<Step>)
    ensures Reach(initial, steps).initial == initial
  {
    if steps != [] { ReachInitial(initial, steps[..|steps| - 1]); }
  }

  lemma MemoryIsCurrent(s: State, t: Tool, i: nat)
    requires CurrentInv(s, t) && (s.memory.Some? ==> Faithful(s, s.memory.value, t))
    requires s.boot <= i < |s.changes| && t in s.changes[i].edit
    requires forall j :: i < j < |s.changes| ==> t !in s.changes[j].edit
    ensures s.memory.Some? && Get(s.memory.value.rules, t) == s.changes[i].edit[t]
  {
    var n := Stamp(s.memory.value, t);
    assert n > i && t in s.changes[n - 1].edit;
  }

  /** In the process it was made in, a decision counts at once, stored or not, and no late hydration from an
      older read clobbers it: only a later decision on the tool replaces it. */
  lemma LateHydrationNeverClobbers(initial: Rules, steps: seq<Step>, t: Tool, i: nat)
    requires Reach(initial, steps).boot <= i < |Reach(initial, steps).changes| && t in Reach(initial, steps).changes[i].edit
    requires forall j :: i < j < |Reach(initial, steps).changes| ==> t !in Reach(initial, steps).changes[j].edit
    ensures var s := Reach(initial, steps);
            s.memory.Some? && Get(s.memory.value.rules, t) == s.changes[i].edit[t]
  {
    ReachInv(initial, steps, t);
    MemoryIsCurrent(Reach(initial, steps), t, i);
  }

  // ---------------------------------------------------------------- what the order of writes is for

  /** And late landings lose decisions: in every reachable state in which a request holds the record, two changes of
      a tool whose writes land the wrong way round leave the acknowledged later decision undone in the record. */
  lemma OutOfOrderLosesADecision(initial: Rules, steps: seq<Step>, r: nat, t: Tool)
    requires r < |Reach(initial, steps).held|
    ensures var n, m := |Reach(initial, steps).writes|, |Reach(initial, steps).changes|;
            var late := Reach(initial, steps + [Apply(r, map[t := Some(Allow)])] + [Apply(r, map[t := Some(Deny)])]
                                       + [Land(n + 1)] + [Land(n)]);
            && |late.changes| == m + 2 && late.changes[m + 1].stored && late.changes[m + 1].edit == map[t := Some(Deny)]
            && Get(late.record.rules, t) == Some(Allow)
  {
    var n := |Reach(initial, steps).writes|;
    var one := steps + [Apply(r, map[t := Some(Allow)])];
    var two := one + [Apply(r, map[t := Some(Deny)])];
    ReachPush(initial, steps, Apply(r, map[t := Some(Allow)]));
    ReachPush(initial, one, Apply(r, map[t := Some(Deny)]));
    TwoApplied(Reach(initial, steps), r, t);
    ReachPush(initial, two, Land(n + 1));
    ReachPush(initial, two + [Land(n + 1)], Land(n));
    WrongWayRound(Reach(initial, two), n, |Reach(initial, steps).changes|, t);
  }

  lemma TwoApplied(s: State, r: nat, t: Tool)
    requires r < |s.held|
    ensures Conflict(Next(Next(s, Apply(r, map[t := Some(Allow)])), Apply(r, map[t := Some(Deny)])), |s.writes|, |s.changes|, t)
  {
  }

  /** The last two changes are an allow and then a deny of the tool, both on their way. */
  ghost predicate Conflict(s: State, n: nat, m: nat, t: Tool) {
    && |s.writes| == n + 2 && s.writes[n].live && s.writes[n + 1].live
    && s.writes[n].change == m && s.writes[n + 1].change == m + 1
    && Get(s.writes[n].copy.rules, t) == Some(Allow)
    && |s.changes| == m + 2 && s.changes[m + 1].edit == map[t := Some(Deny)]
  }

  lemma WrongWayRound(s: State, n: nat, m: nat, t: Tool)
    requires Conflict(s, n, m, t)
    ensures var late := Next(Next(s, Land(n + 1)), Land(n));
            && |late.changes| == m + 2 && late.changes[m + 1].stored && late.changes[m + 1].edit == map[t := Some(Deny)]
            && Get(late.record.rules, t) == Some(Allow)
  {
    assert DoLand(s, n + 1).writes[n] == s.writes[n];
  }
}
