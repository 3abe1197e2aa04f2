/** The teammate supervisor: WHEN a turn runs.  `await` splits the driver loop into atomic pieces, so the
    component is a class whose methods are those pieces, and a transition system over the same state whose
    laws hold for every interleaving. */
module Supervisor {
  import opened Counting

  /** Sessions are only ever compared. */
  type SessionId = nat

  /** The record behind one registration.  The driver loop keeps its own reference to it, so records live in
      a table of their own and the session map only points at them. */
  datatype Entry = Entry(name: string, running: bool, dirty: bool)

  /** Where the turn a driver is awaiting has got to: before its opening drain, after it, or no turn left. */
  datatype Phase = Opening | Body | Over

  datatype Drive = Drive(entry: nat, session: SessionId, phase: Phase)

  /** `calls` lists, in order, the entry behind each call of the injected turn function. */
  datatype Sup = Sup(table: map<SessionId, nat>, entries: seq<Entry>, drives: seq<Drive>, calls: seq<nat>)

  const INITIAL := Sup(map[], [], [], [])

  // ---------------------------------------------------------------- the atomic pieces, on values

  function DoRegister(s: Sup, x: SessionId, name: string): Sup
    requires x in s.table ==> s.table[x] < |s.entries|
  {
    if x in s.table then
      s.(entries := s.entries[s.table[x] := s.entries[s.table[x]].(name := name)])
    else
      s.(table := s.table[x := |s.entries|], entries := s.entries + [Entry(name, false, false)])
  }

  function DoUnregister(s: Sup, x: SessionId): Sup {
    s.(table := s.table - {x})
  }

  function DoWake(s: Sup, x: SessionId): Sup
    requires x in s.table ==> s.table[x] < |s.entries|
  {
    if x !in s.table then s
    else
      var e := s.table[x];
      if s.entries[e].running then
        s.(entries := s.entries[e := s.entries[e].(dirty := true)])
      else
        s.(entries := s.entries[e := s.entries[e].(running := true, dirty := false)],
           drives := s.drives + [Drive(e, x, Opening)],
           calls := s.calls + [e])
  }

  ghost predicate Live(s: Sup, d: int) {
    0 <= d < |s.drives| && s.drives[d].phase != Over
  }

  /** The turn a driver awaits settles.  Resolved: loop again when a wake arrived and the session is still a
      teammate.  Rejected: leave through `finally`. */
  function DoSettle(s: Sup, d: nat, resolved: bool): Sup
    requires d < |s.drives| && s.drives[d].entry < |s.entries|
  {
    var e := s.drives[d].entry;
    if resolved && s.entries[e].dirty && s.drives[d].session in s.table then
      s.(entries := s.entries[e := s.entries[e].(dirty := false)],
         drives := s.drives[d := s.drives[d].(phase := Opening)],
         calls := s.calls + [e])
    else
      s.(entries := s.entries[e := s.entries[e].(running := false)],
         drives := s.drives[d := s.drives[d].(phase := Over)])
  }

  // ---------------------------------------------------------------- the class

  class TeammateSupervisor {
    var teammates: map<SessionId, nat>
    var entries: seq<Entry>
    var drives: seq<Drive>
    var calls: seq<nat>

    ghost function View(): Sup reads this { Sup(teammates, entries, drives, calls) }

    constructor ()
      ensures View() == INITIAL
    {
      teammates, entries, drives, calls := map[], [], [], [];
    }

    method Register(x: SessionId, name: string)
      requires Inv(View())
      modifies this
      ensures View() == DoRegister(old(View()), x, name) && Inv(View())
    {
      if x in teammates {
        var t := teammates[x];
        entries := entries[t := entries[t].(name := name)];
      } else {
        entries := entries + [Entry(name, false, false)];
        teammates := teammates[x := |entries| - 1];
      }
      KeepsInv(old(View()), RegisterStep(x, name));
    }

    method Unregister(x: SessionId)
      requires Inv(View())
      modifies this
      ensures View() == DoUnregister(old(View()), x) && Inv(View())
    {
      teammates := teammates - {x};
      KeepsInv(old(View()), UnregisterStep(x));
    }

    method Wake(x: SessionId)
      requires Inv(View())
      modifies this
      ensures View() == DoWake(old(View()), x) && Inv(View())
    {
      if x !in teammates { return; }
      var t := teammates[x];
      if entries[t].running {
        entries := entries[t := entries[t].(dirty := true)];
        KeepsInv(old(View()), WakeStep(x));
        return;
      }
      StartDrive(x);
    }

    /** The synchronous opening of the driver loop, up to its first await. */
    method StartDrive(x: SessionId)
      requires Inv(View()) && x in teammates && !entries[teammates[x]].running
      modifies this
      ensures View() == DoWake(old(View()), x) && Inv(View())
    {
      var t := teammates[x];
      entries := entries[t := entries[t].(running := true)];
      entries := entries[t := entries[t].(dirty := false)];
      calls := calls + [t];
      drives := drives + [Drive(t, x, Opening)];
      KeepsInv(old(View()), WakeStep(x));
    }

    /** What the driver does when its awaited turn settles, up to its next await or its end. */
    method TurnSettled(d: nat, resolved: bool)
      requires Inv(View()) && Live(View(), d)
      modifies this
      ensures View() == DoSettle(old(View()), d, resolved) && Inv(View())
    {
      SettleKeepsInv(View(), d, resolved);
      var t := drives[d].entry;
      if resolved && entries[t].dirty && drives[d].session in teammates {
        entries := entries[t := entries[t].(dirty := false)];
        calls := calls + [t];
        drives := drives[d := drives[d].(phase := Opening)];
      } else {
        entries := entries[t := entries[t].(running := false)];
        drives := drives[d := drives[d].(phase := Over)];
      }
      assert View() == DoSettle(old(View()), d, resolved);
    }
  }

  // ---------------------------------------------------------------- runs

  datatype Step =
    | RegisterStep(x: SessionId, name: string)
    | UnregisterStep(x: SessionId)
    | WakeStep(x: SessionId)
    | SettleStep(d: nat, resolved: bool)

  /** Every reference into the record table is in range. */
  ghost predicate Shaped(s: Sup) {
    && (forall x :: x in s.table ==> s.table[x] < |s.entries|)
    && (forall d :: 0 <= d < |s.drives| ==> s.drives[d].entry < |s.entries|)
  }

  /** Every registered session has its own record; a record is running exactly while one driver is live on it. */
  ghost predicate Inv(s: Sup) {
    && Shaped(s)
    && (forall x, y :: x in s.table && y in s.table && s.table[x] == s.table[y] ==> x == y)
    && (forall d :: Live(s, d) ==> s.entries[s.drives[d].entry].running)
    && (forall d, x :: Live(s, d) && x in s.table && s.table[x] == s.drives[d].entry ==> s.drives[d].session == x)
    && (forall c, d :: Live(s, c) && Live(s, d) && s.drives[c].entry == s.drives[d].entry ==> c == d)
    && (forall e :: 0 <= e < |s.entries| && s.entries[e].running ==> LiveOn(s, e))
    && (forall c :: 0 <= c < |s.calls| ==> s.calls[c] < |s.entries|)
  }

  ghost predicate LiveOn(s: Sup, e: int) {
    exists d :: Live(s, d) && s.drives[d].entry == e
  }

  /** One step of any interleaving; a step whose moment has not come changes nothing. */
  ghost function Next(s: Sup, step: Step): (t: Sup)
    requires Shaped(s)
    ensures Shaped(t)
  {
    match step
    case RegisterStep(x, name) => DoRegister(s, x, name)
    case UnregisterStep(x) => DoUnregister(s, x)
    case WakeStep(x) => DoWake(s, x)
    case SettleStep(d, resolved) => if Live(s, d) then DoSettle(s, d, resolved) else s
  }

  lemma KeepsInv(s: Sup, step: Step)
    requires Inv(s)
    ensures Inv(Next(s, step))
  {
    var t := Next(s, step);
    match step
    case RegisterStep(x, name) => RegisterKeepsInv(s, x, name);
    case UnregisterStep(x) => KeepsLiveOn(s, t);
    case WakeStep(x) => WakeKeepsInv(s, x);
    case SettleStep(d, resolved) => if Live(s, d) { SettleKeepsInv(s, d, resolved); }
  }

  lemma RegisterKeepsInv(s: Sup, x: SessionId, name: string)
    requires Inv(s)
    ensures Inv(DoRegister(s, x, name))
  {
    var t := DoRegister(s, x, name);
    KeepsLiveOn(s, t);
    assert forall e :: 0 <= e < |s.entries| ==> t.entries[e].running == s.entries[e].running;
    if x in s.table { RenameKeepsInv(s, t); } else { NewEntryKeepsInv(s, t, x, name); }
  }

  lemma RenameKeepsInv(s: Sup, t: Sup)
    requires Inv(s) && t == s.(entries := t.entries) && |t.entries| == |s.entries|
    requires forall e :: 0 <= e < |s.entries| ==> t.entries[e].running == s.entries[e].running
    requires forall e :: LiveOn(s, e) <==> LiveOn(t, e)
    ensures Inv(t)
  {
    assert forall d :: Live(t, d) <==> Live(s, d);
  }

  lemma NewEntryKeepsInv(s: Sup, t: Sup, x: SessionId, name: string)
    requires Inv(s) && x !in s.table
    requires t == s.(table := s.table[x := |s.entries|], entries := s.entries + [Entry(name, false, false)])
    requires forall e :: LiveOn(s, e) <==> LiveOn(t, e)
    ensures Inv(t)
  {
    assert forall d :: Live(t, d) <==> Live(s, d);
  }

  lemma KeepsLiveOn(s: Sup, t: Sup)
    requires s.drives == t.drives
    ensures forall e :: LiveOn(s, e) <==> LiveOn(t, e)
  {
    assert forall d :: Live(s, d) <==> Live(t, d);
  }

  /** A driver that was live and still is keeps its record served. */
  lemma StillLiveOn(s: Sup, t: Sup, e: int)
    requires LiveOn(s, e)
    requires forall d :: Live(s, d) && s.drives[d].entry == e ==> Live(t, d) && t.drives[d].entry == e
    ensures LiveOn(t, e)
  {
    var d :| Live(s, d) && s.drives[d].entry == e;
    assert Live(t, d);
  }

  lemma MarkKeepsInv(s: Sup, x: SessionId)
    requires Inv(s) && x in s.table && s.entries[s.table[x]].running
    ensures Inv(DoWake(s, x))
  {
    KeepsLiveOn(s, DoWake(s, x));
  }

  lemma StartKeepsInv(s: Sup, x: SessionId)
    requires Inv(s) && x in s.table && !s.entries[s.table[x]].running
    ensures Inv(DoWake(s, x))
  {
    var t, n := DoWake(s, x), |s.drives|;
    assert forall d :: Live(t, d) <==> Live(s, d) || d == n;
    assert forall d :: Live(s, d) ==> t.drives[d] == s.drives[d] && s.drives[d].entry != s.table[x];
    forall e | 0 <= e < |t.entries| && t.entries[e].running ensures LiveOn(t, e) {
      if e == s.table[x] { assert Live(t, n); } else { StillLiveOn(s, t, e); }
    }
  }

  lemma WakeKeepsInv(s: Sup, x: SessionId)
    requires Inv(s)
    ensures Inv(DoWake(s, x))
  {
    if x in s.table {
      if s.entries[s.table[x]].running { MarkKeepsInv(s, x); } else { StartKeepsInv(s, x); }
    }
  }

  lemma SettleKeepsInv(s: Sup, d: nat, resolved: bool)
    requires Inv(s) && Live(s, d)
    ensures Inv(DoSettle(s, d, resolved))
  {
    if resolved && s.entries[s.drives[d].entry].dirty && s.drives[d].session in s.table {
      FollowUpKeepsInv(s, d, DoSettle(s, d, resolved));
    } else {
      LeavingKeepsInv(s, d, DoSettle(s, d, resolved));
    }
  }

  lemma FollowUpKeepsInv(s: Sup, d: nat, t: Sup)
    requires Inv(s) && Live(s, d) && t == DoSettle(s, d, true)
    requires s.entries[s.drives[d].entry].dirty && s.drives[d].session in s.table
    ensures Inv(t)
  {
    assert forall c :: 0 <= c < |s.drives| && c != d ==> t.drives[c] == s.drives[c];
    assert forall c :: Live(t, c) <==> Live(s, c);
    forall e | 0 <= e < |t.entries| && t.entries[e].running ensures LiveOn(t, e) {
      StillLiveOn(s, t, e);
    }
  }

  lemma LeavingKeepsInv(s: Sup, d: nat, t: Sup)
    requires Inv(s) && Live(s, d)
    requires t == s.(entries := s.entries[s.drives[d].entry := s.entries[s.drives[d].entry].(running := false)],
                     drives := s.drives[d := s.drives[d].(phase := Over)])
    ensures Inv(t)
  {
    assert forall c :: 0 <= c < |s.drives| && c != d ==> t.drives[c] == s.drives[c];
    assert forall c :: Live(t, c) ==> Live(s, c);
    forall e | 0 <= e < |t.entries| && t.entries[e].running ensures LiveOn(t, e) {
      StillLiveOn(s, t, e);
    }
  }

  ghost function Run(steps: seq<Step>): (s: Sup)
    ensures Shaped(s)
  {
    if steps == [] then INITIAL else Next(Run(steps[..|steps| - 1]), steps[|steps| - 1])
  }

  lemma {:induction false} RunInv(steps: seq<Step>)
    ensures Inv(Run(steps))
  {
    if steps != [] {
      RunInv(steps[..|steps| - 1]);
      KeepsInv(Run(steps[..|steps| - 1]), steps[|steps| - 1]);
    }
  }

  function OnEntry(e: nat): Drive -> bool { (d: Drive) => d.entry == e && d.phase != Over }

  /** Serialized turns: in every reachable state, the number of turns in flight for a registration is one
      while it is marked running and zero while it is not. */
  lemma OneTurnPerEntry(steps: seq<Step>, e: nat)
    requires e < |Run(steps).entries|
    ensures Count(Run(steps).drives, OnEntry(e)) == if Run(steps).entries[e].running then 1 else 0
  {
    RunInv(steps);
    var s := Run(steps);
    if s.entries[e].running {
      assert LiveOn(s, e);
      var d :| Live(s, d) && s.drives[d].entry == e;
      CountUnique(s.drives, d, OnEntry(e));
    } else {
      CountNone(s.drives, OnEntry(e));
    }
  }

  // ---------------------------------------------------------------- no lost wake

  ghost predicate Hits(s: Sup, step: Step, e: nat) {
    step.WakeStep? && step.x in s.table && s.table[step.x] == e
  }

  ghost predicate Starts(s: Sup, t: Sup, e: nat) {
    |t.calls| > |s.calls| && t.calls[|t.calls| - 1] == e
  }

  /** Did a wake reach this registration after its latest turn start? */
  ghost predicate WakeUnserved(steps: seq<Step>, e: nat) {
    if steps == [] then false
    else
      var n := |steps| - 1;
      if Starts(Run(steps[..n]), Run(steps), e) then false
      else Hits(Run(steps[..n]), steps[n], e) || WakeUnserved(steps[..n], e)
  }

  ghost predicate AllResolve(steps: seq<Step>) {
    forall i :: 0 <= i < |steps| && steps[i].SettleStep? ==> steps[i].resolved
  }

  /** No lost wake: as long as turns never reject, a wake newer than the latest turn start of a registered
      teammate finds that teammate running and dirty, so a follow-up turn is owed. */
  lemma {:induction false} NoLostWake(steps: seq<Step>, x: SessionId)
    requires AllResolve(steps) && x in Run(steps).table
    requires WakeUnserved(steps, Run(steps).table[x])
    ensures var t := Run(steps).entries[Run(steps).table[x]]; t.running && t.dirty
  {
    var n := |steps| - 1;
    var s := Run(steps[..n]);
    var t := Run(steps);
    var e := t.table[x];
    RunInv(steps[..n]);
    if !Hits(s, steps[n], e) {
      if x in s.table && s.table[x] == e {
        NoLostWake(steps[..n], x);
      } else {
        UnseenEntryNotWoken(steps[..n], e);
      }
    }
  }

  lemma {:induction false} UnseenEntryNotWoken(steps: seq<Step>, e: nat)
    requires e >= |Run(steps).entries|
    ensures !WakeUnserved(steps, e)
  {
    if steps != [] {
      UnseenEntryNotWoken(steps[..|steps| - 1], e);
    }
  }

  /** The premise is needed, and nothing more is: when a turn that was woken mid-way settles for a session
      still registered, the follow-up turn starts if and only if the turn resolved. */
  lemma FollowUpIffResolved(s: Sup, d: nat, resolved: bool)
    requires Inv(s) && Live(s, d) && s.entries[s.drives[d].entry].dirty && s.drives[d].session in s.table
    ensures Starts(s, DoSettle(s, d, resolved), s.drives[d].entry) <==> resolved
    ensures LiveOn(DoSettle(s, d, resolved), s.drives[d].entry) <==> resolved
  {
    var t := DoSettle(s, d, resolved);
    if resolved { assert Live(t, d); }
    assert forall c :: Live(t, c) ==> Live(s, c);
  }

  /** A rejected turn does lose a wake: registered, woken, woken again mid-turn, rejected, and now idle. */
  lemma RejectedTurnLosesWake()
    ensures var steps := [RegisterStep(7, "n"), WakeStep(7), WakeStep(7), SettleStep(0, false)];
            && 7 in Run(steps).table
            && WakeUnserved(steps, Run(steps).table[7])
            && !Run(steps).entries[Run(steps).table[7]].running
  {
    var s1 := [RegisterStep(7, "n")];
    var s2 := s1 + [WakeStep(7)];
    var s3 := s2 + [WakeStep(7)];
    var s4 := s3 + [SettleStep(0, false)];
    assert s1[..0] == [] && s2[..1] == s1 && s3[..2] == s2 && s4[..3] == s3;
    assert Run([]) == INITIAL;
    assert Run(s1) == DoRegister(INITIAL, 7, "n");
    assert Run(s2) == DoWake(Run(s1), 7);
    assert Run(s3) == DoWake(Run(s2), 7);
    assert Live(Run(s3), 0);
    assert Run(s4) == DoSettle(Run(s3), 0, false);
    assert WakeUnserved(s3, 0);
    assert s4 == [RegisterStep(7, "n"), WakeStep(7), WakeStep(7), SettleStep(0, false)];
  }

  // ---------------------------------------------------------------- coalescing

  function IsEntry(e: nat): nat -> bool { c => c == e }

  ghost function Woken(steps: seq<Step>, e: nat): nat {
    if steps == [] then 0
    else Woken(steps[..|steps| - 1], e) + (if Hits(Run(steps[..|steps| - 1]), steps[|steps| - 1], e) then 1 else 0)
  }

  /** Turns started for a registration, plus the follow-up it owes. */
  ghost function Demand(s: Sup, e: nat): nat
    requires e < |s.entries|
  {
    Count(s.calls, IsEntry(e)) + (if s.entries[e].dirty then 1 else 0)
  }

  lemma StepDemand(s: Sup, step: Step, e: nat)
    requires Shaped(s) && e < |s.entries|
    ensures e < |Next(s, step).entries|
    ensures Demand(Next(s, step), e) <= Demand(s, e) + (if Hits(s, step, e) then 1 else 0)
  {
    match step
    case RegisterStep(_, _) =>
    case UnregisterStep(_) =>
    case WakeStep(x) => if x in s.table { CountPush(s.calls, s.table[x], IsEntry(e)); }
    case SettleStep(d, _) => if Live(s, d) { CountPush(s.calls, s.drives[d].entry, IsEntry(e)); }
  }

  /** Wakes coalesce: a registration never starts more turns than it received wakes, and a pending follow-up
      has a wake of its own to account for. */
  lemma {:induction false} TurnsNeverExceedWakes(steps: seq<Step>, e: nat)
    requires e < |Run(steps).entries|
    ensures Demand(Run(steps), e) <= Woken(steps, e)
  {
    if steps != [] {
      var n := |steps| - 1;
      var s := Run(steps[..n]);
      if e < |s.entries| {
        TurnsNeverExceedWakes(steps[..n], e);
        StepDemand(s, steps[n], e);
      } else {
        RunInv(steps[..n]);
        CountNone(s.calls, IsEntry(e));
      }
    }
  }

  // ---------------------------------------------------------------- one turn per SESSION

  ghost predicate LiveFor(s: Sup, d: int, x: SessionId) {
    Live(s, d) && s.drives[d].session == x
  }

  ghost predicate AtMostOneFor(s: Sup, x: SessionId) {
    forall c, d :: LiveFor(s, c, x) && LiveFor(s, d, x) ==> c == d
  }

  ghost predicate Quiet(s: Sup, step: Step) {
    step.RegisterStep? && step.x !in s.table ==> !(exists d :: LiveFor(s, d, step.x))
  }

  ghost predicate QuietRun(steps: seq<Step>) {
    steps != [] ==> QuietRun(steps[..|steps| - 1]) && Quiet(Run(steps[..|steps| - 1]), steps[|steps| - 1])
  }

  ghost predicate OneEntryPerSession(s: Sup) {
    && (forall d, x :: LiveFor(s, d, x) && x in s.table ==> s.table[x] == s.drives[d].entry)
    && (forall c, d, x :: LiveFor(s, c, x) && LiveFor(s, d, x) ==> s.drives[c].entry == s.drives[d].entry)
  }

  lemma QuietRegisterKeeps(s: Sup, x: SessionId, name: string)
    requires Inv(s) && OneEntryPerSession(s) && Quiet(s, RegisterStep(x, name))
    ensures OneEntryPerSession(DoRegister(s, x, name))
  {
    var t := DoRegister(s, x, name);
    assert forall d, y :: LiveFor(t, d, y) <==> LiveFor(s, d, y);
  }

  lemma QuietWakeKeeps(s: Sup, x: SessionId)
    requires Inv(s) && OneEntryPerSession(s) && Quiet(s, WakeStep(x))
    ensures OneEntryPerSession(DoWake(s, x))
  {
    assert forall d, y :: LiveFor(DoWake(s, x), d, y) && d < |s.drives| ==> LiveFor(s, d, y);
  }

  lemma QuietStepKeeps(s: Sup, step: Step)
    requires Inv(s) && OneEntryPerSession(s) && Quiet(s, step)
    ensures OneEntryPerSession(Next(s, step))
  {
    match step
    case RegisterStep(x, name) => QuietRegisterKeeps(s, x, name);
    case WakeStep(x) => QuietWakeKeeps(s, x);
    case UnregisterStep(_) =>
      assert forall d, y :: LiveFor(Next(s, step), d, y) ==> LiveFor(s, d, y);
    case SettleStep(_, _) =>
      assert forall d, y :: LiveFor(Next(s, step), d, y) ==> LiveFor(s, d, y);
  }

  lemma {:induction false} QuietRunInv(steps: seq<Step>)
    requires QuietRun(steps)
    ensures OneEntryPerSession(Run(steps))
  {
    if steps != [] {
      var n := |steps| - 1;
      QuietRunInv(steps[..n]);
      RunInv(steps[..n]);
      QuietStepKeeps(Run(steps[..n]), steps[n]);
    }
  }

  /** Turns are serialized per SESSION too, provided no session is registered afresh while one of its turns
      is still in flight ... */
  lemma OneTurnPerSession(steps: seq<Step>, x: SessionId)
    requires QuietRun(steps)
    ensures AtMostOneFor(Run(steps), x)
  {
    QuietRunInv(steps);
    RunInv(steps);
  }

  /** ... and that proviso is exact: whenever a session with a turn in flight is registered afresh, the very
      next wake puts a second turn of that session in flight. */
  lemma FreshRegistrationOverlaps(steps: seq<Step>, x: SessionId, name: string, d: nat)
    requires x !in Run(steps).table && LiveFor(Run(steps), d, x)
    ensures !AtMostOneFor(Run(steps + [RegisterStep(x, name)] + [WakeStep(x)]), x)
  {
    RunInv(steps);
    var s := Run(steps);
    var one := steps + [RegisterStep(x, name)];
    var two := one + [WakeStep(x)];
    assert one[..|steps|] == steps && two[..|one|] == one;
    assert Run(one) == DoRegister(s, x, name);
    assert Run(two) == DoWake(Run(one), x);
    assert LiveFor(Run(two), d, x) && LiveFor(Run(two), |s.drives|, x);
  }
}
