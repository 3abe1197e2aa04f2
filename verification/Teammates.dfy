/** Deliveries, wakes, teammate turns, dismissals and restarts interleaving over the durable steering log.

    A delivery is two atomic steps (append, then wake), a turn is three (start, opening drain, return) with
    any number of boundary drains between, a dismissal is two, and a restart forgets everything in memory and
    then restores the roster and wakes whoever the boot read named. */
module Teammates {
  import opened Mailbox
  import opened Supervisor

  /** `roster` is the server's own teammate map (the execution tokens), `pending` the deliveries whose append
      has landed and whose wake has not run, `booting` whether the boot restore is still under way, and
      `unread` the sessions whose latest attempt to read their log failed: a turn that could not authenticate
      or could not read, or a boot read that did not name them. */
  datatype State = State(
    log: Log, sup: Sup, roster: set<SessionId>, pending: multiset<SessionId>, booting: bool, unread: set<SessionId>)

  const BOOT := State(EMPTY_LOG, INITIAL, {}, multiset{}, true, {})

  datatype Step =
    | DeliverAppend(x: SessionId, e: Envelope)   // the awaited enqueue returned its receipt
    | DeliverWake(x: SessionId)                  // the rest of `deliver`
    | Spawn(x: SessionId, name: string)          // a new session id enters the roster and the supervisor
    | Restore(x: SessionId, name: string)        // the boot restore re-registers a session, quietly
    | BootWake(named: seq<SessionId>)            // the boot restore wakes the sessions the log listed
    | Dismiss(x: SessionId)                      // unregister, before the token is revoked
    | DismissDone(x: SessionId)                  // the roster entry goes once the revocation returned
    | TurnReads(d: nat)                          // authenticated, opening drain read the log
    | TurnCannotRead(d: nat)                     // authentication failed or the log was unreadable
    | TurnHasNoToken(d: nat)                     // the session left the roster before its turn started
    | BoundaryDrain(d: nat)                      // the loop drains mid-turn
    | TurnReturns(d: nat)                        // the turn resolved; the driver decides what is next
    | OtherClaim(x: SessionId)                   // a chat turn of the same session drains its log
    | Clear(x: SessionId)                        // a stop discards what is queued
    | Restart

  ghost predicate HasQueued(s: State, x: SessionId) {
    QueuedFor(s.log, x) != []
  }

  /** The boot restore's loop over the sessions the log named; one that is not on the roster is skipped. */
  function WakeAll(sup: Sup, roster: set<SessionId>, named: seq<SessionId>): (r: Sup)
    requires Shaped(sup)
    ensures Shaped(r) && r.table == sup.table
  {
    if named == [] then sup
    else
      var before := WakeAll(sup, roster, named[..|named| - 1]);
      var x := named[|named| - 1];
      if x in roster then DoWake(before, x) else before
  }

  ghost function Missed(s: State, named: seq<SessionId>): set<SessionId> {
    set x | x in s.sup.table && HasQueued(s, x) && x !in named
  }

  ghost function At(s: State, d: nat, phase: Phase): State
    requires d < |s.sup.drives|
  {
    s.(sup := s.sup.(drives := s.sup.drives[d := s.sup.drives[d].(phase := phase)]))
  }

  ghost predicate In(s: State, d: nat, phase: Phase) {
    d < |s.sup.drives| && s.sup.drives[d].phase == phase
  }

  /** One step of any interleaving; a step whose moment has not come changes nothing. */
  ghost function Next(s: State, step: Step): (t: State)
    requires Shaped(s.sup)
    ensures Shaped(t.sup)
  {
    match step
    case DeliverAppend(x, e) => s.(log := Append(s.log, x, e), pending := s.pending + multiset{x})
    case DeliverWake(x) =>
      if x !in s.pending then s
      else s.(sup := DoWake(s.sup, x), pending := s.pending - multiset{x})
    case Spawn(x, name) =>
      if x in s.roster || HasQueued(s, x) then s   // a fresh id has neither
      else s.(sup := DoRegister(s.sup, x, name), roster := s.roster + {x})
    case Restore(x, name) =>
      if !s.booting || x in s.roster then s
      else s.(sup := DoRegister(s.sup, x, name), roster := s.roster + {x})
    case BootWake(named) =>
      if !s.booting then s
      else s.(sup := WakeAll(s.sup, s.roster, named), booting := false, unread := s.unread + Missed(s, named))
    case Dismiss(x) => s.(sup := DoUnregister(s.sup, x))
    case DismissDone(x) => if x in s.sup.table then s else s.(roster := s.roster - {x})
    case TurnReads(d) =>
      if !In(s, d, Opening) || s.sup.drives[d].session !in s.roster then s
      else
        var x := s.sup.drives[d].session;
        At(s, d, Body).(log := Mailbox.Settle(s.log, x, Delivered), unread := s.unread - {x})
    case TurnCannotRead(d) =>
      if !In(s, d, Opening) || s.sup.drives[d].session !in s.roster then s
      else At(s, d, Body).(unread := s.unread + {s.sup.drives[d].session})
    case TurnHasNoToken(d) =>
      if !In(s, d, Opening) || s.sup.drives[d].session in s.roster then s else At(s, d, Body)
    case BoundaryDrain(d) =>
      if !In(s, d, Body) then s else s.(log := Mailbox.Settle(s.log, s.sup.drives[d].session, Delivered))
    case TurnReturns(d) =>
      if !In(s, d, Body) then s else s.(sup := DoSettle(s.sup, d, true))
    case OtherClaim(x) => s.(log := Mailbox.Settle(s.log, x, Delivered))
    case Clear(x) => s.(log := Mailbox.Settle(s.log, x, Discarded))
    case Restart => BOOT.(log := s.log)
  }

  ghost function Run(steps: seq<Step>): (s: State)
    ensures Shaped(s.sup)
  {
    if steps == [] then BOOT else Next(Run(steps[..|steps| - 1]), steps[|steps| - 1])
  }

  // ---------------------------------------------------------------- the invariant

  ghost predicate OpeningOn(sup: Sup, e: nat) {
    exists d :: 0 <= d < |sup.drives| && sup.drives[d].entry == e && sup.drives[d].phase == Opening
  }

  /** A turn that will still drain is in flight, or owed. */
  ghost predicate Served(sup: Sup, x: SessionId)
    requires Shaped(sup)
  {
    x in sup.table && sup.entries[sup.table[x]].running
    && (sup.entries[sup.table[x]].dirty || OpeningOn(sup, sup.table[x]))
  }

  ghost predicate Excused(s: State, x: SessionId) {
    x in s.pending || s.booting || x in s.unread
  }

  ghost predicate Good(s: State) {
    && Supervisor.Inv(s.sup)
    && (forall x :: x in s.sup.table ==> x in s.roster)
    && (forall x :: x in s.sup.table && HasQueued(s, x) ==> Excused(s, x) || Served(s.sup, x))
  }

  // ---------------------------------------------------------------- how the supervisor's pieces serve

  lemma WakeServes(sup: Sup, x: SessionId)
    requires Shaped(sup) && x in sup.table
    ensures Served(DoWake(sup, x), x)
  {
    var t := DoWake(sup, x);
    if !sup.entries[sup.table[x]].running {
      assert t.drives[|sup.drives|].phase == Opening;
    }
  }

  lemma WakeKeepsServed(sup: Sup, x: SessionId, y: SessionId)
    requires Supervisor.Inv(sup) && Served(sup, y)
    ensures Served(DoWake(sup, x), y)
  {
    if x == y {
      WakeServes(sup, x);
    } else if OpeningOn(sup, sup.table[y]) {
      var d :| 0 <= d < |sup.drives| && sup.drives[d].entry == sup.table[y] && sup.drives[d].phase == Opening;
      assert DoWake(sup, x).drives[d] == sup.drives[d];
    }
  }

  lemma {:induction false} WakeAllServes(sup: Sup, roster: set<SessionId>, named: seq<SessionId>, y: SessionId)
    requires Supervisor.Inv(sup) && y in sup.table && y in roster
    requires y in named || Served(sup, y)
    ensures Supervisor.Inv(WakeAll(sup, roster, named)) && Served(WakeAll(sup, roster, named), y)
  {
    if named != [] {
      var n := |named| - 1;
      var before := WakeAll(sup, roster, named[..n]);
      WakeAllInv(sup, roster, named);
      WakeAllInv(sup, roster, named[..n]);
      if named[n] == y {
        WakeServes(before, y);
      } else {
        WakeAllServes(sup, roster, named[..n], y);
        WakeKeepsServed(before, named[n], y);
      }
    }
  }

  lemma {:induction false} WakeAllInv(sup: Sup, roster: set<SessionId>, named: seq<SessionId>)
    requires Supervisor.Inv(sup)
    ensures Supervisor.Inv(WakeAll(sup, roster, named))
  {
    if named != [] {
      WakeAllInv(sup, roster, named[..|named| - 1]);
      WakeKeepsInv(WakeAll(sup, roster, named[..|named| - 1]), named[|named| - 1]);
    }
  }

  lemma NothingOpensBeside(sup: Sup, d: nat)
    requires Supervisor.Inv(sup) && d < |sup.drives| && sup.drives[d].phase == Body
    ensures !OpeningOn(sup, sup.drives[d].entry)
  {
    assert Live(sup, d);
    assert forall c :: 0 <= c < |sup.drives| && Live(sup, c) && sup.drives[c].entry == sup.drives[d].entry ==> c == d;
    assert forall c :: 0 <= c < |sup.drives| && sup.drives[c].phase == Opening ==> Live(sup, c);
  }

  /** A driver whose turn got past its drain returns: whoever was served by something else still is. */
  lemma ReturnKeepsServed(sup: Sup, d: nat, y: SessionId)
    requires Supervisor.Inv(sup) && d < |sup.drives| && sup.drives[d].phase == Body && Served(sup, y)
    ensures Served(DoSettle(sup, d, true), y)
  {
    var t := DoSettle(sup, d, true);
    assert Live(sup, d);
    if sup.drives[d].entry == sup.table[y] {
      assert sup.drives[d].session == y;
      NothingOpensBeside(sup, d);
      assert t.drives[d].phase == Opening;
    } else if OpeningOn(sup, sup.table[y]) {
      var c :| 0 <= c < |sup.drives| && sup.drives[c].entry == sup.table[y] && sup.drives[c].phase == Opening;
      assert t.drives[c] == sup.drives[c];
    }
  }

  /** Moving one driver past its opening drain unserves at most the session that driver belongs to. */
  lemma PassOpeningKeepsServed(s: State, d: nat, y: SessionId)
    requires Supervisor.Inv(s.sup) && In(s, d, Opening) && Served(s.sup, y) && s.sup.drives[d].session != y
    ensures Served(At(s, d, Body).sup, y)
  {
    var t := At(s, d, Body).sup;
    assert Live(s.sup, d);
    if OpeningOn(s.sup, s.sup.table[y]) {
      var c :| 0 <= c < |s.sup.drives| && s.sup.drives[c].entry == s.sup.table[y] && s.sup.drives[c].phase == Opening;
      assert Live(s.sup, c);
      assert c != d;
      assert t.drives[c] == s.sup.drives[c];
    }
  }

  lemma PassOpeningKeepsInv(s: State, d: nat)
    requires Supervisor.Inv(s.sup) && In(s, d, Opening)
    ensures Supervisor.Inv(At(s, d, Body).sup)
  {
    var t := At(s, d, Body).sup;
    assert forall c :: Live(t, c) <==> Live(s.sup, c);
    forall e | 0 <= e < |t.entries| && t.entries[e].running
      ensures LiveOn(t, e)
    {
      assert LiveOn(s.sup, e);
      var c :| Live(s.sup, c) && s.sup.drives[c].entry == e;
      assert Live(t, c) && t.drives[c].entry == e;
    }
  }

  lemma KeepsServed(a: Sup, b: Sup, y: SessionId)
    requires Shaped(a) && Shaped(b) && Served(a, y)
    requires y in b.table && b.table[y] == a.table[y] && b.drives == a.drives
    requires b.entries[b.table[y]].running == a.entries[a.table[y]].running
    requires b.entries[b.table[y]].dirty == a.entries[a.table[y]].dirty
    ensures Served(b, y)
  {
  }

  // ---------------------------------------------------------------- preservation, one kind of step at a time

  lemma SettledQueue(s: State, x: SessionId, d: Disposition, y: SessionId)
    requires d != Queued
    ensures QueuedFor(Mailbox.Settle(s.log, x, d), y) == if x == y then [] else QueuedFor(s.log, y)
  {
    if x == y {
      NoneQueuedAfterSettle(s.log, x, d);
    } else {
      SettleIsLocal(s.log, x, y, d, Queued);
    }
  }

  lemma ClaimKeeps(s: State, x: SessionId, d: Disposition)
    requires Good(s) && d != Queued
    ensures Good(s.(log := Mailbox.Settle(s.log, x, d)))
  {
    var t := s.(log := Mailbox.Settle(s.log, x, d));
    forall y | y in t.sup.table && HasQueued(t, y) ensures Excused(t, y) || Served(t.sup, y) {
      SettledQueue(s, x, d, y);
      assert HasQueued(s, y);
    }
  }

  lemma AppendKeeps(s: State, x: SessionId, e: Envelope)
    requires Good(s)
    ensures Good(Next(s, DeliverAppend(x, e)))
  {
    var t := Next(s, DeliverAppend(x, e));
    forall y | y in t.sup.table && HasQueued(t, y) ensures Excused(t, y) || Served(t.sup, y) {
      AppendSelects(s.log, x, e, y, Queued);
      if y != x { assert HasQueued(s, y); }
    }
  }

  lemma DeliveredWakeKeeps(s: State, x: SessionId)
    requires Good(s)
    ensures Good(Next(s, DeliverWake(x)))
  {
    var t := Next(s, DeliverWake(x));
    if x in s.pending {
      WakeKeepsInv(s.sup, x);
      forall y | y in t.sup.table && HasQueued(t, y) ensures Excused(t, y) || Served(t.sup, y) {
        assert HasQueued(s, y);
        if y == x {
          WakeServes(s.sup, y);
        } else if !Excused(t, y) {
          WakeKeepsServed(s.sup, x, y);
        }
      }
    }
  }

  lemma JoinKeeps(s: State, step: Step)
    requires Good(s) && (step.Spawn? || step.Restore?)
    ensures Good(Next(s, step))
  {
    var t := Next(s, step);
    Supervisor.KeepsInv(s.sup, RegisterStep(step.x, step.name));
    forall y | y in t.sup.table && HasQueued(t, y) ensures Excused(t, y) || Served(t.sup, y) {
      assert HasQueued(s, y);
      if !Excused(t, y) {
        assert y in s.sup.table;
        KeepsServed(s.sup, t.sup, y);
      }
    }
  }

  lemma LeaveKeeps(s: State, step: Step)
    requires Good(s) && (step.Dismiss? || step.DismissDone?)
    ensures Good(Next(s, step))
  {
    var t := Next(s, step);
    Supervisor.KeepsInv(s.sup, UnregisterStep(step.x));
    forall y | y in t.sup.table && HasQueued(t, y) ensures Excused(t, y) || Served(t.sup, y) {
      assert HasQueued(s, y) && y in s.sup.table;
      if !Excused(t, y) { KeepsServed(s.sup, t.sup, y); }
    }
  }

  lemma BootWakeKeeps(s: State, named: seq<SessionId>)
    requires Good(s)
    ensures Good(Next(s, BootWake(named)))
  {
    var t := Next(s, BootWake(named));
    WakeAllInv(s.sup, s.roster, named);
    if s.booting {
      forall y | y in t.sup.table && HasQueued(t, y) ensures Excused(t, y) || Served(t.sup, y) {
        assert HasQueued(s, y);
        if y in named {
          WakeAllServes(s.sup, s.roster, named, y);
        } else {
          assert y in Missed(s, named);
        }
      }
    }
  }

  lemma OpeningKeeps(s: State, step: Step)
    requires Good(s) && (step.TurnReads? || step.TurnCannotRead? || step.TurnHasNoToken?)
    ensures Good(Next(s, step))
  {
    var t := Next(s, step);
    if t != s {
      var x := s.sup.drives[step.d].session;
      PassOpeningKeepsInv(s, step.d);
      assert t.sup == At(s, step.d, Body).sup;
      forall y | y in t.sup.table && HasQueued(t, y) ensures Excused(t, y) || Served(t.sup, y) {
        SettledQueue(s, x, Delivered, y);
        assert HasQueued(s, y);
        if y != x && !Excused(t, y) {
          PassOpeningKeepsServed(s, step.d, y);
        }
      }
    }
  }

  lemma ReturnKeeps(s: State, d: nat)
    requires Good(s)
    ensures Good(Next(s, TurnReturns(d)))
  {
    var t := Next(s, TurnReturns(d));
    if In(s, d, Body) {
      assert Live(s.sup, d);
      SettleKeepsInv(s.sup, d, true);
      forall y | y in t.sup.table && HasQueued(t, y) ensures Excused(t, y) || Served(t.sup, y) {
        assert HasQueued(s, y);
        if !Excused(t, y) { ReturnKeepsServed(s.sup, d, y); }
      }
    }
  }

  lemma KeepsGood(s: State, step: Step)
    requires Good(s)
    ensures Good(Next(s, step))
  {
    match step
    case DeliverAppend(x, e) => AppendKeeps(s, x, e);
    case DeliverWake(x) => DeliveredWakeKeeps(s, x);
    case Spawn(_, _) => JoinKeeps(s, step);
    case Restore(_, _) => JoinKeeps(s, step);
    case Dismiss(_) => LeaveKeeps(s, step);
    case DismissDone(_) => LeaveKeeps(s, step);
    case BootWake(named) => BootWakeKeeps(s, named);
    case TurnReads(_) => OpeningKeeps(s, step);
    case TurnCannotRead(_) => OpeningKeeps(s, step);
    case TurnHasNoToken(_) => OpeningKeeps(s, step);
    case BoundaryDrain(d) => if In(s, d, Body) { ClaimKeeps(s, s.sup.drives[d].session, Delivered); }
    case TurnReturns(d) => ReturnKeeps(s, d);
    case OtherClaim(x) => ClaimKeeps(s, x, Delivered);
    case Clear(x) => ClaimKeeps(s, x, Discarded);
    case Restart =>
  }

  lemma {:induction false} RunGood(steps: seq<Step>)
    ensures Good(Run(steps))
  {
    if steps != [] {
      RunGood(steps[..|steps| - 1]);
      KeepsGood(Run(steps[..|steps| - 1]), steps[|steps| - 1]);
    }
  }

  // ---------------------------------------------------------------- the theorem

  /** No lost message.  Over every interleaving: a registered teammate with no turn in flight, no delivery
      between its append and its wake, the boot restore finished, and no failed latest attempt to read its
      log, has nothing queued. */
  lemma NoLostMessage(steps: seq<Step>, x: SessionId)
    requires var s := Run(steps);
             && x in s.sup.table && !LiveOn(s.sup, s.sup.table[x])
             && x !in s.pending && !s.booting && x !in s.unread
    ensures QueuedFor(Run(steps).log, x) == []
  {
    RunGood(steps);
  }

  /** A failed read costs time, not messages: whatever is queued when a teammate could not read its log, the
      next delivery's wake leaves it with a turn that is about to drain, or with one owed. */
  lemma NextWakeReadsEverything(steps: seq<Step>, x: SessionId)
    requires x in Run(steps).sup.table && x in Run(steps).pending
    ensures Served(Run(steps + [DeliverWake(x)]).sup, x)
  {
    var after := steps + [DeliverWake(x)];
    assert after[..|steps|] == steps;
    WakeServes(Run(steps).sup, x);
  }

  /** A boot read that names every session with something queued excuses nobody. */
  lemma CompleteBootReadMissesNobody(steps: seq<Step>, named: seq<SessionId>, x: SessionId)
    requires Run(steps).booting && x in Run(steps).sup.table && HasQueued(Run(steps), x)
    requires x in named
    ensures Served(Run(steps + [BootWake(named)]).sup, x)
    ensures x in Run(steps + [BootWake(named)]).unread ==> x in Run(steps).unread
  {
    var after := steps + [BootWake(named)];
    assert after[..|steps|] == steps;
    RunGood(steps);
    WakeAllServes(Run(steps).sup, Run(steps).roster, named, x);
  }

  /** The excuse is needed: in every reachable state, a turn that cannot read its log and is not woken again
      returns to an idle teammate with the whole queue untouched. */
  lemma FailedReadLeavesQueue(steps: seq<Step>, d: nat, x: SessionId)
    requires var s := Run(steps);
             && In(s, d, Opening) && s.sup.drives[d].session == x && x in s.sup.table
             && s.sup.drives[d].entry == s.sup.table[x] && !s.sup.entries[s.sup.table[x]].dirty
    ensures var t := Run(steps + [TurnCannotRead(d)] + [TurnReturns(d)]);
            && x in t.sup.table && !LiveOn(t.sup, t.sup.table[x])
            && QueuedFor(t.log, x) == QueuedFor(Run(steps).log, x) && x in t.unread
  {
    var one := steps + [TurnCannotRead(d)];
    assert one[..|steps|] == steps && (one + [TurnReturns(d)])[..|one|] == one;
    RunGood(steps);
    CannotReadThenReturns(Run(steps), d, x);
  }

  lemma CannotReadThenReturns(s: State, d: nat, x: SessionId)
    requires Good(s) && In(s, d, Opening) && s.sup.drives[d].session == x && x in s.sup.table
    requires s.sup.drives[d].entry == s.sup.table[x] && !s.sup.entries[s.sup.table[x]].dirty
    ensures var t := Next(Next(s, TurnCannotRead(d)), TurnReturns(d));
            && x in t.sup.table && !LiveOn(t.sup, t.sup.table[x]) && t.log == s.log && x in t.unread
  {
    assert Live(s.sup, d);
    var m := At(s, d, Body).(unread := s.unread + {x});
    assert Next(s, TurnCannotRead(d)) == m;
    var t := Next(m, TurnReturns(d));
    assert t.sup == DoSettle(m.sup, d, true);
    assert forall c :: Live(t.sup, c) ==> Live(s.sup, c);
  }

  // ---------------------------------------------------------------- the mailbox laws apply to these runs

  /** The log operations of one step. */
  ghost function OpsOf(s: State, step: Step): seq<Op> {
    match step
    case DeliverAppend(x, e) => [AppendOp(x, e)]
    case OtherClaim(x) => [ClaimOp(x)]
    case Clear(x) => [DiscardOp(x)]
    case TurnReads(d) =>
      if In(s, d, Opening) && s.sup.drives[d].session in s.roster then [ClaimOp(s.sup.drives[d].session)] else []
    case BoundaryDrain(d) => if In(s, d, Body) then [ClaimOp(s.sup.drives[d].session)] else []
    case _ => []
  }

  /** The log operations a run performs, so that the mailbox's own laws (in order, at most once, conserved)
      hold of every interleaving here. */
  ghost function Ops(steps: seq<Step>): seq<Op> {
    if steps == [] then []
    else Ops(steps[..|steps| - 1]) + OpsOf(Run(steps[..|steps| - 1]), steps[|steps| - 1])
  }

  lemma StepIsItsOps(s: State, step: Step)
    requires Shaped(s.sup)
    ensures |OpsOf(s, step)| <= 1
    ensures Next(s, step).log == if OpsOf(s, step) == [] then s.log else Do(s.log, OpsOf(s, step)[0])
  {
  }

  lemma {:induction false} RunIsALogRun(steps: seq<Step>)
    ensures Run(steps).log == RunLog(Ops(steps))
  {
    if steps != [] {
      var n := |steps| - 1;
      var s, before := Run(steps[..n]), Ops(steps[..n]);
      RunIsALogRun(steps[..n]);
      StepIsItsOps(s, steps[n]);
      if OpsOf(s, steps[n]) == [] {
        assert Ops(steps) == before;
      } else {
        assert Ops(steps)[..|before|] == before && Ops(steps) == before + [OpsOf(s, steps[n])[0]];
      }
    }
  }

  /** Over every interleaving, restarts included, each message a session's turns absorbed was absorbed once,
      in seq order, and is recorded as delivered. */
  lemma AbsorbedOnceInOrder(steps: seq<Step>, x: SessionId)
    ensures Increasing(Absorbed(Ops(steps), x))
    ensures Absorbed(Ops(steps), x) == SeqNos(Select(Run(steps).log.rows, x, Delivered))
  {
    RunIsALogRun(steps);
    AbsorbedInOrder(Ops(steps), x);
    AbsorbedIsDelivered(Ops(steps), x);
  }
}
