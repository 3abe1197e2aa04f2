/** Approval of gated tool calls: the registry of parked asks, where a member's answer, a relaxed mode, an
    abort and a timeout race to settle each ask once, and the permit hook of headless runs on top of it. */
module Approvals {

  datatype Option<+T> = None | Some(value: T)

  datatype Decision = Allow | Deny

  /** Request ids are only ever compared. */
  type RequestId = nat

  /** One parked ask.  `guarded` is the action policy's classification of the tool, fixed when it parked. */
  datatype Wait = Wait(requestId: RequestId, session: string, tool: string, guarded: bool, result: Option<Decision>)

  /** Every ask ever parked, and which of them a request id currently reaches. */
  datatype Registry = Registry(waits: seq<Wait>, pending: map<RequestId, nat>)

  /** The modes a session can be relaxed to while an ask is parked. */
  datatype Relaxed = ToBypass | ToAuto

  // ---------------------------------------------------------------- the registry, on values

  function DoWait(r: Registry, id: RequestId, session: string, tool: string, guarded: bool): Registry {
    Registry(r.waits + [Wait(id, session, tool, guarded, None)], r.pending[id := |r.waits|])
  }

  /** An ask settles once; whoever comes later finds it settled.  Settling frees the request id. */
  function DoFinish(r: Registry, w: nat, d: Decision): Registry
    requires w < |r.waits|
  {
    if r.waits[w].result.Some? then r
    else Registry(r.waits[w := r.waits[w].(result := Some(d))], r.pending - {r.waits[w].requestId})
  }

  ghost predicate Answerable(r: Registry, id: RequestId, session: string) {
    id in r.pending && r.pending[id] < |r.waits| && r.waits[r.pending[id]].session == session
  }

  /** What a relaxed mode would have answered without asking. */
  predicate Relaxes(mode: Relaxed, tool: string, guarded: bool) {
    mode == ToBypass || (tool != "" && !guarded)
  }

  predicate Reached(r: Registry, w: nat) {
    w < |r.waits| && r.waits[w].requestId in r.pending && r.pending[r.waits[w].requestId] == w
  }

  predicate Matches(r: Registry, session: string, mode: Relaxed, w: nat) {
    Reached(r, w) && r.waits[w].session == session && Relaxes(mode, r.waits[w].tool, r.waits[w].guarded)
  }

  function DoResolveWhere(r: Registry, session: string, mode: Relaxed): (t: Registry)
    ensures |t.waits| == |r.waits|
    ensures forall w :: 0 <= w < |r.waits| ==>
              t.waits[w] == if Matches(r, session, mode, w) && r.waits[w].result.None?
                            then r.waits[w].(result := Some(Allow)) else r.waits[w]
  {
    Registry(
      seq(|r.waits|, w requires 0 <= w < |r.waits| =>
        if Matches(r, session, mode, w) && r.waits[w].result.None? then r.waits[w].(result := Some(Allow)) else r.waits[w]),
      map id | id in r.pending && !Matches(r, session, mode, r.pending[id]) :: r.pending[id])
  }

  /** A request id reaches only its own ask, and only while that ask is unsettled. */
  ghost predicate Sound(r: Registry) {
    forall id :: id in r.pending ==>
      r.pending[id] < |r.waits| && r.waits[r.pending[id]].requestId == id && r.waits[r.pending[id]].result.None?
  }

  /** The request ids whose asks a relaxed mode settles. */
  ghost function Hits(r: Registry, session: string, mode: Relaxed): set<RequestId> {
    set id | id in r.pending && Matches(r, session, mode, r.pending[id])
  }

  /** The registry with the asks behind some of its request ids allowed. */
  function AllowThese(r: Registry, done: set<RequestId>): Registry {
    Registry(
      seq(|r.waits|, w requires 0 <= w < |r.waits| =>
        if Reached(r, w) && r.waits[w].requestId in done then r.waits[w].(result := Some(Allow)) else r.waits[w]),
      r.pending - done)
  }

  lemma AllowOneMore(r: Registry, done: set<RequestId>, id: RequestId)
    requires Sound(r) && id in r.pending && id !in done
    ensures id in AllowThese(r, done).pending && AllowThese(r, done).pending[id] == r.pending[id]
    ensures AllowThese(r, done).waits[r.pending[id]] == r.waits[r.pending[id]]
    ensures DoFinish(AllowThese(r, done), r.pending[id], Allow) == AllowThese(r, done + {id})
  {
    var next := DoFinish(AllowThese(r, done), r.pending[id], Allow);
    assert next.pending == r.pending - (done + {id});
    assert next.waits == AllowThese(r, done + {id}).waits;
  }

  lemma SweepOne(hits: set<RequestId>, todo: set<RequestId>, id: RequestId)
    requires id in todo
    ensures id !in hits - todo
    ensures hits - (todo - {id}) == if id in hits then (hits - todo) + {id} else hits - todo
  {
  }

  lemma AllowNone(r: Registry)
    ensures AllowThese(r, {}) == r
  {
    assert AllowThese(r, {}).waits == r.waits && r.pending - {} == r.pending;
  }

  lemma AllowHits(r: Registry, session: string, mode: Relaxed)
    requires Sound(r)
    ensures AllowThese(r, Hits(r, session, mode)) == DoResolveWhere(r, session, mode)
  {
    var these, all := AllowThese(r, Hits(r, session, mode)), DoResolveWhere(r, session, mode);
    assert these.waits == all.waits && these.pending == all.pending;
  }

  class PermissionRegistry {
    var waits: seq<Wait>
    var pending: map<RequestId, nat>

    ghost function View(): Registry reads this { Registry(waits, pending) }

    constructor ()
      ensures View() == Registry([], map[]) && Sound(View())
    {
      waits, pending := [], map[];
    }

    method Park(id: RequestId, session: string, tool: string, guarded: bool) returns (w: nat)
      requires Sound(View())
      modifies this
      ensures View() == DoWait(old(View()), id, session, tool, guarded) && Sound(View())
      ensures w == |old(waits)|
    {
      w := |waits|;
      waits := waits + [Wait(id, session, tool, guarded, None)];
      pending := pending[id := w];
    }

    /** The one way an ask settles: a member's answer, a relaxed mode, an abort and the timer all end here. */
    method Finish(w: nat, d: Decision)
      requires Sound(View()) && w < |waits|
      modifies this
      ensures View() == DoFinish(old(View()), w, d) && Sound(View())
    {
      if waits[w].result.Some? { return; }
      pending := pending - {waits[w].requestId};
      waits := waits[w := waits[w].(result := Some(d))];
    }

    method Respond(id: RequestId, session: string, d: Decision) returns (answered: bool)
      requires Sound(View())
      modifies this
      ensures Sound(View())
      ensures answered <==> Answerable(old(View()), id, session)
      ensures answered ==> View() == DoFinish(old(View()), old(pending)[id], d) && waits[old(pending)[id]].result == Some(d)
      ensures !answered ==> View() == old(View())
    {
      if id !in pending || waits[pending[id]].session != session { return false; }
      Finish(pending[id], d);
      return true;
    }

    /** Settle one parked ask if the relaxed mode would not have asked.  `was` is the registry the sweep
        started from and `done` the request ids it has allowed so far. */
    method ResolveOne(id: RequestId, session: string, mode: Relaxed, ghost was: Registry, ghost done: set<RequestId>)
      returns (hit: bool)
      requires Sound(View()) && Sound(was) && View() == AllowThese(was, done)
      requires id in was.pending && id !in done
      modifies this
      ensures Sound(View())
      ensures hit <==> id in Hits(was, session, mode)
      ensures View() == AllowThese(was, if hit then done + {id} else done)
    {
      AllowOneMore(was, done, id);
      var w := pending[id];
      hit := waits[w].session == session && Relaxes(mode, waits[w].tool, waits[w].guarded);
      if hit { Finish(w, Allow); }
    }

    /** Settle every parked ask of the session the relaxed mode would not have asked about. */
    method ResolveWhere(session: string, mode: Relaxed) returns (resolved: nat)
      requires Sound(View())
      modifies this
      ensures View() == AllowThese(old(View()), Hits(old(View()), session, mode)) && Sound(View())
      ensures resolved == |Hits(old(View()), session, mode)|
    {
      AllowNone(View());
      resolved := Sweep(pending.Keys, session, mode, View(), Hits(View(), session, mode));
    }

    /** The sweep itself.  `was` is the registry it started from and `hits` the asks it is to settle. */
    method Sweep(ids: set<RequestId>, session: string, mode: Relaxed, ghost was: Registry, ghost hits: set<RequestId>)
      returns (resolved: nat)
      requires Sound(View()) && Sound(was) && View() == AllowThese(was, {})
      requires hits == Hits(was, session, mode) && ids == was.pending.Keys
      modifies this
      ensures View() == AllowThese(was, hits) && Sound(View())
      ensures resolved == |hits|
    {
      var todo := ids;
      ghost var done: set<RequestId> := {};
      resolved := 0;
      while todo != {}
        invariant Sound(View()) && View() == AllowThese(was, done)
        invariant todo <= ids && done == hits - todo
        invariant resolved == |done|
        decreases |todo|
      {
        var id :| id in todo;
        SweepOne(hits, todo, id);
        var hit := ResolveOne(id, session, mode, was, done);
        todo := todo - {id};
        if hit {
          resolved := resolved + 1;
          done := done + {id};
        }
      }
      assert done == hits;
    }

    /** The session's parked asks, for a panel that opens late. */
    method PendingFor(session: string) returns (ids: set<RequestId>)
      requires Sound(View())
      ensures forall id :: id in ids <==> Answerable(View(), id, session)
    {
      ids := set id | id in pending && waits[pending[id]].session == session;
    }
  }

  // ---------------------------------------------------------------- headless runs over the registry

  datatype Mode = Bypass | Auto | Default | Plan

  /** A run's permit: its mode, whether there is anybody to ask, and the tool a resume pre-approved (once). */
  datatype Run = Run(session: string, mode: Mode, channel: bool, resumedFor: Option<string>, preApproved: Option<string>)

  /** How a call was, or is being, decided. */
  datatype Verdict =
    | Ungated                       // bypass: no hook at all
    | Routine                       // auto mode, unguarded
    | PreApproved                   // the one re-ask a resume pre-approved
    | NoChannel                     // denied: nobody to ask
    | Parking                       // recorded as awaiting approval, ask not yet registered
    | Parked(wait: nat)
    | Answered(wait: nat, decision: Decision)

  datatype Call = Call(run: nat, tool: string, guarded: bool, verdict: Verdict)

  datatype State = State(registry: Registry, runs: seq<Run>, calls: seq<Call>)

  const START := State(Registry([], map[]), [], [])

  datatype Step =
    | Begin(session: string, mode: Mode, channel: bool, resumedFor: Option<string>)
    | CallTool(run: nat, tool: string, guarded: bool)
    | Register(call: nat, id: RequestId)
    | Respond(id: RequestId, session: string, decision: Decision)
    | Relax(session: string, to: Relaxed)
    | Abort(wait: nat)
    | Timeout(wait: nat)
    | Learn(call: nat)              // the hook's await returns

  /** The permit hook up to its first await. */
  function Decide(run: Run, tool: string, guarded: bool): Verdict {
    if run.mode == Bypass then Ungated
    else if run.preApproved == Some(tool) then PreApproved
    else if run.mode == Auto && !guarded then Routine
    else if !run.channel then NoChannel
    else Parking
  }

  function Settle(s: State, w: nat, d: Decision): State {
    if w < |s.registry.waits| then s.(registry := DoFinish(s.registry, w, d)) else s
  }

  ghost function Next(s: State, step: Step): State {
    match step
    case Begin(session, mode, channel, resumedFor) =>
      s.(runs := s.runs + [Run(session, mode, channel, resumedFor, resumedFor)])
    case CallTool(r, tool, guarded) =>
      if r >= |s.runs| then s
      else
        var verdict := Decide(s.runs[r], tool, guarded);
        State(s.registry,
              if verdict == PreApproved then s.runs[r := s.runs[r].(preApproved := None)] else s.runs,
              s.calls + [Call(r, tool, guarded, verdict)])
    case Register(c, id) =>
      if c >= |s.calls| || s.calls[c].verdict != Parking || s.calls[c].run >= |s.runs| then s
      else
        var call := s.calls[c];
        State(DoWait(s.registry, id, s.runs[call.run].session, call.tool, call.guarded), s.runs,
              s.calls[c := call.(verdict := Parked(|s.registry.waits|))])
    case Respond(id, session, d) =>
      if Answerable(s.registry, id, session) then Settle(s, s.registry.pending[id], d) else s
    case Relax(session, mode) => s.(registry := DoResolveWhere(s.registry, session, mode))
    case Abort(w) => Settle(s, w, Deny)
    case Timeout(w) => Settle(s, w, Deny)
    case Learn(c) =>
      if c >= |s.calls| || !s.calls[c].verdict.Parked? then s
      else
        var w := s.calls[c].verdict.wait;
        if w >= |s.registry.waits| || s.registry.waits[w].result.None? then s
        else s.(calls := s.calls[c := s.calls[c].(verdict := Answered(w, s.registry.waits[w].result.value))])
  }

  ghost function Reach(steps: seq<Step>): State {
    if steps == [] then START else Next(Reach(steps[..|steps| - 1]), steps[|steps| - 1])
  }

  // ---------------------------------------------------------------- each ask settles once

  lemma KeepsSound(s: State, step: Step)
    requires Sound(s.registry)
    ensures Sound(Next(s, step).registry)
  {
  }

  lemma {:induction false} ReachSound(steps: seq<Step>)
    ensures Sound(Reach(steps).registry)
  {
    if steps != [] {
      ReachSound(steps[..|steps| - 1]);
      KeepsSound(Reach(steps[..|steps| - 1]), steps[|steps| - 1]);
    }
  }

  lemma WaitsOnlySettle(s: State, step: Step, w: nat)
    requires w < |s.registry.waits|
    ensures w < |Next(s, step).registry.waits|
    ensures Next(s, step).registry.waits[w].(result := None) == s.registry.waits[w].(result := None)
    ensures s.registry.waits[w].result.Some? ==> Next(s, step).registry.waits[w] == s.registry.waits[w]
  {
  }

  /** An ask, once settled, keeps its decision for ever: the race has one winner. */
  lemma {:induction false} SettledForGood(steps: seq<Step>, more: seq<Step>, w: nat)
    requires w < |Reach(steps).registry.waits| && Reach(steps).registry.waits[w].result.Some?
    ensures w < |Reach(steps + more).registry.waits|
    ensures Reach(steps + more).registry.waits[w] == Reach(steps).registry.waits[w]
  {
    if more == [] {
      assert steps + more == steps;
    } else {
      var n := |more| - 1;
      assert (steps + more)[..|steps + more| - 1] == steps + more[..n];
      SettledForGood(steps, more[..n], w);
      WaitsOnlySettle(Reach(steps + more[..n]), more[n], w);
    }
  }

  /** One answer settles at most one ask, even if request ids were reused. */
  lemma OneAnswerOneAsk(steps: seq<Step>, id: RequestId, session: string, d: Decision, v: nat, w: nat)
    requires v < |Reach(steps).registry.waits| && w < |Reach(steps).registry.waits|
    requires var s := Reach(steps);
             var t := Next(s, Respond(id, session, d));
             && s.registry.waits[v].result.None? && t.registry.waits[v].result.Some?
             && s.registry.waits[w].result.None? && t.registry.waits[w].result.Some?
    ensures v == w && Reach(steps).registry.waits[v].requestId == id && Reach(steps).registry.waits[v].session == session
  {
    ReachSound(steps);
  }

  // ---------------------------------------------------------------- relaxing a session

  /** No other ask ever parked under the request id of this one. */
  ghost predicate OwnId(waits: seq<Wait>, w: int) {
    0 <= w < |waits| && forall v :: 0 <= v < |waits| && v != w ==> waits[v].requestId != waits[w].requestId
  }

  ghost predicate OwnReached(r: Registry) {
    forall w :: 0 <= w < |r.waits| && OwnId(r.waits, w) && r.waits[w].result.None? ==>
      r.waits[w].requestId in r.pending && r.pending[r.waits[w].requestId] == w
  }

  lemma OwnIdBefore(was: seq<Wait>, now: seq<Wait>, w: nat)
    requires |was| <= |now| && forall v :: 0 <= v < |was| ==> now[v].requestId == was[v].requestId
    requires OwnId(now, w) && w < |was|
    ensures OwnId(was, w)
  {
    forall v | 0 <= v < |was| && v != w ensures was[v].requestId != was[w].requestId {
      assert now[v].requestId != now[w].requestId;
    }
  }

  lemma FinishKeepsOwn(r: Registry, w: nat, d: Decision)
    requires OwnReached(r) && w < |r.waits|
    ensures OwnReached(DoFinish(r, w, d))
  {
    var t := DoFinish(r, w, d);
    forall v | 0 <= v < |t.waits| && OwnId(t.waits, v) && t.waits[v].result.None?
      ensures t.waits[v].requestId in t.pending && t.pending[t.waits[v].requestId] == v
    {
      OwnIdBefore(r.waits, t.waits, v);
    }
  }

  lemma WaitKeepsOwn(r: Registry, id: RequestId, session: string, tool: string, guarded: bool)
    requires OwnReached(r)
    ensures OwnReached(DoWait(r, id, session, tool, guarded))
  {
    var t := DoWait(r, id, session, tool, guarded);
    forall v | 0 <= v < |t.waits| && OwnId(t.waits, v) && t.waits[v].result.None?
      ensures t.waits[v].requestId in t.pending && t.pending[t.waits[v].requestId] == v
    {
      if v < |r.waits| {
        OwnIdBefore(r.waits, t.waits, v);
        assert t.waits[|r.waits|].requestId != t.waits[v].requestId;
      }
    }
  }

  lemma RelaxKeepsOwn(r: Registry, session: string, mode: Relaxed)
    requires OwnReached(r)
    ensures OwnReached(DoResolveWhere(r, session, mode))
  {
    var t := DoResolveWhere(r, session, mode);
    forall v | 0 <= v < |t.waits| && OwnId(t.waits, v) && t.waits[v].result.None?
      ensures t.waits[v].requestId in t.pending && t.pending[t.waits[v].requestId] == v
    {
      OwnIdBefore(r.waits, t.waits, v);
    }
  }

  lemma {:induction false} ReachOwn(steps: seq<Step>)
    ensures OwnReached(Reach(steps).registry)
  {
    if steps != [] {
      var n := |steps| - 1;
      var s := Reach(steps[..n]);
      ReachOwn(steps[..n]);
      match steps[n] {
        case Register(c, id) =>
          if c < |s.calls| && s.calls[c].run < |s.runs| {
            WaitKeepsOwn(s.registry, id, s.runs[s.calls[c].run].session, s.calls[c].tool, s.calls[c].guarded);
          }
        case Respond(id, session, d) =>
          if Answerable(s.registry, id, session) { FinishKeepsOwn(s.registry, s.registry.pending[id], d); }
        case Relax(session, mode) => RelaxKeepsOwn(s.registry, session, mode);
        case Abort(w) => if w < |s.registry.waits| { FinishKeepsOwn(s.registry, w, Deny); }
        case Timeout(w) => if w < |s.registry.waits| { FinishKeepsOwn(s.registry, w, Deny); }
        case _ =>
      }
    }
  }

  /** Relaxing a session settles its asks, exactly: to bypass it allows all that are still parked, to auto the
      parked ones of a named tool that is not guarded.  A guarded ask, or one of no named tool, is never
      allowed by relaxing to auto, and no ask of another session or already settled is touched.  (An ask whose
      request id a second ask took over may be out of its reach, and then stays as it is.) */
  lemma RelaxSettlesIff(steps: seq<Step>, session: string, mode: Relaxed, w: nat)
    requires w < |Reach(steps).registry.waits|
    ensures var s, t := Reach(steps), Reach(steps + [Relax(session, mode)]);
            && |t.registry.waits| == |s.registry.waits|
            && var ask, now := s.registry.waits[w], t.registry.waits[w];
            var covered := ask.result.None? && ask.session == session
                           && (if mode.ToBypass? then true else ask.tool != "" && !ask.guarded);
            && (now == ask || (covered && now == ask.(result := Some(Allow))))
            && (OwnId(s.registry.waits, w) && covered ==> now.result == Some(Allow))
  {
    ReachOwn(steps);
    assert (steps + [Relax(session, mode)])[..|steps|] == steps;
  }

  // ---------------------------------------------------------------- every allow is accounted for

  /** Does this step, taken in this state, justify allowing this ask? */
  ghost predicate JustifiesAllow(ask: Wait, step: Step) {
    || step == Respond(ask.requestId, ask.session, Allow)
    || (step.Relax? && step.session == ask.session && (step.to.ToBypass? || (ask.tool != "" && !ask.guarded)))
  }

  ghost predicate JustifiesDeny(ask: Wait, w: nat, step: Step) {
    step == Respond(ask.requestId, ask.session, Deny) || step == Abort(w) || step == Timeout(w)
  }

  /** Step `i` is where ask `w` was settled with decision `d`, and it is a step that justifies that. */
  ghost predicate SettledBy(steps: seq<Step>, w: nat, d: Decision, i: int) {
    && 0 <= i < |steps|
    && w < |Reach(steps[..i]).registry.waits|
    && var ask := Reach(steps[..i]).registry.waits[w];
    && ask.result.None?
    && (d == Allow ==> JustifiesAllow(ask, steps[i]))
    && (d == Deny ==> JustifiesDeny(ask, w, steps[i]))
  }

  lemma SettlingStepJustifies(s: State, step: Step, w: nat)
    requires Sound(s.registry) && w < |s.registry.waits| && s.registry.waits[w].result.None?
    requires Next(s, step).registry.waits[w].result.Some?
    ensures Next(s, step).registry.waits[w].result == Some(Allow) ==> JustifiesAllow(s.registry.waits[w], step)
    ensures Next(s, step).registry.waits[w].result == Some(Deny) ==> JustifiesDeny(s.registry.waits[w], w, step)
  {
  }

  lemma NewAskIsOpen(s: State, step: Step, w: nat)
    requires |s.registry.waits| <= w < |Next(s, step).registry.waits|
    ensures Next(s, step).registry.waits[w].result.None?
  {
  }

  /** A settled ask was settled by one particular step of the run that justifies its decision. */
  lemma {:induction false} SettledHasCause(steps: seq<Step>, w: nat)
    requires w < |Reach(steps).registry.waits| && Reach(steps).registry.waits[w].result.Some?
    ensures exists i :: SettledBy(steps, w, Reach(steps).registry.waits[w].result.value, i)
  {
    var n := |steps| - 1;
    var s := Reach(steps[..n]);
    var d := Reach(steps).registry.waits[w].result.value;
    if w >= |s.registry.waits| {
      NewAskIsOpen(s, steps[n], w);
    } else if s.registry.waits[w].result.Some? {
      WaitsOnlySettle(s, steps[n], w);
      SettledHasCause(steps[..n], w);
      var i :| SettledBy(steps[..n], w, d, i);
      assert steps[..n][..i] == steps[..i];
      assert SettledBy(steps, w, d, i);
    } else {
      ReachSound(steps[..n]);
      SettlingStepJustifies(s, steps[n], w);
      assert SettledBy(steps, w, d, n);
    }
  }

  /** A call's bookkeeping: it belongs to a run, and its ask carries the run's session and the call's tool. */
  ghost predicate CallInv(s: State, c: nat)
    requires c < |s.calls|
  {
    var call := s.calls[c];
    && call.run < |s.runs|
    && (call.verdict.Parked? || call.verdict.Answered? ==>
          && call.verdict.wait < |s.registry.waits|
          && s.registry.waits[call.verdict.wait].session == s.runs[call.run].session
          && s.registry.waits[call.verdict.wait].tool == call.tool
          && s.registry.waits[call.verdict.wait].guarded == call.guarded
          && (call.verdict.Answered? ==> s.registry.waits[call.verdict.wait].result == Some(call.verdict.decision)))
    && GateFits(s.runs[call.run], call)
  }

  /** What the hook made of a call before anybody was asked, apart from a pre-approval. */
  ghost predicate GateFits(run: Run, call: Call) {
    var routine := run.mode == Auto && !call.guarded;
    && (call.verdict.Ungated? <==> run.mode == Bypass)
    && (call.verdict.Routine? <==> routine && !call.verdict.PreApproved?)
    && (call.verdict.NoChannel? <==> run.mode != Bypass && !routine && !call.verdict.PreApproved? && !run.channel)
  }

  lemma KeepsCallInv(s: State, step: Step, c: nat)
    requires forall b :: 0 <= b < |s.calls| ==> CallInv(s, b)
    requires c < |Next(s, step).calls|
    ensures CallInv(Next(s, step), c)
  {
    var t := Next(s, step);
    if c < |s.calls| {
      assert CallInv(s, c);
      var v := s.calls[c].verdict;
      if v.Parked? || v.Answered? { WaitsOnlySettle(s, step, v.wait); }
    }
  }

  lemma {:induction false} ReachCallInv(steps: seq<Step>)
    ensures forall c :: 0 <= c < |Reach(steps).calls| ==> CallInv(Reach(steps), c)
  {
    if steps != [] {
      var n := |steps| - 1;
      ReachCallInv(steps[..n]);
      forall c | 0 <= c < |Reach(steps).calls| ensures CallInv(Reach(steps), c) {
        KeepsCallInv(Reach(steps[..n]), steps[n], c);
      }
    }
  }

  predicate Gated(run: Run, guarded: bool) {
    run.mode != Bypass && !(run.mode == Auto && !guarded)
  }

  predicate Allowed(v: Verdict) {
    v.Ungated? || v.Routine? || v.PreApproved? || (v.Answered? && v.decision == Allow)
  }

  predicate Denied(v: Verdict) {
    v.NoChannel? || (v.Answered? && v.decision == Deny)
  }

  /** Approval accounting, over every interleaving of any number of runs: an allowed gated call is either the
      pre-approved re-ask, or its own ask (same session, same tool) was settled by a member allowing exactly
      that request in that session, or by relaxing that session to a mode that would not have asked. */
  lemma EveryAllowAccounted(steps: seq<Step>, c: nat)
    requires c < |Reach(steps).calls| && Allowed(Reach(steps).calls[c].verdict)
    ensures var s := Reach(steps);
            var call := s.calls[c];
            && call.run < |s.runs|
            && (Gated(s.runs[call.run], call.guarded) && call.verdict != PreApproved ==>
                  && call.verdict.Answered? && call.verdict.wait < |s.registry.waits|
                  && s.registry.waits[call.verdict.wait].session == s.runs[call.run].session
                  && s.registry.waits[call.verdict.wait].tool == call.tool
                  && exists i :: SettledBy(steps, call.verdict.wait, Allow, i))
  {
    ReachCallInv(steps);
    var s := Reach(steps);
    assert CallInv(s, c);
    if s.calls[c].verdict.Answered? { SettledHasCause(steps, s.calls[c].verdict.wait); }
  }

  /** And a call is denied only for want of anybody to ask, or by a member's deny, an abort or a timeout. */
  lemma EveryDenyAccounted(steps: seq<Step>, c: nat)
    requires c < |Reach(steps).calls| && Denied(Reach(steps).calls[c].verdict)
    ensures var s := Reach(steps);
            var call := s.calls[c];
            && call.run < |s.runs|
            && (call.verdict.NoChannel? ==> !s.runs[call.run].channel)
            && (call.verdict.Answered? ==> exists i :: SettledBy(steps, call.verdict.wait, Deny, i))
  {
    ReachCallInv(steps);
    var s := Reach(steps);
    assert CallInv(s, c);
    if s.calls[c].verdict.Answered? { SettledHasCause(steps, s.calls[c].verdict.wait); }
  }

  /** With nobody to ask, no gated call of a run is ever allowed, pre-approval apart: it fails closed. */
  lemma NoChannelFailsClosed(steps: seq<Step>, c: nat)
    requires c < |Reach(steps).calls| && Reach(steps).calls[c].run < |Reach(steps).runs|
    requires var s := Reach(steps);
             !s.runs[s.calls[c].run].channel && Gated(s.runs[s.calls[c].run], s.calls[c].guarded)
    ensures Reach(steps).calls[c].verdict.PreApproved? || Reach(steps).calls[c].verdict.NoChannel?
  {
    ChannelInv(steps);
    ReachCallInv(steps);
    assert CallInv(Reach(steps), c);
  }

  lemma {:induction false} ChannelInv(steps: seq<Step>)
    ensures forall c :: 0 <= c < |Reach(steps).calls| ==>
              var s := Reach(steps);
              var v := s.calls[c].verdict;
              s.calls[c].run < |s.runs| && (v.Parking? || v.Parked? || v.Answered? ==> s.runs[s.calls[c].run].channel)
  {
    if steps != [] {
      ChannelInv(steps[..|steps| - 1]);
    }
  }

  // ---------------------------------------------------------------- the one-shot pre-approval

  /** The first call of a run to the tool its resume was decided for. */
  ghost predicate FirstReAsk(s: State, c: nat)
    requires c < |s.calls|
  {
    var call := s.calls[c];
    && call.run < |s.runs| && s.runs[call.run].resumedFor == Some(call.tool)
    && forall b :: 0 <= b < c && s.calls[b].run == call.run ==> s.calls[b].tool != call.tool
  }

  ghost predicate AlreadyAsked(s: State, r: nat, tool: string) {
    exists b :: 0 <= b < |s.calls| && s.calls[b].run == r && s.calls[b].tool == tool
  }

  ghost predicate OneShotInv(s: State) {
    && (forall r :: 0 <= r < |s.runs| ==>
          s.runs[r].preApproved
          == if s.runs[r].resumedFor.Some? && s.runs[r].mode != Bypass && AlreadyAsked(s, r, s.runs[r].resumedFor.value)
             then None else s.runs[r].resumedFor)
    && (forall c :: 0 <= c < |s.calls| ==> s.calls[c].run < |s.runs|)
    && (forall c :: 0 <= c < |s.calls| ==>
          (s.calls[c].verdict.PreApproved? <==> s.runs[s.calls[c].run].mode != Bypass && FirstReAsk(s, c)))
  }

  lemma CallKeepsOneShot(s: State, r: nat, tool: string, guarded: bool)
    requires OneShotInv(s) && r < |s.runs|
    ensures OneShotInv(Next(s, CallTool(r, tool, guarded)))
  {
    var t := Next(s, CallTool(r, tool, guarded));
    var n := |s.calls|;
    assert t.calls[n].run == r && t.calls[n].tool == tool;
    forall q, x: string | 0 <= q < |s.runs|
      ensures AlreadyAsked(t, q, x) <==> AlreadyAsked(s, q, x) || (q == r && x == tool)
    {
      if AlreadyAsked(s, q, x) {
        var b :| 0 <= b < |s.calls| && s.calls[b].run == q && s.calls[b].tool == x;
        assert t.calls[b] == s.calls[b];
      }
    }
    forall c | 0 <= c < n
      ensures FirstReAsk(t, c) <==> FirstReAsk(s, c)
    {
      assert forall b :: 0 <= b <= c ==> t.calls[b] == s.calls[b];
    }
    assert FirstReAsk(t, n) <==> s.runs[r].resumedFor == Some(tool) && !AlreadyAsked(s, r, tool);
  }

  lemma SameShapeKeepsOneShot(s: State, t: State)
    requires OneShotInv(s) && s.runs <= t.runs && |t.calls| == |s.calls|
    requires forall r :: |s.runs| <= r < |t.runs| ==> t.runs[r].preApproved == t.runs[r].resumedFor
    requires forall b :: 0 <= b < |s.calls| ==> t.calls[b].run == s.calls[b].run && t.calls[b].tool == s.calls[b].tool
    requires forall b :: 0 <= b < |s.calls| ==> (t.calls[b].verdict.PreApproved? <==> s.calls[b].verdict.PreApproved?)
    ensures OneShotInv(t)
  {
    forall q, x: string
      ensures AlreadyAsked(t, q, x) <==> AlreadyAsked(s, q, x)
    {
    }
    forall c | 0 <= c < |s.calls|
      ensures FirstReAsk(t, c) <==> FirstReAsk(s, c)
    {
    }
  }

  lemma {:induction false} ReachOneShot(steps: seq<Step>)
    ensures OneShotInv(Reach(steps))
  {
    if steps != [] {
      var n := |steps| - 1;
      ReachOneShot(steps[..n]);
      var s := Reach(steps[..n]);
      match steps[n] {
        case CallTool(r, tool, guarded) => if r < |s.runs| { CallKeepsOneShot(s, r, tool, guarded); }
        case _ => SameShapeKeepsOneShot(s, Reach(steps));
      }
    }
  }

  /** A resume pre-approves exactly the first re-ask of the tool that was approved, and nothing else: over
      every interleaving a call is pre-approved if and only if it is that first re-ask (of a run whose mode
      gates at all), so a run has at most one such call. */
  lemma PreApprovalIsOneShot(steps: seq<Step>, c: nat)
    requires c < |Reach(steps).calls|
    ensures var s := Reach(steps);
            && s.calls[c].run < |s.runs|
            && (s.calls[c].verdict.PreApproved? <==> s.runs[s.calls[c].run].mode != Bypass && FirstReAsk(s, c))
    ensures forall b :: 0 <= b < |Reach(steps).calls| && b != c && Reach(steps).calls[b].run == Reach(steps).calls[c].run ==>
              !(Reach(steps).calls[b].verdict.PreApproved? && Reach(steps).calls[c].verdict.PreApproved?)
  {
    ReachOneShot(steps);
  }

  predicate WasAsked(v: Verdict) {
    v.Parking? || v.Parked? || v.Answered?
  }

  /** Which calls a member is asked about, exactly: those of a run that gates them (not in bypass mode, and in auto
      mode only the guarded ones) and has a channel, apart from the one re-ask its resume pre-approved; without
      a channel just those are refused, and nothing else is ever refused or held up by the hook. */
  lemma AskedIff(steps: seq<Step>, c: nat)
    requires c < |Reach(steps).calls|
    ensures var s := Reach(steps);
            && s.calls[c].run < |s.runs|
            && var call, run := s.calls[c], s.runs[s.calls[c].run];
            var asks := run.mode != Bypass && (run.mode == Auto ==> call.guarded) && !FirstReAsk(s, c);
            && (WasAsked(call.verdict) <==> asks && run.channel)
            && (call.verdict.NoChannel? <==> asks && !run.channel)
  {
    ReachCallInv(steps);
    ChannelInv(steps);
    PreApprovalIsOneShot(steps, c);
    assert CallInv(Reach(steps), c);
  }
}
