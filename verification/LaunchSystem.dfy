/** The guards in front of the activator: a pass queues a run for each of its launches, and both sides share one
    pending counter. */
module LaunchSystem {
  import opened Agents
  import opened Counting
  import opened LaunchGuards
  import A = Activator

  /** The guards and the activator share one pending counter. */
  datatype System = System(guards: State, runs: A.State)

  datatype Act =
    | OfferTo(event: Event, entries: Option<seq<Entry>>, subs: seq<Sub>, base: nat)   // session ids from `base` on are new
    | Other(step: A.Step, row: Option<Row>)     // anything but a launch; a run that starts stores its row

  ghost predicate Unused(s: A.State, base: nat) {
    && (forall j :: 0 <= j < |s.jobs| ==> s.jobs[j].session < base)
    && (forall x :: x in s.rows ==> x < base)
  }

  /** The activator queues a run for each launch of the pass, in order. */
  function EnqueueAll(s: A.State, ls: seq<Launch>, base: nat): A.State {
    if ls == [] then s
    else
      var l := ls[|ls| - 1];
      A.Next(EnqueueAll(s, ls[..|ls| - 1], base), A.Launch(AgentKey(l.event.workspace, l.agent), base + |ls| - 1))
  }

  function Drop(log: seq<Launch>, n: nat): seq<Launch> {
    if n <= |log| then log[n..] else []
  }

  ghost function Together(c: Config, s: System, act: Act): System {
    match act
    case OfferTo(event, entries, subs, base) =>
      if !Unused(s.runs, base) then s
      else
        var t := DoPass(c, s.guards, event, entries, subs);
        System(t, EnqueueAll(s.runs, Drop(t.log, |s.guards.log|), base))
    case Other(step, row) =>
      if step.Launch? then s
      else
        var runs := A.Next(s.runs, step);
        System(s.guards.(pending := runs.pending, rows := s.guards.rows + if row.Some? then {row.value} else {}), runs)
  }

  ghost function Both(c: Config, stored: A.Rows, acts: seq<Act>): System {
    if acts == [] then System(START, A.Start(stored))
    else Together(c, Both(c, stored, acts[..|acts| - 1]), acts[|acts| - 1])
  }

  ghost predicate SystemInv(c: Config, s: System) {
    && s.guards.pending == s.runs.pending && QueuesFit(c, s.guards)
    && forall key: AgentKey :: A.PendingInv(s.runs, key)
  }

  /** The activator's counter is the guards', and it is exact; session ids from `base` on are new. */
  ghost predicate Agrees(s: State, r: A.State, base: nat) {
    r.pending == s.pending && Unused(r, base) && forall key: AgentKey :: A.PendingInv(r, key)
  }

  lemma EnqueueOneAgrees(m: State, q: A.State, l: Launch, session: nat)
    requires Agrees(m, q, session)
    ensures Agrees(Commit(m, l), A.Next(q, A.Launch(AgentKey(l.event.workspace, l.agent), session)), session + 1)
  {
    var step := A.Launch(AgentKey(l.event.workspace, l.agent), session);
    forall key: AgentKey ensures A.PendingInv(A.Next(q, step), key) {
      assert A.PendingInv(q, key);
      A.StepKeepsPending(q, step, key);
    }
  }

  lemma {:induction false} EnqueueAllAgrees(c: Config, event: Event, s: State, t: State, runs: A.State, ls: seq<Launch>, base: nat)
    requires Extends(c, event, s, t, ls) && Agrees(s, runs, base)
    ensures Agrees(t, EnqueueAll(runs, ls, base), base + |ls|)
    decreases |ls|
  {
    if ls != [] {
      var n := |ls| - 1;
      var m: State :| Extends(c, event, s, m, ls[..n]) && Guarded(c, m, ls[n]) && t == Commit(m, ls[n]);
      EnqueueAllAgrees(c, event, s, m, runs, ls[..n], base);
      EnqueueOneAgrees(m, EnqueueAll(runs, ls[..n], base), ls[n], base + n);
    }
  }

  lemma OtherKeepsFit(c: Config, s: A.State, step: A.Step)
    requires !step.Launch? && forall k: AgentKey :: PendingOf(s.pending, k) <= c.maxQueued
    ensures forall k: AgentKey :: PendingOf(A.Next(s, step).pending, k) <= c.maxQueued
  {
    forall k: AgentKey ensures PendingOf(A.Next(s, step).pending, k) <= c.maxQueued {
      assert PendingOf(s.pending, k) <= c.maxQueued;
    }
  }

  lemma TogetherKeepsInv(c: Config, s: System, act: Act)
    requires SystemInv(c, s)
    ensures SystemInv(c, Together(c, s, act))
  {
    match act {
      case OfferTo(event, entries, subs, base) =>
        if Unused(s.runs, base) {
          var t := DoPass(c, s.guards, event, entries, subs);
          var ls := PassExtends(c, s.guards, event, entries, subs);
          assert Drop(t.log, |s.guards.log|) == ls;
          EnqueueAllAgrees(c, event, s.guards, t, s.runs, ls, base);
          ExtendsKeepsQueues(c, event, s.guards, t, ls);
        }
      case Other(step, row) =>
        if !step.Launch? {
          forall k: AgentKey ensures PendingOf(s.runs.pending, k) <= c.maxQueued {
            assert PendingOf(s.guards.pending, k) <= c.maxQueued;
          }
          OtherKeepsFit(c, s.runs, step);
          forall key: AgentKey ensures A.PendingInv(A.Next(s.runs, step), key) {
            assert A.PendingInv(s.runs, key);
            A.StepKeepsPending(s.runs, step, key);
          }
        }
    }
  }

  /** The guards and the activator together: whatever the runs do and however they end, an agent never has more
      unsettled activations than the maximum. */
  lemma {:induction false} UnsettledRunsAreBounded(c: Config, stored: A.Rows, acts: seq<Act>, key: AgentKey)
    ensures SystemInv(c, Both(c, stored, acts))
    ensures Count(Both(c, stored, acts).runs.jobs, A.OpenFor(key)) <= c.maxQueued
  {
    if acts != [] {
      UnsettledRunsAreBounded(c, stored, acts[..|acts| - 1], key);
      TogetherKeepsInv(c, Both(c, stored, acts[..|acts| - 1]), acts[|acts| - 1]);
    }
    var s := Both(c, stored, acts);
    assert A.PendingInv(s.runs, key);
    assert PendingOf(s.guards.pending, key) <= c.maxQueued;
  }
}
