/** The agent activator: one promise chain per agent, the life of a run from its session row to its revoked
    credential, and a member's stop.  Each `await` ends an atomic piece, so the activator is a class whose
    methods are those pieces and a transition system over the same state whose laws hold for every
    interleaving and for every outcome of the turns and the stores. */
module Activator {
  import opened Agents
  import opened Counting

  datatype Option<+T> = None | Some(value: T)

  /** Sessions are only ever compared. */
  type SessionId = nat

  datatype Outcome = Cancelled | Suspended | Completed | Failed

  datatype Kind = Activation | Continuation

  /** Where a queued run has got to; each phase but the last awaits something. */
  datatype Phase =
    | Waiting                       // for the chain in front of it
    | Opening                       // its session row
    | Minting                       // its credential
    | Working                       // its turn, and the halt checkpoint a budget stop owes
    | Settling(verdict: Outcome)    // the session status, in the body of the try
    | Rescuing(verdict: Outcome)    // the session status, in the catch
    | Gathering(verdict: Outcome)   // the evidence of its terminal report
    | Revoking                      // the revocation of its credential
    | Closing                       // the chain's own catch and finally
    | Settled

  /** `prev` is the run its chain ended in when it was queued. */
  datatype Job = Job(key: AgentKey, session: SessionId, kind: Kind, prev: Option<nat>, phase: Phase, aborted: bool)

  /** An entry of the live map: the workspace travels with the run whose controller it is. */
  datatype Live = Live(workspace: Workspace, job: nat)

  /** What the outside world is told or asked, in order. */
  datatype Fact =
    | Started(job: nat)
    | Minted(job: nat)
    | Reported(job: nat, outcome: Outcome)
    | RevokeAsked(job: nat)

  /** How an await ends.  Only a turn tells its three ways of returning apart. */
  datatype Reply = Returned | ReturnedWaiting | ReturnedHalted | Threw

  datatype State = State(
    jobs: seq<Job>, chains: map<AgentKey, nat>, pending: map<AgentKey, nat>, rows: Rows,
    controllers: map<SessionId, Live>, stopped: set<SessionId>, facts: seq<Fact>)

  /** The sessions in the store, each with the agent it belongs to. */
  type Rows = map<SessionId, AgentKey>

  /** A process starts with whatever sessions earlier processes stored, and nothing in memory. */
  function Start(stored: Rows): State {
    State([], map[], map[], stored, map[], {}, [])
  }

  function Tail(chains: map<AgentKey, nat>, key: AgentKey): Option<nat> {
    if key in chains then Some(chains[key]) else None
  }

  predicate IsLive(p: Phase) {
    p.Working? || p.Settling? || p.Rescuing? || p.Gathering?
  }

  // ---------------------------------------------------------------- the atomic pieces, on values

  function DoEnqueue(s: State, key: AgentKey, session: SessionId, kind: Kind): State {
    s.(jobs := s.jobs + [Job(key, session, kind, Tail(s.chains, key), Waiting, false)],
       chains := s.chains[key := |s.jobs|],
       pending := if kind.Activation? then s.pending[key := PendingOf(s.pending, key) + 1] else s.pending)
  }

  predicate StopReaches(s: State, workspace: Workspace, session: SessionId) {
    session in s.controllers && s.controllers[session].workspace == workspace
  }

  function DoStop(s: State, workspace: Workspace, session: SessionId): State {
    if !StopReaches(s, workspace, session) then s
    else
      var j := s.controllers[session].job;
      s.(stopped := s.stopped + {session},
         jobs := if j < |s.jobs| then s.jobs[j := s.jobs[j].(aborted := true)] else s.jobs)
  }

  predicate Ready(s: State, j: nat)
    requires j < |s.jobs|
  {
    match s.jobs[j].prev
    case None => true
    case Some(p) => p < |s.jobs| && s.jobs[p].phase.Settled?
  }

  function Verdict(stopped: bool, reply: Reply): Outcome {
    if stopped then Cancelled
    else if reply.Threw? then Failed
    else if reply.Returned? then Completed
    else Suspended
  }

  /** Where a run goes when the thing it awaits ends with `reply`.  Minting is outside the try: when it throws
      nothing settles the run.  The stop verdict is read when the turn ends, before the session status is
      written; a status write that throws inside the try lands in the catch, which reads it again. */
  function NextPhase(s: State, j: nat, reply: Reply): Phase
    requires j < |s.jobs|
  {
    var stopped := s.jobs[j].session in s.stopped;
    match s.jobs[j].phase
    case Waiting => if Ready(s, j) then Opening else Waiting
    case Opening => if reply.Threw? then Closing else Minting
    case Minting => if reply.Threw? then Closing else Working
    case Working => if reply.Threw? then Rescuing(Verdict(stopped, reply)) else Settling(Verdict(stopped, reply))
    case Settling(v) => if reply.Threw? then Rescuing(Verdict(stopped, Threw)) else Gathering(v)
    case Rescuing(v) => Gathering(v)
    case Gathering(_) => Revoking
    case Revoking => Closing
    case Closing => Settled
    case Settled => Settled
  }

  /** An activation writes its session row; a continuation flips an existing one back to running. */
  function NextRows(s: State, job: Job, reply: Reply): Rows {
    if job.phase.Opening? && !reply.Threw? && job.kind.Activation? then s.rows[job.session := job.key] else s.rows
  }

  function NextControllers(s: State, j: nat, job: Job, reply: Reply): map<SessionId, Live> {
    if job.phase.Minting? && !reply.Threw? then s.controllers[job.session := Live(job.key.workspace, j)]
    else if job.phase.Gathering? then s.controllers - {job.session}
    else s.controllers
  }

  function NextFacts(j: nat, job: Job, reply: Reply): seq<Fact> {
    if job.phase.Opening? && !reply.Threw? then [Started(j)]
    else if job.phase.Minting? && !reply.Threw? then [Minted(j)]
    else if job.phase.Gathering? then [Reported(j, job.phase.verdict), RevokeAsked(j)]
    else []
  }

  function Less(n: nat): nat {
    if n == 0 then 0 else n - 1
  }

  function NextPending(s: State, job: Job): map<AgentKey, nat> {
    if job.phase.Closing? && job.kind.Activation? then s.pending[job.key := Less(PendingOf(s.pending, job.key))]
    else s.pending
  }

  /** The next atomic piece of run `j`. */
  function Advance(s: State, j: nat, reply: Reply): State
    requires j < |s.jobs|
  {
    var job := s.jobs[j];
    State(s.jobs[j := job.(phase := NextPhase(s, j, reply))], s.chains, NextPending(s, job), NextRows(s, job, reply),
          NextControllers(s, j, job, reply),
          if job.phase.Gathering? then s.stopped - {job.session} else s.stopped,
          s.facts + NextFacts(j, job, reply))
  }

  // ---------------------------------------------------------------- the activator

  class AgentActivator {
    var jobs: seq<Job>
    var chains: map<AgentKey, nat>
    var pending: map<AgentKey, nat>
    var rows: Rows
    var controllers: map<SessionId, Live>
    var stopped: set<SessionId>
    var facts: seq<Fact>

    ghost function View(): State reads this {
      State(jobs, chains, pending, rows, controllers, stopped, facts)
    }

    constructor (stored: Rows)
      ensures View() == Start(stored)
    {
      jobs, chains, pending, rows, controllers, stopped, facts := [], map[], map[], stored, map[], {}, [];
    }

    method EnqueueRun(key: AgentKey, session: SessionId)
      modifies this`jobs, this`chains, this`pending
      ensures View() == DoEnqueue(old(View()), key, session, Activation)
    {
      pending := pending[key := PendingOf(pending, key) + 1];
      var prev := Tail(chains, key);
      chains := chains[key := |jobs|];
      jobs := jobs + [Job(key, session, Activation, prev, Waiting, false)];
    }

    method EnqueueContinuation(key: AgentKey, session: SessionId)
      modifies this`jobs, this`chains
      ensures View() == DoEnqueue(old(View()), key, session, Continuation)
    {
      var prev := Tail(chains, key);
      chains := chains[key := |jobs|];
      jobs := jobs + [Job(key, session, Continuation, prev, Waiting, false)];
    }

    /** Abort the session's live run.  A run of another workspace answers like one that is not live. */
    method Stop(workspace: Workspace, session: SessionId) returns (found: bool)
      modifies this`stopped, this`jobs
      ensures found <==> StopReaches(old(View()), workspace, session)
      ensures View() == DoStop(old(View()), workspace, session)
      ensures Inv(old(View())) ==> Inv(View())
    {
      if Inv(View()) { StopKeepsInv(View(), workspace, session); }
      if session !in controllers || controllers[session].workspace != workspace { return false; }
      stopped := stopped + {session};
      var j := controllers[session].job;
      if j < |jobs| { jobs := jobs[j := jobs[j].(aborted := true)]; }
      return true;
    }

    /** The end of a minted run: the terminal report, then the finally up to its one await. */
    method ReportAndRelease(j: nat)
      requires j < |jobs| && jobs[j].phase.Gathering?
      modifies this`facts, this`controllers, this`stopped, this`jobs
      ensures View() == Advance(old(View()), j, Returned)
    {
      var session := jobs[j].session;
      facts := facts + [Reported(j, jobs[j].phase.verdict), RevokeAsked(j)];
      controllers := controllers - {session};
      stopped := stopped - {session};
      jobs := jobs[j := jobs[j].(phase := Revoking)];
    }

    /** The await run `j` is parked in ends with `reply`: its next piece runs, up to its next await. */
    method Resume(j: nat, reply: Reply)
      requires j < |jobs|
      requires jobs[j].phase.Waiting? ==> Ready(View(), j)
      modifies this
      ensures View() == Advance(old(View()), j, reply)
      ensures Inv(old(View())) ==> Inv(View())
    {
      if Inv(View()) { StepKeepsInv(View(), Go(j, reply)); }
      RunPiece(j, reply);
    }

    /** The piece itself. */
    method RunPiece(j: nat, reply: Reply)
      requires j < |jobs|
      requires jobs[j].phase.Waiting? ==> Ready(View(), j)
      modifies this
      ensures View() == Advance(old(View()), j, reply)
    {
      if jobs[j].phase.Gathering? { ReportAndRelease(j); return; }
      var session, key, threw := jobs[j].session, jobs[j].key, reply.Threw?;
      var p := Closing;
      match jobs[j].phase {
        case Waiting => p := Opening;
        case Opening =>
          if !threw {
            if jobs[j].kind.Activation? { rows := rows[session := key]; }
            facts := facts + [Started(j)];
            p := Minting;
          }
        case Minting =>
          if !threw {
            controllers := controllers[session := Live(key.workspace, j)];
            facts := facts + [Minted(j)];
            p := Working;
          }
        case Working =>
          var verdict := Verdict(session in stopped, reply);
          p := if threw then Rescuing(verdict) else Settling(verdict);
        case Settling(v) => p := if threw then Rescuing(Verdict(session in stopped, Threw)) else Gathering(v);
        case Rescuing(v) => p := Gathering(v);
        case Revoking => p := Closing;
        case Closing =>
          if jobs[j].kind.Activation? { pending := pending[key := Less(PendingOf(pending, key))]; }
          p := Settled;
        case Settled => p := Settled;
      }
      jobs := jobs[j := jobs[j].(phase := p)];
    }
  }

  // ---------------------------------------------------------------- runs of the machine

  datatype Step =
    | Launch(key: AgentKey, session: SessionId)     // onEvent, onSubscriptions or activateDirect: a new session id
    | Continue(session: SessionId)                  // resumeApproval or resumeInterrupted of an existing session
    | Stop(workspace: Workspace, session: SessionId)
    | Go(job: nat, reply: Reply)

  predicate Fresh(s: State, session: SessionId) {
    session !in s.rows && forall j :: 0 <= j < |s.jobs| ==> s.jobs[j].session != session
  }

  /** A disabled step changes nothing. */
  function Next(s: State, step: Step): State {
    match step
    case Launch(key, session) => if Fresh(s, session) then DoEnqueue(s, key, session, Activation) else s
    case Continue(session) => if session in s.rows then DoEnqueue(s, s.rows[session], session, Continuation) else s
    case Stop(workspace, session) => DoStop(s, workspace, session)
    case Go(j, reply) => if j < |s.jobs| then Advance(s, j, reply) else s
  }

  function Reach(stored: Rows, steps: seq<Step>): State {
    if steps == [] then Start(stored) else Next(Reach(stored, steps[..|steps| - 1]), steps[|steps| - 1])
  }

  lemma ReachPush(stored: Rows, steps: seq<Step>, step: Step)
    ensures Reach(stored, steps + [step]) == Next(Reach(stored, steps), step)
  {
    assert (steps + [step])[..|steps|] == steps;
  }

  // ---------------------------------------------------------------- the chains: first in, first out

  /** `chains` holds each agent's latest run, and `prev` links it to the agent's run before it. */
  ghost predicate LastBefore(jobs: seq<Job>, n: nat, key: AgentKey, p: Option<nat>)
    requires n <= |jobs|
  {
    match p
    case None => forall i :: 0 <= i < n ==> jobs[i].key != key
    case Some(q) => q < n && jobs[q].key == key && forall i :: q < i < n ==> jobs[i].key != key
  }

  ghost predicate ChainInv(s: State) {
    && (forall key: AgentKey :: LastBefore(s.jobs, |s.jobs|, key, Tail(s.chains, key)))
    && (forall j :: 0 <= j < |s.jobs| ==> LastBefore(s.jobs, j, s.jobs[j].key, s.jobs[j].prev))
    && (forall i, j :: 0 <= i < j < |s.jobs| && s.jobs[i].key == s.jobs[j].key && !s.jobs[j].phase.Waiting? ==>
          s.jobs[i].phase.Settled?)
  }

  /** A step changes at most one run, and of that run only its phase and abort flag. */
  ghost predicate Moves(s: State, t: State, j: nat) {
    && j < |s.jobs| == |t.jobs|
    && t.jobs[j].key == s.jobs[j].key && t.jobs[j].prev == s.jobs[j].prev
    && t.jobs[j].session == s.jobs[j].session && t.jobs[j].kind == s.jobs[j].kind
    && (forall i :: 0 <= i < |s.jobs| && i != j ==> t.jobs[i] == s.jobs[i])
  }

  lemma EnqueueKeepsChain(s: State, key: AgentKey, session: SessionId, kind: Kind)
    requires ChainInv(s)
    ensures ChainInv(DoEnqueue(s, key, session, kind))
  {
    var t := DoEnqueue(s, key, session, kind);
    var n := |s.jobs|;
    assert forall j :: 0 <= j < n ==> t.jobs[j] == s.jobs[j];
    forall k: AgentKey ensures LastBefore(t.jobs, n + 1, k, Tail(t.chains, k)) {
      assert LastBefore(s.jobs, n, k, Tail(s.chains, k));
    }
    forall j | 0 <= j <= n ensures LastBefore(t.jobs, j, t.jobs[j].key, t.jobs[j].prev) {
      if j < n { assert LastBefore(s.jobs, j, s.jobs[j].key, s.jobs[j].prev); }
      else { assert LastBefore(s.jobs, n, key, Tail(s.chains, key)); }
    }
  }

  /** Every earlier run of the agent has settled once the one right before has. */
  lemma ReadyMeansFirst(s: State, i: nat, j: nat)
    requires ChainInv(s) && i < j < |s.jobs| && s.jobs[i].key == s.jobs[j].key && Ready(s, j)
    ensures s.jobs[i].phase.Settled?
  {
    assert LastBefore(s.jobs, j, s.jobs[j].key, s.jobs[j].prev);
  }

  lemma MoveKeepsChain(s: State, t: State, j: nat)
    requires ChainInv(s) && Moves(s, t, j) && t.chains == s.chains
    requires s.jobs[j].phase.Settled? ==> t.jobs[j].phase == s.jobs[j].phase
    requires !t.jobs[j].phase.Waiting? ==> !s.jobs[j].phase.Waiting? || Ready(s, j)
    ensures ChainInv(t)
  {
    forall k: AgentKey ensures LastBefore(t.jobs, |t.jobs|, k, Tail(t.chains, k)) {
      assert LastBefore(s.jobs, |s.jobs|, k, Tail(s.chains, k));
    }
    forall b | 0 <= b < |t.jobs| ensures LastBefore(t.jobs, b, t.jobs[b].key, t.jobs[b].prev) {
      assert LastBefore(s.jobs, b, s.jobs[b].key, s.jobs[b].prev);
    }
    forall a, b | 0 <= a < b < |t.jobs| && t.jobs[a].key == t.jobs[b].key && !t.jobs[b].phase.Waiting?
      ensures t.jobs[a].phase.Settled?
    {
      if b == j && Ready(s, j) { ReadyMeansFirst(s, a, j); }
    }
  }

  // ---------------------------------------------------------------- sessions and the live map

  /** A session belongs to one agent. */
  ghost predicate HomeInv(s: State) {
    && (forall i, j :: 0 <= i < j < |s.jobs| && s.jobs[i].session == s.jobs[j].session ==> s.jobs[i].key == s.jobs[j].key)
    && (forall j :: 0 <= j < |s.jobs| && s.jobs[j].session in s.rows ==> s.rows[s.jobs[j].session] == s.jobs[j].key)
  }

  ghost predicate Listed(s: State, j: int) {
    && 0 <= j < |s.jobs| && s.jobs[j].session in s.controllers
    && s.controllers[s.jobs[j].session] == Live(s.jobs[j].key.workspace, j)
  }

  /** The live map lists exactly the live runs, and only they are marked stopped. */
  ghost predicate LinkInv(s: State) {
    && (forall j :: 0 <= j < |s.jobs| && IsLive(s.jobs[j].phase) ==> Listed(s, j))
    && (forall x :: x in s.controllers ==>
          && s.controllers[x].job < |s.jobs|
          && s.jobs[s.controllers[x].job].session == x
          && IsLive(s.jobs[s.controllers[x].job].phase))
    && s.stopped <= s.controllers.Keys
  }

  lemma EnqueueKeepsLinks(s: State, key: AgentKey, session: SessionId, kind: Kind)
    requires HomeInv(s) && LinkInv(s)
    requires Fresh(s, session) || (session in s.rows && s.rows[session] == key)
    ensures HomeInv(DoEnqueue(s, key, session, kind)) && LinkInv(DoEnqueue(s, key, session, kind))
  {
    var t := DoEnqueue(s, key, session, kind);
    forall j | 0 <= j < |t.jobs| && IsLive(t.jobs[j].phase) ensures Listed(t, j) {
      assert Listed(s, j);
    }
  }

  lemma OneLivePerSession(s: State, i: nat, j: nat)
    requires HomeInv(s) && ChainInv(s) && i < |s.jobs| && j < |s.jobs| && i != j
    requires s.jobs[i].session == s.jobs[j].session && IsLive(s.jobs[i].phase)
    ensures s.jobs[j].phase.Waiting? || s.jobs[j].phase.Settled?
  {
    assert s.jobs[i].key == s.jobs[j].key;
  }

  lemma AdvanceKeepsHomes(s: State, j: nat, reply: Reply)
    requires HomeInv(s) && j < |s.jobs|
    ensures HomeInv(Advance(s, j, reply))
  {
    var t := Advance(s, j, reply);
    assert forall i :: 0 <= i < |s.jobs| ==> t.jobs[i].session == s.jobs[i].session && t.jobs[i].key == s.jobs[i].key;
  }

  lemma AdvanceKeepsListed(s: State, j: nat, reply: Reply, i: nat)
    requires LinkInv(s) && HomeInv(s) && ChainInv(s) && j < |s.jobs|
    requires i < |s.jobs| && IsLive(Advance(s, j, reply).jobs[i].phase)
    ensures Listed(Advance(s, j, reply), i)
  {
    var t := Advance(s, j, reply);
    if i != j {
      assert t.jobs[i] == s.jobs[i] && Listed(s, i);
      if s.jobs[i].session == s.jobs[j].session { OneLivePerSession(s, i, j); }
    } else if IsLive(s.jobs[j].phase) {
      assert Listed(s, j);
    }
  }

  lemma AdvanceKeepsLinks(s: State, j: nat, reply: Reply)
    requires LinkInv(s) && HomeInv(s) && ChainInv(s) && j < |s.jobs|
    ensures LinkInv(Advance(s, j, reply))
  {
    var t := Advance(s, j, reply);
    forall i | 0 <= i < |t.jobs| && IsLive(t.jobs[i].phase) ensures Listed(t, i) {
      AdvanceKeepsListed(s, j, reply, i);
    }
    forall x | x in t.controllers
      ensures t.controllers[x].job < |t.jobs| && t.jobs[t.controllers[x].job].session == x
      ensures IsLive(t.jobs[t.controllers[x].job].phase)
    {
      if t.controllers[x].job != j { assert x in s.controllers; }
    }
  }

  lemma StopKeepsLinks(s: State, w: Workspace, x: SessionId)
    requires LinkInv(s)
    ensures LinkInv(DoStop(s, w, x))
  {
    var t := DoStop(s, w, x);
    forall j | 0 <= j < |t.jobs| && IsLive(t.jobs[j].phase) ensures Listed(t, j) {
      assert Listed(s, j);
    }
  }

  lemma StopKeepsInv(s: State, w: Workspace, x: SessionId)
    requires Inv(s)
    ensures Inv(DoStop(s, w, x))
  {
    StopKeepsLinks(s, w, x);
    if StopReaches(s, w, x) { MoveKeepsChain(s, DoStop(s, w, x), s.controllers[x].job); }
  }

  ghost predicate Inv(s: State) {
    ChainInv(s) && HomeInv(s) && LinkInv(s)
  }

  lemma StepKeepsInv(s: State, step: Step)
    requires Inv(s)
    ensures Inv(Next(s, step))
  {
    var t := Next(s, step);
    match step {
      case Launch(key, session) =>
        if Fresh(s, session) {
          EnqueueKeepsChain(s, key, session, Activation);
          EnqueueKeepsLinks(s, key, session, Activation);
        }
      case Continue(session) =>
        if session in s.rows {
          EnqueueKeepsChain(s, s.rows[session], session, Continuation);
          EnqueueKeepsLinks(s, s.rows[session], session, Continuation);
        }
      case Stop(w, session) => StopKeepsInv(s, w, session);
      case Go(j, reply) =>
        if j < |s.jobs| {
          MoveKeepsChain(s, t, j);
          AdvanceKeepsHomes(s, j, reply);
          AdvanceKeepsLinks(s, j, reply);
        }
    }
  }

  lemma {:induction false} ReachInv(stored: Rows, steps: seq<Step>)
    ensures Inv(Reach(stored, steps))
  {
    if steps != [] {
      ReachInv(stored, steps[..|steps| - 1]);
      StepKeepsInv(Reach(stored, steps[..|steps| - 1]), steps[|steps| - 1]);
    }
  }

  /** The runs of one agent go one at a time, in the order they were queued, activations and continuations
      alike: by the time a run has started, every run queued for that agent before it has settled. */
  lemma RunsGoInOrder(stored: Rows, steps: seq<Step>, i: nat, j: nat)
    requires i < j < |Reach(stored, steps).jobs| && Reach(stored, steps).jobs[i].key == Reach(stored, steps).jobs[j].key
    ensures !Reach(stored, steps).jobs[j].phase.Waiting? ==> Reach(stored, steps).jobs[i].phase.Settled?
  {
    ReachInv(stored, steps);
  }

  lemma StepKeepsStored(s: State, step: Step, x: SessionId)
    requires HomeInv(s) && x in s.rows
    ensures x in Next(s, step).rows && Next(s, step).rows[x] == s.rows[x]
  {
  }

  /** Sessions an earlier process stored keep their agent, and a continuation of one is queued behind that
      agent's chain whenever it is asked for. */
  lemma {:induction false} StoredSessionsContinue(stored: Rows, steps: seq<Step>, x: SessionId)
    requires x in stored
    ensures var s := Reach(stored, steps);
            && x in s.rows && s.rows[x] == stored[x]
            && Next(s, Continue(x)).jobs
               == s.jobs + [Job(stored[x], x, Continuation, Tail(s.chains, stored[x]), Waiting, false)]
  {
    if steps != [] {
      var n := |steps| - 1;
      StoredSessionsContinue(stored, steps[..n], x);
      ReachInv(stored, steps[..n]);
      StepKeepsStored(Reach(stored, steps[..n]), steps[n], x);
    }
  }

  /** Run `j` is an activation of this session, and reported its start. */
  ghost predicate StartedHere(s: State, j: int, x: SessionId) {
    0 <= j < |s.jobs| && s.jobs[j].kind.Activation? && s.jobs[j].session == x && Started(j) in s.facts
  }

  ghost predicate RowsFit(s: State, stored: Rows) {
    forall x :: x in s.rows <==> x in stored || exists j :: StartedHere(s, j, x)
  }

  /** A step that reports no start leaves the stored sessions as they are. */
  lemma QuietStepKeepsRows(s: State, t: State, stored: Rows)
    requires RowsFit(s, stored) && t.rows == s.rows && |s.jobs| <= |t.jobs|
    requires forall i :: 0 <= i < |s.jobs| ==> t.jobs[i].kind == s.jobs[i].kind && t.jobs[i].session == s.jobs[i].session
    requires forall i: nat :: Started(i) in t.facts <==> Started(i) in s.facts
    requires forall i: nat :: Started(i) in s.facts ==> i < |s.jobs|
    ensures RowsFit(t, stored)
  {
    forall x ensures x in t.rows <==> x in stored || exists j :: StartedHere(t, j, x) {
      if j :| StartedHere(s, j, x) { assert StartedHere(t, j, x); }
      if j :| StartedHere(t, j, x) { assert StartedHere(s, j, x); }
    }
  }

  lemma StartKeepsRows(s: State, j: nat, reply: Reply, stored: Rows)
    requires RowsFit(s, stored) && j < |s.jobs| && s.jobs[j].phase.Opening? && !reply.Threw?
    ensures RowsFit(Advance(s, j, reply), stored)
  {
    var t := Advance(s, j, reply);
    forall x ensures x in t.rows <==> x in stored || exists i :: StartedHere(t, i, x) {
      if i :| StartedHere(s, i, x) { assert StartedHere(t, i, x); }
      if i :| StartedHere(t, i, x) { assert i == j || StartedHere(s, i, x); }
      if x in t.rows && x !in s.rows { assert StartedHere(t, j, x); }
    }
  }

  ghost predicate StartsInRange(s: State) {
    forall i: nat :: Started(i) in s.facts ==> i < |s.jobs|
  }

  lemma StopKeepsRows(s: State, w: Workspace, x: SessionId, stored: Rows)
    requires RowsFit(s, stored) && StartsInRange(s)
    ensures RowsFit(DoStop(s, w, x), stored) && StartsInRange(DoStop(s, w, x))
  {
    QuietStepKeepsRows(s, DoStop(s, w, x), stored);
  }

  lemma StepKeepsRows(s: State, step: Step, stored: Rows)
    requires RowsFit(s, stored) && StartsInRange(s)
    ensures RowsFit(Next(s, step), stored) && StartsInRange(Next(s, step))
  {
    match step {
      case Launch(_, _) => QuietStepKeepsRows(s, Next(s, step), stored);
      case Continue(_) => QuietStepKeepsRows(s, Next(s, step), stored);
      case Stop(w, x) => StopKeepsRows(s, w, x, stored);
      case Go(j, reply) =>
        if j < |s.jobs| {
          if s.jobs[j].phase.Opening? && !reply.Threw? {
            StartKeepsRows(s, j, reply, stored);
          } else {
            QuietStepKeepsRows(s, Next(s, step), stored);
          }
        }
    }
  }

  lemma {:induction false} ReachRows(stored: Rows, steps: seq<Step>)
    ensures RowsFit(Reach(stored, steps), stored) && StartsInRange(Reach(stored, steps))
  {
    if steps != [] {
      ReachRows(stored, steps[..|steps| - 1]);
      StepKeepsRows(Reach(stored, steps[..|steps| - 1]), steps[|steps| - 1], stored);
    }
  }

  /** The store holds just the sessions it held before and those of the activations that reported their start, so a
      run that was reported started can be continued. */
  lemma StartedRunsAreStored(stored: Rows, steps: seq<Step>, x: SessionId)
    ensures x in Reach(stored, steps).rows <==> x in stored || exists j :: StartedHere(Reach(stored, steps), j, x)
  {
    ReachRows(stored, steps);
  }

  /** The live map lists exactly the live runs, at most one for a session, each with its own workspace; and
      only live runs are ever marked stopped. */
  lemma LiveMapIsExact(stored: Rows, steps: seq<Step>, x: SessionId, j: nat)
    requires j < |Reach(stored, steps).jobs|
    ensures var s := Reach(stored, steps);
            && (s.jobs[j].session == x && IsLive(s.jobs[j].phase) <==> x in s.controllers && s.controllers[x].job == j)
            && (x in s.controllers && s.controllers[x].job == j ==> s.controllers[x].workspace == s.jobs[j].key.workspace)
            && (x in s.stopped ==> x in s.controllers)
  {
    ReachInv(stored, steps);
  }

  // ---------------------------------------------------------------- the pending counter

  /** An agent's activations that have not settled. */
  function OpenFor(key: AgentKey): Job -> bool {
    (d: Job) => d.key == key && d.kind.Activation? && !d.phase.Settled?
  }

  ghost predicate PendingInv(s: State, key: AgentKey) {
    PendingOf(s.pending, key) == Count(s.jobs, OpenFor(key))
  }

  lemma AdvanceKeepsPending(s: State, j: nat, reply: Reply, key: AgentKey)
    requires j < |s.jobs| && PendingInv(s, key)
    ensures PendingInv(Advance(s, j, reply), key)
  {
    CountUpdate(s.jobs, j, s.jobs[j].(phase := NextPhase(s, j, reply)), OpenFor(key));
  }

  lemma StepKeepsPending(s: State, step: Step, key: AgentKey)
    requires PendingInv(s, key)
    ensures PendingInv(Next(s, step), key)
  {
    match step {
      case Launch(k, session) => CountPush(s.jobs, Job(k, session, Activation, Tail(s.chains, k), Waiting, false), OpenFor(key));
      case Continue(x) =>
        if x in s.rows {
          CountPush(s.jobs, Job(s.rows[x], x, Continuation, Tail(s.chains, s.rows[x]), Waiting, false), OpenFor(key));
        }
      case Stop(w, x) =>
        if StopReaches(s, w, x) && s.controllers[x].job < |s.jobs| {
          var j := s.controllers[x].job;
          CountUpdate(s.jobs, j, s.jobs[j].(aborted := true), OpenFor(key));
        }
      case Go(j, reply) =>
        if j < |s.jobs| { AdvanceKeepsPending(s, j, reply, key); }
    }
  }

  /** The counter backpressure reads is exact: it is the number of the agent's unsettled activations. */
  lemma {:induction false} PendingIsExact(stored: Rows, steps: seq<Step>, key: AgentKey)
    ensures PendingOf(Reach(stored, steps).pending, key) == Count(Reach(stored, steps).jobs, OpenFor(key))
  {
    if steps != [] {
      PendingIsExact(stored, steps[..|steps| - 1], key);
      StepKeepsPending(Reach(stored, steps[..|steps| - 1]), steps[|steps| - 1], key);
    }
  }

  /** So the clamp at zero never fires: an activation about to be uncounted is still counted. */
  lemma ClampNeverFires(stored: Rows, steps: seq<Step>, j: nat)
    requires j < |Reach(stored, steps).jobs| && Reach(stored, steps).jobs[j].kind.Activation? && Reach(stored, steps).jobs[j].phase.Closing?
    ensures PendingOf(Reach(stored, steps).pending, Reach(stored, steps).jobs[j].key) >= 1
  {
    var s := Reach(stored, steps);
    var key := s.jobs[j].key;
    PendingIsExact(stored, steps, key);
    CountUpdate(s.jobs, j, s.jobs[j].(phase := Settled), OpenFor(key));
  }

  // ---------------------------------------------------------------- one report, one revocation

  /** How often run `j` was started, given a credential, reported, and had its credential revoked. */
  datatype Tally = Tally(starts: nat, mints: nat, reports: nat, revokes: nat)

  function Add(t: Tally, f: Fact): Tally {
    match f
    case Started(_) => t.(starts := t.starts + 1)
    case Minted(_) => t.(mints := t.mints + 1)
    case Reported(_, _) => t.(reports := t.reports + 1)
    case RevokeAsked(_) => t.(revokes := t.revokes + 1)
  }

  function TallyOf(facts: seq<Fact>, j: nat): Tally {
    if facts == [] then Tally(0, 0, 0, 0)
    else
      var t, f := TallyOf(facts[..|facts| - 1], j), facts[|facts| - 1];
      if f.job == j then Add(t, f) else t
  }

  ghost predicate TallyFits(p: Phase, t: Tally) {
    if p.Waiting? || p.Opening? then t == Tally(0, 0, 0, 0)
    else if p.Minting? then t == Tally(1, 0, 0, 0)
    else if IsLive(p) then t == Tally(1, 1, 0, 0)
    else if p.Revoking? then t == Tally(1, 1, 1, 1)
    else t == Tally(0, 0, 0, 0) || t == Tally(1, 0, 0, 0) || t == Tally(1, 1, 1, 1)
  }

  ghost predicate TallyInv(s: State, j: nat) {
    if j < |s.jobs| then TallyFits(s.jobs[j].phase, TallyOf(s.facts, j)) else TallyOf(s.facts, j) == Tally(0, 0, 0, 0)
  }

  lemma TallyPush(facts: seq<Fact>, f: Fact, j: nat)
    ensures TallyOf(facts + [f], j) == if f.job == j then Add(TallyOf(facts, j), f) else TallyOf(facts, j)
  {
    assert (facts + [f])[..|facts|] == facts;
  }

  lemma AdvanceTally(s: State, i: nat, reply: Reply, j: nat)
    requires i < |s.jobs|
    ensures var was, now, added := TallyOf(s.facts, j), TallyOf(Advance(s, i, reply).facts, j), NextFacts(i, s.jobs[i], reply);
            now == if i != j || added == [] then was
                   else if |added| == 1 then Add(was, added[0])
                   else Add(Add(was, added[0]), added[1])
  {
    var facts, added := s.facts, NextFacts(i, s.jobs[i], reply);
    if added == [] {
      assert facts + added == facts;
    } else if |added| == 1 {
      TallyPush(facts, added[0], j);
    } else {
      TallyPush(facts, added[0], j);
      TallyPush(facts + [added[0]], added[1], j);
      assert facts + added == facts + [added[0]] + [added[1]];
    }
  }

  lemma OwnTally(s: State, j: nat, reply: Reply)
    requires j < |s.jobs| && TallyFits(s.jobs[j].phase, TallyOf(s.facts, j))
    ensures TallyFits(NextPhase(s, j, reply), TallyOf(Advance(s, j, reply).facts, j))
  {
    var p, q, added := s.jobs[j].phase, NextPhase(s, j, reply), NextFacts(j, s.jobs[j], reply);
    AdvanceTally(s, j, reply, j);
    if p.Opening? {
      assert if reply.Threw? then q.Closing? && added == [] else q.Minting? && added == [Started(j)];
    } else if p.Minting? {
      assert if reply.Threw? then q.Closing? && added == [] else q.Working? && added == [Minted(j)];
    } else if p.Gathering? {
      assert q.Revoking? && |added| == 2 && added[0].Reported? && added[1].RevokeAsked?;
    } else {
      assert added == [];
    }
  }

  lemma AdvanceKeepsTally(s: State, i: nat, reply: Reply, j: nat)
    requires i < |s.jobs| && TallyInv(s, j)
    ensures TallyInv(Advance(s, i, reply), j)
  {
    if i == j {
      OwnTally(s, j, reply);
    } else {
      AdvanceTally(s, i, reply, j);
      assert j < |s.jobs| ==> Advance(s, i, reply).jobs[j] == s.jobs[j];
    }
  }

  lemma {:induction false} ReachTally(stored: Rows, steps: seq<Step>, j: nat)
    ensures TallyInv(Reach(stored, steps), j)
  {
    if steps != [] {
      var n := |steps| - 1;
      ReachTally(stored, steps[..n], j);
      var s := Reach(stored, steps[..n]);
      match steps[n] {
        case Go(i, reply) => if i < |s.jobs| { AdvanceKeepsTally(s, i, reply, j); }
        case _ =>
      }
    }
  }

  /** Run lifecycle, for every interleaving and every outcome of turns and stores: a run that got its
      credential and has settled made exactly one terminal report, asked for exactly one revocation and is out
      of the live map; a run that never got one made neither; and no run ever makes a second of either. */
  lemma OneReportOneRevocation(stored: Rows, steps: seq<Step>, j: nat)
    requires j < |Reach(stored, steps).jobs|
    ensures var s := Reach(stored, steps);
            var t := TallyOf(s.facts, j);
            && t.reports <= t.mints <= t.starts <= 1 && t.revokes == t.reports
            && (s.jobs[j].phase.Settled? ==> t.reports == t.mints)
            && (s.jobs[j].phase.Settled? ==> forall x :: x in s.controllers ==> s.controllers[x].job != j)
  {
    ReachTally(stored, steps, j);
    ReachInv(stored, steps);
  }

  lemma SilentStaysSilent(s: State, step: Step, j: nat)
    requires j < |s.jobs| && s.jobs[j].phase in {Closing, Settled}
    ensures j < |Next(s, step).jobs| && Next(s, step).jobs[j].phase in {Closing, Settled}
    ensures TallyOf(Next(s, step).facts, j) == TallyOf(s.facts, j)
  {
    match step {
      case Go(i, reply) => if i < |s.jobs| { AdvanceTally(s, i, reply, j); }
      case _ =>
    }
  }

  lemma MintThrows(s: State, j: nat)
    requires j < |s.jobs| && s.jobs[j].phase.Minting?
    ensures Next(s, Go(j, Threw)).jobs[j].phase.Closing?
    ensures TallyOf(Next(s, Go(j, Threw)).facts, j) == TallyOf(s.facts, j)
  {
    AdvanceTally(s, j, Threw, j);
  }

  /** One of these steps failed to write the session row of run `j`, or to mint its credential. */
  ghost predicate RowThrew(stored: Rows, steps: seq<Step>, j: nat) {
    if steps == [] then false
    else
      var n := |steps| - 1;
      var s := Reach(stored, steps[..n]);
      RowThrew(stored, steps[..n], j) || (steps[n] == Go(j, Threw) && j < |s.jobs| && s.jobs[j].phase.Opening?)
  }

  ghost predicate MintThrew(stored: Rows, steps: seq<Step>, j: nat) {
    if steps == [] then false
    else
      var n := |steps| - 1;
      var s := Reach(stored, steps[..n]);
      MintThrew(stored, steps[..n], j) || (steps[n] == Go(j, Threw) && j < |s.jobs| && s.jobs[j].phase.Minting?)
  }

  /** How far a run in this phase has got, given what failed it on the way to its turn. */
  ghost predicate Foreseen(p: Phase, t: Tally, row: bool, mint: bool) {
    && !(row && mint)
    && (row || mint ==> p.Closing? || p.Settled?)
    && (p.Closing? || p.Settled? ==> t == if row then Tally(0, 0, 0, 0) else if mint then Tally(1, 0, 0, 0) else Tally(1, 1, 1, 1))
  }

  lemma OwnForeseen(s: State, j: nat, reply: Reply, row: bool, mint: bool)
    requires j < |s.jobs| && TallyFits(s.jobs[j].phase, TallyOf(s.facts, j))
    requires Foreseen(s.jobs[j].phase, TallyOf(s.facts, j), row, mint)
    ensures var p := s.jobs[j].phase;
            Foreseen(NextPhase(s, j, reply), TallyOf(Advance(s, j, reply).facts, j),
                     row || (p.Opening? && reply.Threw?), mint || (p.Minting? && reply.Threw?))
  {
    AdvanceTally(s, j, reply, j);
  }

  lemma {:induction false} ReachForeseen(stored: Rows, steps: seq<Step>, j: nat)
    ensures var s, row, mint := Reach(stored, steps), RowThrew(stored, steps, j), MintThrew(stored, steps, j);
            if j < |s.jobs| then Foreseen(s.jobs[j].phase, TallyOf(s.facts, j), row, mint) else !row && !mint
  {
    if steps != [] {
      var n := |steps| - 1;
      ReachForeseen(stored, steps[..n], j);
      ReachTally(stored, steps[..n], j);
      var s := Reach(stored, steps[..n]);
      match steps[n] {
        case Go(i, reply) =>
          if i < |s.jobs| {
            AdvanceTally(s, i, reply, j);
            if i == j { OwnForeseen(s, j, reply, RowThrew(stored, steps[..n], j), MintThrew(stored, steps[..n], j)); }
          }
        case _ =>
      }
    }
  }

  /** Nothing else keeps a run from its turn: a run that has settled had its start reported, its credential minted,
      its end reported and its credential revoked, unless its session row could not be written, and then it
      did none of these, or its credential could not be minted, and then it only reported its start. */
  lemma SettledRunsRan(stored: Rows, steps: seq<Step>, j: nat)
    requires j < |Reach(stored, steps).jobs| && Reach(stored, steps).jobs[j].phase.Settled?
    ensures TallyOf(Reach(stored, steps).facts, j)
         == if RowThrew(stored, steps, j) then Tally(0, 0, 0, 0)
            else if MintThrew(stored, steps, j) then Tally(1, 0, 0, 0)
            else Tally(1, 1, 1, 1)
  {
    ReachForeseen(stored, steps, j);
  }

  /** Minting is outside the try: a run whose credential could not be minted was reported started, and is
      never reported ended, however the machine goes on. */
  lemma {:induction false} MintFailureIsSilent(stored: Rows, steps: seq<Step>, j: nat, more: seq<Step>)
    requires j < |Reach(stored, steps).jobs| && Reach(stored, steps).jobs[j].phase.Minting?
    ensures j < |Reach(stored, steps + [Go(j, Threw)] + more).jobs|
    ensures Reach(stored, steps + [Go(j, Threw)] + more).jobs[j].phase in {Closing, Settled}
    ensures TallyOf(Reach(stored, steps + [Go(j, Threw)] + more).facts, j) == Tally(1, 0, 0, 0)
  {
    var failed := steps + [Go(j, Threw)];
    if more == [] {
      ReachTally(stored, steps, j);
      ReachPush(stored, steps, Go(j, Threw));
      MintThrows(Reach(stored, steps), j);
      assert failed + more == failed;
    } else {
      var n := |more| - 1;
      MintFailureIsSilent(stored, steps, j, more[..n]);
      ReachPush(stored, failed + more[..n], more[n]);
      SilentStaysSilent(Reach(stored, failed + more[..n]), more[n], j);
      assert failed + more == failed + more[..n] + [more[n]];
    }
  }

  // ---------------------------------------------------------------- stop

  /** A stop that reaches a live run marks and aborts that run and no other; any other stop (of another
      workspace, or of a session with no live run) changes nothing at all. */
  lemma StopIsIsolated(stored: Rows, steps: seq<Step>, w: Workspace, x: SessionId)
    ensures var s := Reach(stored, steps);
            var t := Next(s, Stop(w, x));
            if exists j :: 0 <= j < |s.jobs| && IsLive(s.jobs[j].phase) && s.jobs[j].session == x && s.jobs[j].key.workspace == w then
              && t.stopped == s.stopped + {x} && |t.jobs| == |s.jobs|
              && forall j :: 0 <= j < |s.jobs| ==>
                   t.jobs[j] == if IsLive(s.jobs[j].phase) && s.jobs[j].session == x
                                then s.jobs[j].(aborted := true) else s.jobs[j]
            else
              t == s
  {
    ReachInv(stored, steps);
    var s := Reach(stored, steps);
    forall j | 0 <= j < |s.jobs| && IsLive(s.jobs[j].phase) ensures Listed(s, j) {
    }
    if StopReaches(s, w, x) { assert Listed(s, s.controllers[x].job); }
  }

  /** No stop leaks into a later run: a run about to go live is neither marked nor aborted. */
  lemma {:induction false} NoLeftoverStop(stored: Rows, steps: seq<Step>, j: nat)
    requires j < |Reach(stored, steps).jobs| && Reach(stored, steps).jobs[j].phase.Minting?
    ensures Reach(stored, steps).jobs[j].session !in Reach(stored, steps).stopped && !Reach(stored, steps).jobs[j].aborted
  {
    ReachInv(stored, steps);
    NotLiveNotAborted(stored, steps, j);
    var s := Reach(stored, steps);
    var x := s.jobs[j].session;
    if x in s.stopped { OneLivePerSession(s, s.controllers[x].job, j); }
  }

  predicate NotYetLive(p: Phase) {
    p.Waiting? || p.Opening? || p.Minting?
  }

  lemma StopSparesNotLive(s: State, w: Workspace, x: SessionId, j: nat)
    requires LinkInv(s) && j < |s.jobs| && !IsLive(s.jobs[j].phase)
    ensures j < |DoStop(s, w, x).jobs| && DoStop(s, w, x).jobs[j] == s.jobs[j]
  {
    if StopReaches(s, w, x) { assert IsLive(s.jobs[s.controllers[x].job].phase); }
  }

  lemma GoStillNotLive(s: State, i: nat, reply: Reply, j: nat)
    requires i < |s.jobs| && j < |s.jobs| && NotYetLive(Advance(s, i, reply).jobs[j].phase)
    ensures NotYetLive(s.jobs[j].phase) && Advance(s, i, reply).jobs[j].aborted == s.jobs[j].aborted
  {
    if i == j { assert NotYetLive(NextPhase(s, j, reply)); }
  }

  lemma StillNotLive(s: State, step: Step, j: nat)
    requires Inv(s) && j < |s.jobs| && j < |Next(s, step).jobs| && NotYetLive(Next(s, step).jobs[j].phase)
    ensures NotYetLive(s.jobs[j].phase) && Next(s, step).jobs[j].aborted == s.jobs[j].aborted
  {
    match step {
      case Launch(_, _) =>
      case Continue(_) =>
      case Stop(w, x) => if !IsLive(s.jobs[j].phase) { StopSparesNotLive(s, w, x, j); }
      case Go(i, reply) => if i < |s.jobs| { GoStillNotLive(s, i, reply, j); }
    }
  }

  lemma NewNotAborted(s: State, step: Step, j: nat)
    requires |s.jobs| <= j < |Next(s, step).jobs|
    ensures !Next(s, step).jobs[j].aborted
  {
  }

  lemma {:induction false} NotLiveNotAborted(stored: Rows, steps: seq<Step>, j: nat)
    requires j < |Reach(stored, steps).jobs| && NotYetLive(Reach(stored, steps).jobs[j].phase)
    ensures !Reach(stored, steps).jobs[j].aborted
  {
    if steps != [] {
      var n := |steps| - 1;
      ReachInv(stored, steps[..n]);
      if j < |Reach(stored, steps[..n]).jobs| {
        StillNotLive(Reach(stored, steps[..n]), steps[n], j);
        NotLiveNotAborted(stored, steps[..n], j);
      } else {
        NewNotAborted(Reach(stored, steps[..n]), steps[n], j);
      }
    }
  }

  predicate HasVerdict(p: Phase) {
    p.Settling? || p.Rescuing? || p.Gathering?
  }

  /** Step `i` is a stop, by its own workspace, of run `j` while that run is live. */
  ghost predicate StopAt(stored: Rows, steps: seq<Step>, j: nat, i: int) {
    && 0 <= i < |steps|
    && j < |Reach(stored, steps[..i]).jobs|
    && IsLive(Reach(stored, steps[..i]).jobs[j].phase)
    && steps[i] == Stop(Reach(stored, steps[..i]).jobs[j].key.workspace, Reach(stored, steps[..i]).jobs[j].session)
  }

  /** Run `j` reads whether it was stopped: when its turn ends, and again in the catch of a failed status write. */
  predicate ReadsVerdict(s: State, step: Step, j: nat) {
    && step.Go? && step.job == j < |s.jobs|
    && (s.jobs[j].phase.Working? || (s.jobs[j].phase.Settling? && step.reply.Threw?))
  }

  ghost predicate ReadAt(stored: Rows, steps: seq<Step>, j: nat, k: int) {
    0 <= k < |steps| && ReadsVerdict(Reach(stored, steps[..k]), steps[k], j)
  }

  ghost predicate StoppedInTime(stored: Rows, steps: seq<Step>, j: nat) {
    exists i, k :: i < k && StopAt(stored, steps, j, i) && ReadAt(stored, steps, j, k)
  }

  ghost predicate Stopped(stored: Rows, steps: seq<Step>, j: nat) {
    exists i :: StopAt(stored, steps, j, i)
  }

  lemma LongerRun(stored: Rows, steps: seq<Step>, step: Step, j: nat)
    ensures Stopped(stored, steps, j) ==> Stopped(stored, steps + [step], j)
    ensures StoppedInTime(stored, steps, j) ==> StoppedInTime(stored, steps + [step], j)
  {
    var more := steps + [step];
    forall i: int | 0 <= i < |steps|
      ensures more[..i] == steps[..i] && more[i] == steps[i]
    {
    }
    if i :| StopAt(stored, steps, j, i) { assert StopAt(stored, more, j, i); }
    if i, k :| i < k && StopAt(stored, steps, j, i) && ReadAt(stored, steps, j, k) { assert StopAt(stored, more, j, i) && ReadAt(stored, more, j, k); }
  }

  ghost predicate Marked(s: State, j: nat) {
    j < |s.jobs| && IsLive(s.jobs[j].phase) && s.jobs[j].session in s.stopped
  }

  /** Run `j` is settling, or has been reported, with this outcome. */
  ghost predicate Says(s: State, j: nat, o: Outcome) {
    || (j < |s.jobs| && HasVerdict(s.jobs[j].phase) && s.jobs[j].phase.verdict == o)
    || Reported(j, o) in s.facts
  }

  lemma GoMarksNobody(s: State, i: nat, reply: Reply, j: nat)
    requires i < |s.jobs| && Marked(Advance(s, i, reply), j)
    requires s.jobs[j].phase.Minting? ==> s.jobs[j].session !in s.stopped
    ensures Marked(s, j)
  {
    if i == j { assert IsLive(NextPhase(s, j, reply)); }
  }

  lemma MarkedBy(s: State, step: Step, j: nat)
    requires Inv(s) && Marked(Next(s, step), j)
    requires j < |s.jobs| && s.jobs[j].phase.Minting? ==> s.jobs[j].session !in s.stopped
    ensures Marked(s, j) || (j < |s.jobs| && IsLive(s.jobs[j].phase) && step == Stop(s.jobs[j].key.workspace, s.jobs[j].session))
  {
    match step {
      case Launch(_, _) =>
      case Continue(_) =>
      case Stop(w, x) => if j < |s.jobs| && IsLive(s.jobs[j].phase) { assert Listed(s, j); }
      case Go(i, reply) => if i < |s.jobs| { GoMarksNobody(s, i, reply, j); }
    }
  }

  lemma SaysBy(s: State, step: Step, j: nat, o: Outcome)
    requires Says(Next(s, step), j, o) && !Says(s, j, o)
    ensures ReadsVerdict(s, step, j)
    ensures o == Verdict(Marked(s, j), step.reply)
  {
    match step {
      case Go(i, reply) => if i < |s.jobs| { assert Reported(j, o) !in s.facts; }
      case _ =>
    }
  }

  /** Everything that says "cancelled" about run `j` traces back to a stop of it. */
  lemma {:induction false} CancelledHasStop(stored: Rows, steps: seq<Step>, j: nat)
    ensures Marked(Reach(stored, steps), j) ==> Stopped(stored, steps, j)
    ensures Says(Reach(stored, steps), j, Cancelled) ==> StoppedInTime(stored, steps, j)
  {
    if steps != [] {
      var n := |steps| - 1;
      var s, step := Reach(stored, steps[..n]), steps[n];
      assert steps == steps[..n] + [step];
      CancelledHasStop(stored, steps[..n], j);
      LongerRun(stored, steps[..n], step, j);
      ReachInv(stored, steps[..n]);
      if Marked(Reach(stored, steps), j) && !Marked(s, j) {
        if j < |s.jobs| && s.jobs[j].phase.Minting? { NoLeftoverStop(stored, steps[..n], j); }
        MarkedBy(s, step, j);
        assert StopAt(stored, steps, j, n);
      }
      if Says(Reach(stored, steps), j, Cancelled) && !Says(s, j, Cancelled) {
        SaysBy(s, step, j, Cancelled);
        var i :| StopAt(stored, steps[..n], j, i);
        assert steps[..n][..i] == steps[..i];
        assert StopAt(stored, steps, j, i) && ReadAt(stored, steps, j, n);
      }
    }
  }

  /** The credential is gone: the run has been reported, or never got that far. */
  predicate Past(p: Phase) {
    p.Revoking? || p.Closing? || p.Settled?
  }

  ghost predicate MarkedOrPast(s: State, j: nat) {
    j < |s.jobs| && (Marked(s, j) || Past(s.jobs[j].phase))
  }

  lemma GoKeepsMark(s: State, i: nat, reply: Reply, j: nat)
    requires Inv(s) && i < |s.jobs| && Marked(s, j)
    ensures Marked(Advance(s, i, reply), j) || Past(Advance(s, i, reply).jobs[j].phase)
  {
    if i == j {
      assert IsLive(NextPhase(s, j, reply)) || NextPhase(s, j, reply).Revoking?;
    } else if s.jobs[i].session == s.jobs[j].session {
      OneLivePerSession(s, j, i);
    }
  }

  lemma GoKeepsPast(s: State, i: nat, reply: Reply, j: nat)
    requires i < |s.jobs| && j < |s.jobs| && Past(s.jobs[j].phase)
    ensures Past(Advance(s, i, reply).jobs[j].phase)
  {
  }

  lemma MarkedUntilPast(s: State, step: Step, j: nat)
    requires Inv(s) && MarkedOrPast(s, j)
    ensures MarkedOrPast(Next(s, step), j)
  {
    match step {
      case Launch(_, _) =>
      case Continue(_) =>
      case Stop(_, _) =>
      case Go(i, reply) =>
        if i < |s.jobs| {
          if Marked(s, j) { GoKeepsMark(s, i, reply, j); } else { GoKeepsPast(s, i, reply, j); }
        }
    }
  }

  lemma StopMarks(stored: Rows, steps: seq<Step>, j: nat, i: nat)
    requires StopAt(stored, steps, j, i)
    ensures Marked(Reach(stored, steps[..i + 1]), j)
  {
    ReachInv(stored, steps[..i]);
    assert steps[..i + 1] == steps[..i] + [steps[i]];
    ReachPush(stored, steps[..i], steps[i]);
    assert Listed(Reach(stored, steps[..i]), j);
  }

  lemma MarkHoldsOn(stored: Rows, steps: seq<Step>, step: Step, j: nat)
    requires MarkedOrPast(Reach(stored, steps), j)
    ensures MarkedOrPast(Reach(stored, steps + [step]), j)
  {
    ReachInv(stored, steps);
    MarkedUntilPast(Reach(stored, steps), step, j);
    ReachPush(stored, steps, step);
  }

  lemma {:induction false} MarkHolds(stored: Rows, steps: seq<Step>, more: seq<Step>, j: nat)
    requires Marked(Reach(stored, steps), j)
    ensures MarkedOrPast(Reach(stored, steps + more), j)
  {
    if more == [] {
      assert steps + more == steps;
    } else {
      var n := |more| - 1;
      MarkHolds(stored, steps, more[..n], j);
      MarkHoldsOn(stored, steps + more[..n], more[n], j);
      assert steps + more == steps + more[..n] + [more[n]];
    }
  }

  lemma StopHolds(stored: Rows, steps: seq<Step>, j: nat, i: nat, m: nat)
    requires i < m <= |steps| && StopAt(stored, steps, j, i)
    ensures MarkedOrPast(Reach(stored, steps[..m]), j)
  {
    StopMarks(stored, steps, j, i);
    MarkHolds(stored, steps[..i + 1], steps[i + 1..m], j);
    assert steps[..i + 1] + steps[i + 1..m] == steps[..m];
  }

  /** Nothing but cancelled can come of run `j` any more. */
  ghost predicate Doomed(s: State, j: nat) {
    && j < |s.jobs|
    && (Past(s.jobs[j].phase) || (Marked(s, j) && HasVerdict(s.jobs[j].phase)))
    && forall o :: Says(s, j, o) ==> o == Cancelled
  }

  lemma VerdictStays(s: State, step: Step, j: nat)
    requires j < |s.jobs| && (HasVerdict(s.jobs[j].phase) || Past(s.jobs[j].phase))
    ensures j < |Next(s, step).jobs| && (HasVerdict(Next(s, step).jobs[j].phase) || Past(Next(s, step).jobs[j].phase))
  {
    match step {
      case Launch(_, _) =>
      case Continue(_) =>
      case Stop(_, _) =>
      case Go(i, reply) => if i == j { assert HasVerdict(NextPhase(s, j, reply)) || Past(NextPhase(s, j, reply)); }
    }
  }

  lemma DoomedStays(s: State, step: Step, j: nat)
    requires Inv(s) && Doomed(s, j)
    ensures Doomed(Next(s, step), j)
  {
    MarkedUntilPast(s, step, j);
    VerdictStays(s, step, j);
    forall o | Says(Next(s, step), j, o) ensures o == Cancelled {
      if !Says(s, j, o) { SaysBy(s, step, j, o); }
    }
  }

  lemma {:induction false} UnreportedWhileLive(facts: seq<Fact>, j: nat, o: Outcome)
    requires Reported(j, o) in facts
    ensures TallyOf(facts, j).reports > 0
  {
    var n := |facts| - 1;
    if facts[n] != Reported(j, o) {
      assert facts == facts[..n] + [facts[n]];
      UnreportedWhileLive(facts[..n], j, o);
    }
  }

  lemma ReadDooms(stored: Rows, steps: seq<Step>, step: Step, j: nat)
    requires Marked(Reach(stored, steps), j) && ReadsVerdict(Reach(stored, steps), step, j)
    ensures Doomed(Reach(stored, steps + [step]), j)
  {
    var s := Reach(stored, steps);
    ReachTally(stored, steps, j);
    ReachPush(stored, steps, step);
    forall o ensures Reported(j, o) !in s.facts {
      if Reported(j, o) in s.facts { UnreportedWhileLive(s.facts, j, o); }
    }
  }

  lemma {:induction false} StaysDoomed(stored: Rows, steps: seq<Step>, j: nat, i: nat, k: nat)
    requires i < k && StopAt(stored, steps, j, i) && ReadAt(stored, steps, j, k)
    ensures Doomed(Reach(stored, steps), j)
  {
    var n := |steps| - 1;
    assert steps == steps[..n] + [steps[n]];
    if k == n {
      StopHolds(stored, steps, j, i, k);
      ReadDooms(stored, steps[..n], steps[n], j);
    } else {
      assert steps[..n][..i] == steps[..i] && steps[..n][..k] == steps[..k];
      StaysDoomed(stored, steps[..n], j, i, k);
      ReachInv(stored, steps[..n]);
      ReachPush(stored, steps[..n], steps[n]);
      DoomedStays(Reach(stored, steps[..n]), steps[n], j);
    }
  }

  /** A run is reported cancelled if and only if a stop by its own workspace reached it while it was live and
      before the last time it looked. */
  lemma CancelledIffStopped(stored: Rows, steps: seq<Step>, j: nat, o: Outcome)
    requires Reported(j, o) in Reach(stored, steps).facts
    ensures o == Cancelled <==> StoppedInTime(stored, steps, j)
  {
    CancelledHasStop(stored, steps, j);
    if i, k :| i < k && StopAt(stored, steps, j, i) && ReadAt(stored, steps, j, k) {
      StaysDoomed(stored, steps, j, i, k);
      assert Says(Reach(stored, steps), j, o);
    }
  }

  /** The verdict is read before the status write is awaited, so a stop can be accepted and still come too
      late: the run settles as it would have. */
  lemma LateStopIsIgnored(stored: Rows, steps: seq<Step>, j: nat)
    requires j < |Reach(stored, steps).jobs| && Reach(stored, steps).jobs[j].phase.Settling?
    ensures var job := Reach(stored, steps).jobs[j];
            var late := Stop(job.key.workspace, job.session);
            && StopReaches(Reach(stored, steps), job.key.workspace, job.session)
            && Reported(j, job.phase.verdict) in Reach(stored, steps + [late] + [Go(j, Returned)] + [Go(j, Returned)]).facts
  {
    ReachInv(stored, steps);
    var s := Reach(stored, steps);
    assert Listed(s, j);
    var late := Stop(s.jobs[j].key.workspace, s.jobs[j].session);
    ReachPush(stored, steps, late);
    ReachPush(stored, steps + [late], Go(j, Returned));
    ReachPush(stored, steps + [late] + [Go(j, Returned)], Go(j, Returned));
  }

  /** Step `k` ends the turn of run `j`, or a status write in its try, with this reply. */
  ghost predicate TurnEnds(stored: Rows, steps: seq<Step>, j: nat, k: int, reply: Reply) {
    && 0 <= k < |steps| && steps[k] == Go(j, reply)
    && j < |Reach(stored, steps[..k]).jobs| && Reach(stored, steps[..k]).jobs[j].phase.Working?
  }

  ghost predicate HasTurn(stored: Rows, steps: seq<Step>, j: nat, reply: Reply) {
    exists k :: TurnEnds(stored, steps, j, k, reply)
  }

  lemma LongerTurn(stored: Rows, steps: seq<Step>, step: Step, j: nat, reply: Reply)
    ensures HasTurn(stored, steps, j, reply) ==> HasTurn(stored, steps + [step], j, reply)
  {
    var more := steps + [step];
    if k :| TurnEnds(stored, steps, j, k, reply) {
      assert more[..k] == steps[..k];
      assert TurnEnds(stored, more, j, k, reply);
    }
  }

  /** Step `k` throws out of the status write the try of run `j` awaits. */
  ghost predicate WriteThrowsAt(stored: Rows, steps: seq<Step>, j: nat, k: int) {
    && 0 <= k < |steps| && steps[k] == Go(j, Threw)
    && j < |Reach(stored, steps[..k]).jobs| && Reach(stored, steps[..k]).jobs[j].phase.Settling?
  }

  ghost predicate WriteThrew(stored: Rows, steps: seq<Step>, j: nat) {
    exists k :: WriteThrowsAt(stored, steps, j, k)
  }

  lemma LongerWrite(stored: Rows, steps: seq<Step>, step: Step, j: nat)
    ensures WriteThrew(stored, steps, j) ==> WriteThrew(stored, steps + [step], j)
  {
    var more := steps + [step];
    if k :| WriteThrowsAt(stored, steps, j, k) {
      assert more[..k] == steps[..k];
      assert WriteThrowsAt(stored, more, j, k);
    }
  }

  ghost predicate SourceOf(stored: Rows, steps: seq<Step>, j: nat, o: Outcome) {
    match o
    case Completed => HasTurn(stored, steps, j, Returned)
    case Suspended => HasTurn(stored, steps, j, ReturnedWaiting) || HasTurn(stored, steps, j, ReturnedHalted)
    case Failed => HasTurn(stored, steps, j, Threw) || WriteThrew(stored, steps, j)
    case Cancelled => true
  }

  lemma LongerSource(stored: Rows, steps: seq<Step>, step: Step, j: nat, o: Outcome)
    requires SourceOf(stored, steps, j, o)
    ensures SourceOf(stored, steps + [step], j, o)
  {
    LongerTurn(stored, steps, step, j, Returned);
    LongerTurn(stored, steps, step, j, ReturnedWaiting);
    LongerTurn(stored, steps, step, j, ReturnedHalted);
    LongerTurn(stored, steps, step, j, Threw);
    LongerWrite(stored, steps, step, j);
  }

  /** Every outcome a run settles with has the reply it comes from. */
  lemma {:induction false} OutcomeHasSource(stored: Rows, steps: seq<Step>, j: nat, o: Outcome)
    requires Says(Reach(stored, steps), j, o)
    ensures SourceOf(stored, steps, j, o)
  {
    var n := |steps| - 1;
    var s, step := Reach(stored, steps[..n]), steps[n];
    if Says(s, j, o) {
      assert steps == steps[..n] + [step];
      OutcomeHasSource(stored, steps[..n], j, o);
      LongerSource(stored, steps[..n], step, j, o);
    } else {
      SaysBy(s, step, j, o);
      if s.jobs[j].phase.Working? {
        assert TurnEnds(stored, steps, j, n, step.reply);
      } else {
        assert WriteThrowsAt(stored, steps, j, n);
      }
    }
  }

  /** Once its turn has ended a run never works again. */
  lemma {:induction false} TurnIsOver(stored: Rows, steps: seq<Step>, j: nat, k: nat, reply: Reply)
    requires TurnEnds(stored, steps, j, k, reply)
    ensures j < |Reach(stored, steps).jobs|
    ensures HasVerdict(Reach(stored, steps).jobs[j].phase) || Past(Reach(stored, steps).jobs[j].phase)
  {
    var n := |steps| - 1;
    if k < n {
      assert steps[..n][..k] == steps[..k];
      TurnIsOver(stored, steps[..n], j, k, reply);
      VerdictStays(Reach(stored, steps[..n]), steps[n], j);
    }
  }

  lemma NoLaterTurn(stored: Rows, steps: seq<Step>, j: nat, k: nat, m: nat, a: Reply, b: Reply)
    requires TurnEnds(stored, steps, j, k, a) && k < m
    ensures !TurnEnds(stored, steps, j, m, b)
  {
    if m < |steps| {
      assert steps[..m][..k] == steps[..k];
      TurnIsOver(stored, steps[..m], j, k, a);
    }
  }

  /** So its turn ends once. */
  lemma OneTurn(stored: Rows, steps: seq<Step>, j: nat, a: Reply, b: Reply)
    requires HasTurn(stored, steps, j, a) && HasTurn(stored, steps, j, b)
    ensures a == b
  {
    var k: int :| TurnEnds(stored, steps, j, k, a);
    var m: int :| TurnEnds(stored, steps, j, m, b);
    if k < m { NoLaterTurn(stored, steps, j, k, m, a, b); }
    if m < k { NoLaterTurn(stored, steps, j, m, k, b, a); }
  }

  /** Nothing but failed or cancelled can come of run `j` any more. */
  ghost predicate Lost(s: State, j: nat) {
    && j < |s.jobs|
    && (Past(s.jobs[j].phase) || s.jobs[j].phase.Rescuing? || s.jobs[j].phase.Gathering?)
    && forall o :: Says(s, j, o) ==> o in {Failed, Cancelled}
  }

  lemma LostStays(s: State, step: Step, j: nat)
    requires Lost(s, j)
    ensures Lost(Next(s, step), j)
  {
    VerdictStays(s, step, j);
    forall o | Says(Next(s, step), j, o) ensures o in {Failed, Cancelled} {
      if !Says(s, j, o) { SaysBy(s, step, j, o); }
    }
  }

  lemma NotYetReported(stored: Rows, steps: seq<Step>, j: nat, o: Outcome)
    requires j < |Reach(stored, steps).jobs| && IsLive(Reach(stored, steps).jobs[j].phase)
    ensures Reported(j, o) !in Reach(stored, steps).facts
  {
    ReachTally(stored, steps, j);
    var facts := Reach(stored, steps).facts;
    if Reported(j, o) in facts { UnreportedWhileLive(facts, j, o); }
  }

  lemma WriteLoses(s: State, j: nat)
    requires j < |s.jobs| && s.jobs[j].phase.Settling? && forall o :: Reported(j, o) !in s.facts
    ensures Lost(Next(s, Go(j, Threw)), j)
  {
  }

  lemma {:induction false} StaysLost(stored: Rows, steps: seq<Step>, j: nat, k: nat)
    requires WriteThrowsAt(stored, steps, j, k)
    ensures Lost(Reach(stored, steps), j)
  {
    var n := |steps| - 1;
    if k == n {
      forall o ensures Reported(j, o) !in Reach(stored, steps[..n]).facts { NotYetReported(stored, steps[..n], j, o); }
      WriteLoses(Reach(stored, steps[..n]), j);
    } else {
      assert steps[..n][..k] == steps[..k];
      StaysLost(stored, steps[..n], j, k);
      LostStays(Reach(stored, steps[..n]), steps[n], j);
    }
  }

  /** What a run is reported as, exactly: unless a stop came in time, it is completed if and only if its turn
      returned by itself and its status could be written, suspended if and only if the turn returned on an
      armed wait or at its budget and the status could be written, and failed if and only if the turn or that
      write threw.  A turn ends once. */
  lemma OutcomeIffTurn(stored: Rows, steps: seq<Step>, j: nat, o: Outcome)
    requires Reported(j, o) in Reach(stored, steps).facts && !StoppedInTime(stored, steps, j)
    ensures o == Completed <==> HasTurn(stored, steps, j, Returned) && !WriteThrew(stored, steps, j)
    ensures o == Suspended <==> (HasTurn(stored, steps, j, ReturnedWaiting) || HasTurn(stored, steps, j, ReturnedHalted))
                                && !WriteThrew(stored, steps, j)
    ensures o == Failed <==> HasTurn(stored, steps, j, Threw) || WriteThrew(stored, steps, j)
    ensures forall a, b :: HasTurn(stored, steps, j, a) && HasTurn(stored, steps, j, b) ==> a == b
  {
    assert Says(Reach(stored, steps), j, o);
    OutcomeHasSource(stored, steps, j, o);
    CancelledIffStopped(stored, steps, j, o);
    if k :| WriteThrowsAt(stored, steps, j, k) { StaysLost(stored, steps, j, k); }
    forall a, b | HasTurn(stored, steps, j, a) && HasTurn(stored, steps, j, b) ensures a == b {
      OneTurn(stored, steps, j, a, b);
    }
  }

  // ---------------------------------------------------------------- nothing blocks the chain

  /** How many awaits a run may still have in front of it. */
  function Left(p: Phase): nat {
    match p
    case Waiting => 9
    case Opening => 8
    case Minting => 7
    case Working => 6
    case Settling(_) => 5
    case Rescuing(_) => 4
    case Gathering(_) => 3
    case Revoking => 2
    case Closing => 1
    case Settled => 0
  }

  function Work(jobs: seq<Job>, key: AgentKey): nat {
    if jobs == [] then 0
    else
      var d := jobs[|jobs| - 1];
      Work(jobs[..|jobs| - 1], key) + (if d.key == key then Left(d.phase) else 0)
  }

  lemma {:induction false} WorkUpdate(jobs: seq<Job>, j: nat, p: Phase, key: AgentKey)
    requires j < |jobs| && jobs[j].key == key
    ensures Work(jobs[j := jobs[j].(phase := p)], key) + Left(jobs[j].phase) == Work(jobs, key) + Left(p)
  {
    var n := |jobs| - 1;
    var next := jobs[j := jobs[j].(phase := p)];
    if j == n {
      assert next[..n] == jobs[..n];
    } else {
      WorkUpdate(jobs[..n], j, p, key);
      assert next[..n] == jobs[..n][j := jobs[j].(phase := p)];
    }
  }

  /** The agent's oldest unsettled run. */
  function Front(jobs: seq<Job>, key: AgentKey): Option<nat> {
    if jobs == [] then None
    else
      var n := |jobs| - 1;
      var front := Front(jobs[..n], key);
      if front.Some? then front
      else if jobs[n].key == key && !jobs[n].phase.Settled? then Some(n)
      else None
  }

  lemma {:induction false} FrontIsOldest(jobs: seq<Job>, key: AgentKey)
    ensures match Front(jobs, key)
            case None => Work(jobs, key) == 0 && forall j :: 0 <= j < |jobs| && jobs[j].key == key ==> jobs[j].phase.Settled?
            case Some(f) =>
              && f < |jobs| && jobs[f].key == key && !jobs[f].phase.Settled?
              && forall j :: 0 <= j < f && jobs[j].key == key ==> jobs[j].phase.Settled?
  {
    if jobs != [] { FrontIsOldest(jobs[..|jobs| - 1], key); }
  }

  /** Let the agent's oldest unsettled run take its next piece, once for each reply. */
  function Drain(s: State, key: AgentKey, replies: seq<Reply>): State
    decreases |replies|
  {
    if replies == [] then s
    else
      var front := Front(s.jobs, key);
      if front.None? || front.value >= |s.jobs| then s
      else Drain(Next(s, Go(front.value, replies[0])), key, replies[1..])
  }

  lemma NextIsLess(s: State, j: nat, reply: Reply)
    requires j < |s.jobs| && !s.jobs[j].phase.Settled? && (s.jobs[j].phase.Waiting? ==> Ready(s, j))
    ensures Left(NextPhase(s, j, reply)) < Left(s.jobs[j].phase)
  {
  }

  lemma FrontIsReady(s: State, key: AgentKey)
    requires ChainInv(s) && Front(s.jobs, key).Some?
    ensures var f := Front(s.jobs, key).value;
            f < |s.jobs| && s.jobs[f].key == key && !s.jobs[f].phase.Settled? && Ready(s, f)
  {
    FrontIsOldest(s.jobs, key);
    var f := Front(s.jobs, key).value;
    assert LastBefore(s.jobs, f, s.jobs[f].key, s.jobs[f].prev);
  }

  lemma FrontCanMove(s: State, key: AgentKey, reply: Reply)
    requires ChainInv(s) && Front(s.jobs, key).Some?
    ensures var f := Front(s.jobs, key).value;
            f < |s.jobs| && Work(Next(s, Go(f, reply)).jobs, key) < Work(s.jobs, key)
  {
    FrontIsReady(s, key);
    var f := Front(s.jobs, key).value;
    NextIsLess(s, f, reply);
    WorkUpdate(s.jobs, f, NextPhase(s, f, reply), key);
    assert Next(s, Go(f, reply)).jobs == s.jobs[f := s.jobs[f].(phase := NextPhase(s, f, reply))];
  }

  /** A failing run never blocks the ones behind it: from any reachable state, and whatever each turn and each
      store replies (every one of them throwing included), letting the agent's runs go on settles them all. */
  lemma {:induction false} ChainDrains(s: State, key: AgentKey, replies: seq<Reply>)
    requires Inv(s) && |replies| >= Work(s.jobs, key)
    ensures forall j :: 0 <= j < |Drain(s, key, replies).jobs| && Drain(s, key, replies).jobs[j].key == key ==>
              Drain(s, key, replies).jobs[j].phase.Settled?
    decreases |replies|
  {
    FrontIsOldest(s.jobs, key);
    if Front(s.jobs, key).Some? {
      FrontCanMove(s, key, Returned);
      FrontCanMove(s, key, replies[0]);
      var step := Go(Front(s.jobs, key).value, replies[0]);
      StepKeepsInv(s, step);
      ChainDrains(Next(s, step), key, replies[1..]);
    }
  }
}
