/** Waking a conversation that armed a wait: events, the deadline sweep and every replica race for one durable
    intent, and claiming it is what entitles them to run the turn. */
module WakeResume {
  import opened Counting

  datatype Option<+T> = None | Some(value: T)

  /** Sessions and processes are only ever compared.  A restarted service is a new process. */
  type SessionId = nat
  type ProcessId = nat

  datatype Phase = Claiming | Minting | Running | Revoking(ok: bool) | Done(ok: bool)

  /** One call of `resume`.  `seen` is the arm the caller's snapshot showed, `claimed` the arm it claimed;
      `turns`, `mints` and `revokes` count what it did. */
  datatype Resume = Resume(process: ProcessId, session: SessionId, seen: nat, claimed: Option<nat>, phase: Phase,
                           turns: nat, mints: nat, revokes: nat)

  /** How an await ends.  A claim can throw with or without having reached the store. */
  datatype Reply = Returned | Threw | ThrewAfterClaim

  /** `arms` lists the session behind every arming of an intent; `armed` is the intent each session holds now. */
  datatype State = State(arms: seq<SessionId>, armed: map<SessionId, nat>, resumes: seq<Resume>,
                         inFlight: set<(ProcessId, SessionId)>, dead: set<ProcessId>)

  const START := State([], map[], [], {}, {})

  // ---------------------------------------------------------------- the atomic pieces, on values

  /** `wait_for`: arming again replaces the intent. */
  function DoArm(s: State, x: SessionId): State {
    s.(arms := s.arms + [x], armed := s.armed[x := |s.arms|])
  }

  /** The head of `resume`, up to the claim. */
  function DoBegin(s: State, p: ProcessId, x: SessionId, seen: nat, live: bool): State {
    if (p, x) in s.inFlight || live then s
    else s.(inFlight := s.inFlight + {(p, x)}, resumes := s.resumes + [Resume(p, x, seen, None, Claiming, 0, 0, 0)])
  }

  function Claimed(s: State, r: Resume, reply: Reply): Option<nat> {
    if r.phase.Claiming? && !reply.Threw? && r.session in s.armed then Some(s.armed[r.session]) else r.claimed
  }

  /** The next piece of a call: a lost or failed claim ends it, a minted token is revoked whatever the turn does. */
  function Onward(s: State, r: Resume, reply: Reply): Resume {
    match r.phase
    case Claiming =>
      r.(claimed := Claimed(s, r, reply), phase := if reply.Returned? && r.session in s.armed then Minting else Done(false))
    case Minting => if reply.Returned? then r.(phase := Running, mints := r.mints + 1, turns := r.turns + 1) else r.(phase := Done(false))
    case Running => r.(phase := Revoking(reply.Returned?), revokes := r.revokes + 1)
    case Revoking(ok) => r.(phase := Done(ok))
    case Done(_) => r
  }

  function DoGo(s: State, i: nat, reply: Reply): State
    requires i < |s.resumes|
  {
    var r := s.resumes[i];
    var t := Onward(s, r, reply);
    s.(resumes := s.resumes[i := t],
       armed := if r.phase.Claiming? && !reply.Threw? then s.armed - {r.session} else s.armed,
       inFlight := if t.phase.Done? && !r.phase.Done? then s.inFlight - {(r.process, r.session)} else s.inFlight)
  }

  // ---------------------------------------------------------------- runs of the machine

  datatype Step =
    | Arm(session: SessionId)
    | Disarm(session: SessionId)
    | Begin(process: ProcessId, session: SessionId, seen: nat, live: bool)
    | Go(resume: nat, reply: Reply)
    | Crash(process: ProcessId)

  /** A caller got the session from a listing, so it saw some arm of it.  A dead process takes no step. */
  function Next(s: State, step: Step): State {
    match step
    case Arm(x) => DoArm(s, x)
    case Disarm(x) => s.(armed := s.armed - {x})
    case Begin(p, x, seen, live) =>
      if p in s.dead || seen >= |s.arms| || s.arms[seen] != x then s else DoBegin(s, p, x, seen, live)
    case Go(i, reply) => if i >= |s.resumes| || s.resumes[i].process in s.dead then s else DoGo(s, i, reply)
    case Crash(p) => s.(dead := s.dead + {p})
  }

  function Reach(steps: seq<Step>): State {
    if steps == [] then START else Next(Reach(steps[..|steps| - 1]), steps[|steps| - 1])
  }

  lemma ReachPush(steps: seq<Step>, step: Step)
    ensures Reach(steps + [step]) == Next(Reach(steps), step)
  {
    assert (steps + [step])[..|steps|] == steps;
  }

  // ---------------------------------------------------------------- a turn for an arm

  /** An intent a session holds is its own and nobody has claimed it; claims are of the caller's session. */
  ghost predicate ClaimInv(s: State) {
    && (forall x :: x in s.armed ==> s.armed[x] < |s.arms| && s.arms[s.armed[x]] == x)
    && (forall i :: 0 <= i < |s.resumes| && s.resumes[i].claimed.Some? ==>
          && s.resumes[i].claimed.value < |s.arms| && s.arms[s.resumes[i].claimed.value] == s.resumes[i].session)
    && (forall i, x :: 0 <= i < |s.resumes| && x in s.armed ==> s.resumes[i].claimed != Some(s.armed[x]))
    && (forall i, j :: 0 <= i < j < |s.resumes| && s.resumes[i].claimed.Some? ==> s.resumes[i].claimed != s.resumes[j].claimed)
  }

  /** What a call has done by the phase it is in. */
  ghost predicate CallInv(r: Resume) {
    && r.turns == r.mints <= 1
    && (r.phase.Claiming? ==> r.claimed.None?)
    && (r.phase.Claiming? || r.phase.Minting? ==> r.mints == 0 && r.revokes == 0)
    && (r.phase.Minting? || r.mints == 1 ==> r.claimed.Some?)
    && (r.phase.Running? ==> r.mints == 1 && r.revokes == 0)
    && (r.phase.Revoking? ==> r.mints == 1 && r.revokes == 1)
    && (r.phase.Done? ==> r.revokes == r.mints)
  }

  lemma GoKeepsClaims(s: State, i: nat, reply: Reply)
    requires ClaimInv(s) && i < |s.resumes| && CallInv(s.resumes[i])
    ensures ClaimInv(DoGo(s, i, reply))
  {
    var t := DoGo(s, i, reply);
    assert forall j :: 0 <= j < |s.resumes| && j != i ==> t.resumes[j] == s.resumes[j];
    assert t.resumes[i].session == s.resumes[i].session;
    if t.resumes[i].claimed == s.resumes[i].claimed {
      assert forall j :: 0 <= j < |s.resumes| ==> t.resumes[j].claimed == s.resumes[j].claimed && t.resumes[j].session == s.resumes[j].session;
    }
  }

  ghost predicate CallsInv(s: State) {
    forall i :: 0 <= i < |s.resumes| ==> CallInv(s.resumes[i])
  }

  lemma StepKeepsCalls(s: State, step: Step)
    requires CallsInv(s)
    ensures CallsInv(Next(s, step))
  {
    match step {
      case Go(i, reply) => if i < |s.resumes| { assert CallInv(Onward(s, s.resumes[i], reply)); }
      case _ =>
    }
  }

  lemma StepKeepsClaims(s: State, step: Step)
    requires ClaimInv(s) && CallsInv(s)
    ensures ClaimInv(Next(s, step))
  {
    match step {
      case Go(i, reply) => if i < |s.resumes| { GoKeepsClaims(s, i, reply); }
      case _ =>
    }
  }

  lemma {:induction false} ReachClaims(steps: seq<Step>)
    ensures ClaimInv(Reach(steps)) && CallsInv(Reach(steps))
  {
    if steps != [] {
      ReachClaims(steps[..|steps| - 1]);
      StepKeepsCalls(Reach(steps[..|steps| - 1]), steps[|steps| - 1]);
      StepKeepsClaims(Reach(steps[..|steps| - 1]), steps[|steps| - 1]);
    }
  }

  /** Across events, sweeps, replicas and crashes, every woken turn is owed to an arm of its own session ... */
  lemma EveryTurnHasItsArm(steps: seq<Step>, i: nat)
    requires i < |Reach(steps).resumes| && Reach(steps).resumes[i].turns > 0
    ensures var s := Reach(steps);
            && s.resumes[i].turns == 1 && s.resumes[i].claimed.Some?
            && s.resumes[i].claimed.value < |s.arms| && s.arms[s.resumes[i].claimed.value] == s.resumes[i].session
  {
    ReachClaims(steps);
  }

  /** ... and no two turns, or claims, to the same one. */
  lemma NoArmIsClaimedTwice(steps: seq<Step>, i: nat, j: nat)
    requires i < |Reach(steps).resumes| && j < |Reach(steps).resumes| && i != j
    requires Reach(steps).resumes[i].claimed.Some?
    ensures Reach(steps).resumes[j].claimed != Reach(steps).resumes[i].claimed
  {
    ReachClaims(steps);
  }

  function TurnOf(x: SessionId): Resume -> bool { (r: Resume) => r.session == x && r.turns > 0 }
  function ClaimOf(x: SessionId): Resume -> bool { (r: Resume) => r.session == x && r.claimed.Some? }
  function Is(x: SessionId): SessionId -> bool { (y: SessionId) => x == y }

  ghost predicate Owed(s: State, x: SessionId) {
    Count(s.resumes, ClaimOf(x)) + (if x in s.armed then 1 else 0) <= Count(s.arms, Is(x))
  }

  lemma StepKeepsOwed(s: State, step: Step, x: SessionId)
    requires Owed(s, x) && CallsInv(s)
    ensures Owed(Next(s, step), x)
  {
    match step {
      case Arm(y) => CountPush(s.arms, y, Is(x));
      case Disarm(y) =>
      case Begin(p, y, seen, live) => CountPush(s.resumes, Resume(p, y, seen, None, Claiming, 0, 0, 0), ClaimOf(x));
      case Go(i, reply) => if i < |s.resumes| { CountUpdate(s.resumes, i, Onward(s, s.resumes[i], reply), ClaimOf(x)); }
      case Crash(p) =>
    }
  }

  lemma {:induction false} ReachOwed(steps: seq<Step>, x: SessionId)
    ensures Owed(Reach(steps), x)
  {
    if steps != [] {
      var n := |steps| - 1;
      ReachOwed(steps[..n], x);
      ReachClaims(steps[..n]);
      StepKeepsOwed(Reach(steps[..n]), steps[n], x);
    }
  }

  /** The turns woken for a session never exceed the times its intent was armed. */
  lemma TurnsNeverExceedArms(steps: seq<Step>, x: SessionId)
    ensures Count(Reach(steps).resumes, TurnOf(x)) <= Count(Reach(steps).arms, Is(x))
  {
    ReachOwed(steps, x);
    ReachClaims(steps);
    CountLe(Reach(steps).resumes, TurnOf(x), ClaimOf(x));
  }

  /** A token is minted at most once a call, and a call that has ended asked for the revocation of exactly the
      tokens it minted. */
  lemma EveryTokenIsRevoked(steps: seq<Step>, i: nat)
    requires i < |Reach(steps).resumes|
    ensures var r := Reach(steps).resumes[i];
            r.revokes <= r.mints <= 1 && (r.phase.Done? ==> r.revokes == r.mints)
  {
    ReachClaims(steps);
  }

  // ---------------------------------------------------------------- one resume at a time in a process

  /** The in-flight set holds exactly the sessions a process is resuming, each once. */
  ghost predicate FlightInv(s: State) {
    && (forall i :: 0 <= i < |s.resumes| && !s.resumes[i].phase.Done? ==> (s.resumes[i].process, s.resumes[i].session) in s.inFlight)
    && (forall i, j :: 0 <= i < j < |s.resumes| && !s.resumes[i].phase.Done? && !s.resumes[j].phase.Done? ==>
          s.resumes[i].process != s.resumes[j].process || s.resumes[i].session != s.resumes[j].session)
    && (forall f :: f in s.inFlight ==> exists i :: Flies(s, f, i))
  }

  ghost predicate Flies(s: State, f: (ProcessId, SessionId), i: int) {
    0 <= i < |s.resumes| && !s.resumes[i].phase.Done? && s.resumes[i].process == f.0 && s.resumes[i].session == f.1
  }

  lemma GoKeepsListed(s: State, i: nat, reply: Reply)
    requires FlightInv(s) && i < |s.resumes|
    ensures var t := DoGo(s, i, reply);
            forall j :: 0 <= j < |t.resumes| && !t.resumes[j].phase.Done? ==> (t.resumes[j].process, t.resumes[j].session) in t.inFlight
  {
    var t := DoGo(s, i, reply);
    assert forall j :: 0 <= j < |s.resumes| && j != i ==> t.resumes[j] == s.resumes[j];
    assert t.resumes[i].process == s.resumes[i].process && t.resumes[i].session == s.resumes[i].session;
  }

  lemma GoKeepsFlight(s: State, i: nat, reply: Reply)
    requires FlightInv(s) && i < |s.resumes|
    ensures FlightInv(DoGo(s, i, reply))
  {
    var t := DoGo(s, i, reply);
    GoKeepsListed(s, i, reply);
    assert forall j :: 0 <= j < |s.resumes| && j != i ==> t.resumes[j] == s.resumes[j];
    assert t.resumes[i].process == s.resumes[i].process && t.resumes[i].session == s.resumes[i].session;
    forall f | f in t.inFlight ensures exists j :: Flies(t, f, j) {
      var j :| Flies(s, f, j);
      assert Flies(t, f, j);
    }
  }

  lemma BeginKeepsFlight(s: State, p: ProcessId, x: SessionId, seen: nat, live: bool)
    requires FlightInv(s)
    ensures FlightInv(DoBegin(s, p, x, seen, live))
  {
    var t := DoBegin(s, p, x, seen, live);
    forall f | f in t.inFlight ensures exists j :: Flies(t, f, j) {
      if f in s.inFlight {
        var j :| Flies(s, f, j);
        assert Flies(t, f, j);
      } else {
        assert Flies(t, f, |s.resumes|);
      }
    }
  }

  lemma SameKeepsFlight(s: State, t: State)
    requires FlightInv(s) && t.resumes == s.resumes && t.inFlight == s.inFlight
    ensures FlightInv(t)
  {
    forall f | f in t.inFlight ensures exists j :: Flies(t, f, j) {
      var j :| Flies(s, f, j);
      assert Flies(t, f, j);
    }
  }

  lemma {:induction false} ReachFlight(steps: seq<Step>)
    ensures FlightInv(Reach(steps))
  {
    if steps != [] {
      var n := |steps| - 1;
      var s := Reach(steps[..n]);
      ReachFlight(steps[..n]);
      match steps[n] {
        case Begin(p, x, seen, live) => BeginKeepsFlight(s, p, x, seen, live);
        case Go(i, reply) => if i < |s.resumes| { GoKeepsFlight(s, i, reply); }
        case _ => SameKeepsFlight(s, Reach(steps));
      }
    }
  }

  /** One process never resumes a session twice at once, and refuses a session only while it is resuming it. */
  lemma OneResumePerProcess(steps: seq<Step>, p: ProcessId, x: SessionId)
    ensures forall i, j :: Flies(Reach(steps), (p, x), i) && Flies(Reach(steps), (p, x), j) ==> i == j
    ensures (p, x) in Reach(steps).inFlight <==> exists i :: Flies(Reach(steps), (p, x), i)
  {
    ReachFlight(steps);
  }

  // ---------------------------------------------------------------- what the claim promises, exactly

  /** The intent a session holds is its latest arm, later than any claimed; a caller saw an arm of its session. */
  ghost predicate NewestInv(s: State) {
    && (forall x, k :: x in s.armed && s.armed[x] < k < |s.arms| ==> s.arms[k] != x)
    && (forall x :: x in s.armed ==> s.armed[x] < |s.arms| && s.arms[s.armed[x]] == x)
    && (forall i :: 0 <= i < |s.resumes| && s.resumes[i].session in s.armed && s.resumes[i].claimed.Some? ==>
          s.armed[s.resumes[i].session] > s.resumes[i].claimed.value)
    && (forall i :: 0 <= i < |s.resumes| && s.resumes[i].claimed.Some? ==> s.resumes[i].claimed.value < |s.arms|)
    && (forall i :: 0 <= i < |s.resumes| ==> s.resumes[i].seen < |s.arms| && s.arms[s.resumes[i].seen] == s.resumes[i].session)
  }

  lemma GoKeepsNewest(s: State, i: nat, reply: Reply)
    requires NewestInv(s) && i < |s.resumes|
    ensures NewestInv(DoGo(s, i, reply))
  {
    var t := DoGo(s, i, reply);
    assert forall j :: 0 <= j < |s.resumes| && j != i ==> t.resumes[j] == s.resumes[j];
    assert t.resumes[i].session == s.resumes[i].session && t.resumes[i].seen == s.resumes[i].seen;
  }

  lemma ArmKeepsNewest(s: State, x: SessionId)
    requires NewestInv(s)
    ensures NewestInv(DoArm(s, x))
  {
    assert forall k :: 0 <= k < |s.arms| ==> DoArm(s, x).arms[k] == s.arms[k];
  }

  lemma StepKeepsNewest(s: State, step: Step)
    requires NewestInv(s)
    ensures NewestInv(Next(s, step))
  {
    match step {
      case Arm(x) => ArmKeepsNewest(s, x);
      case Go(i, reply) => if i < |s.resumes| { GoKeepsNewest(s, i, reply); }
      case _ =>
    }
  }

  lemma {:induction false} ReachNewest(steps: seq<Step>)
    ensures NewestInv(Reach(steps))
  {
    if steps != [] {
      ReachNewest(steps[..|steps| - 1]);
      StepKeepsNewest(Reach(steps[..|steps| - 1]), steps[|steps| - 1]);
    }
  }

  lemma ClaimTakes(s: State, i: nat)
    requires NewestInv(s) && i < |s.resumes| && s.resumes[i].phase.Claiming? && s.resumes[i].claimed.None?
    ensures var r := s.resumes[i];
            var claimed := DoGo(s, i, Returned).resumes[i].claimed;
            && claimed == (if r.session in s.armed then Some(s.armed[r.session]) else None)
            && (claimed == Some(r.seen)
                <==> r.session in s.armed && forall k :: r.seen < k < |s.arms| ==> s.arms[k] != r.session)
  {
  }

  /** The claim clears whatever intent the session holds.  So a resume chosen for one arm claims that arm if and
      only if the session still holds an intent and was not armed again since; armed again, it claims the newer
      arm, whose wait its event may not match. */
  lemma ClaimTakesTheSeenArmIff(steps: seq<Step>, i: nat)
    requires i < |Reach(steps).resumes| && Reach(steps).resumes[i].phase.Claiming?
    requires Reach(steps).resumes[i].process !in Reach(steps).dead
    ensures var s := Reach(steps);
            var r := s.resumes[i];
            var t := Reach(steps + [Go(i, Returned)]);
            && i < |t.resumes|
            && (t.resumes[i].claimed == Some(r.seen)
                <==> r.session in s.armed && forall k :: r.seen < k < |s.arms| ==> s.arms[k] != r.session)
            && (r.session in s.armed ==> t.resumes[i].claimed == Some(s.armed[r.session]))
  {
    var s := Reach(steps);
    ReachPush(steps, Go(i, Returned));
    ReachNewest(steps);
    ReachClaims(steps);
    assert CallInv(s.resumes[i]);
    ClaimTakes(s, i);
  }

  /** Nothing of a session can be claimed after one of its claims but an arm made after it. */
  ghost predicate OnlyNewer(s: State, x: SessionId, i: nat, n: nat) {
    && (x in s.armed ==> s.armed[x] >= n)
    && (i < |s.resumes| && s.resumes[i].session == x && s.resumes[i].claimed.Some? ==> s.resumes[i].claimed.value >= n)
  }

  lemma StepKeepsOnlyNewer(s: State, step: Step, x: SessionId, i: nat, n: nat)
    requires OnlyNewer(s, x, i, n) && n <= |s.arms|
    ensures OnlyNewer(Next(s, step), x, i, n) && n <= |Next(s, step).arms|
  {
  }

  /** A claim is no lock across processes, but a second turn of the session needs a second arm: after a claim has
      left the session without an intent, whoever claims next claims an arm made since. */
  lemma {:induction false} NextClaimNeedsANewArm(steps: seq<Step>, more: seq<Step>, x: SessionId, j: nat)
    requires x !in Reach(steps).armed
    requires j < |Reach(steps).resumes| ==> Reach(steps).resumes[j].claimed.None?
    ensures OnlyNewer(Reach(steps + more), x, j, |Reach(steps).arms|) && |Reach(steps).arms| <= |Reach(steps + more).arms|
  {
    if more == [] {
      assert steps + more == steps;
    } else {
      var n := |more| - 1;
      NextClaimNeedsANewArm(steps, more[..n], x, j);
      StepKeepsOnlyNewer(Reach(steps + more[..n]), more[n], x, j, |Reach(steps).arms|);
      ReachPush(steps + more[..n], more[n]);
      assert steps + more == steps + more[..n] + [more[n]];
    }
  }

  /** And the arm is all it needs: beside a running turn, another process that is alive and not resuming the
      session gets a turn of its own if and only if the session holds an intent again, and then it is a later
      one than the running turn's. */
  lemma ReplicasOverlapIffArmedAgain(steps: seq<Step>, i: nat, q: ProcessId, seen: nat)
    requires i < |Reach(steps).resumes| && Reach(steps).resumes[i].phase.Running?
    requires q !in Reach(steps).dead && (q, Reach(steps).resumes[i].session) !in Reach(steps).inFlight
    requires seen < |Reach(steps).arms| && Reach(steps).arms[seen] == Reach(steps).resumes[i].session
    ensures var s := Reach(steps);
            var x, j := s.resumes[i].session, |s.resumes|;
            var t := Reach(steps + [Begin(q, x, seen, false)] + [Go(j, Returned)] + [Go(j, Returned)]);
            && |t.resumes| == j + 1 && t.resumes[i].phase.Running?
            && (t.resumes[j].phase.Running? <==> x in s.armed)
            && (x in s.armed ==> t.resumes[j].claimed == Some(s.armed[x]) && s.resumes[i].claimed.Some?
                                 && s.armed[x] > s.resumes[i].claimed.value)
  {
    var s := Reach(steps);
    var x, j := s.resumes[i].session, |s.resumes|;
    var b := steps + [Begin(q, x, seen, false)];
    ReachNewest(steps);
    ReachClaims(steps);
    assert CallInv(s.resumes[i]);
    ReachPush(steps, Begin(q, x, seen, false));
    ReachPush(b, Go(j, Returned));
    ReachPush(b + [Go(j, Returned)], Go(j, Returned));
  }

  // ---------------------------------------------------------------- the resumer

  class WakeResumer {
    var arms: seq<SessionId>
    var armed: map<SessionId, nat>
    var resumes: seq<Resume>
    var inFlight: set<(ProcessId, SessionId)>
    var dead: set<ProcessId>

    ghost function View(): State reads this { State(arms, armed, resumes, inFlight, dead) }

    constructor ()
      ensures View() == START
    {
      arms, armed, resumes, inFlight, dead := [], map[], [], {}, {};
    }

    /** The head of `resume`: refuse a session this process is resuming, or that is live. */
    method Begin(p: ProcessId, x: SessionId, seen: nat, live: bool) returns (begun: bool)
      modifies this`resumes, this`inFlight
      ensures View() == DoBegin(old(View()), p, x, seen, live)
      ensures begun <==> (p, x) !in old(inFlight) && !live
    {
      if (p, x) in inFlight || live { return false; }
      inFlight := inFlight + {(p, x)};
      resumes := resumes + [Resume(p, x, seen, None, Claiming, 0, 0, 0)];
      return true;
    }

    /** What call `i` awaits ends with `reply`. */
    method Continue(i: nat, reply: Reply)
      requires i < |resumes|
      modifies this
      ensures View() == DoGo(old(View()), i, reply)
    {
      var r := resumes[i];
      match r.phase {
        case Claiming =>
          var won := r.session in armed;
          if !reply.Threw? && won {
            r := r.(claimed := Some(armed[r.session]));
            armed := armed - {r.session};
          }
          r := r.(phase := if reply.Returned? && won then Minting else Done(false));
        case Minting =>
          if reply.Returned? {
            r := r.(phase := Running, mints := r.mints + 1, turns := r.turns + 1);
          } else {
            r := r.(phase := Done(false));
          }
        case Running => r := r.(phase := Revoking(reply.Returned?), revokes := r.revokes + 1);
        case Revoking(ok) => r := r.(phase := Done(ok));
        case Done(_) =>
          assert resumes == resumes[i := r];
          return;
      }
      if r.phase.Done? { inFlight := inFlight - {(r.process, r.session)}; }
      resumes := resumes[i := r];
    }

    /** A whole call of `resume` with nothing interleaved: the replies of the claim, the mint and the turn. */
    method ResumeOne(p: ProcessId, x: SessionId, seen: nat, live: bool, claim: Reply, mint: Reply, turn: Reply) returns (ok: bool)
      modifies this
      ensures inFlight == old(inFlight) && arms == old(arms)
      ensures ok <==> (p, x) !in old(inFlight) && !live && x in old(armed) && claim.Returned? && mint.Returned? && turn.Returned?
      ensures armed == if (p, x) !in old(inFlight) && !live && !claim.Threw? then old(armed) - {x} else old(armed)
    {
      var begun := Begin(p, x, seen, live);
      if !begun { return false; }
      var i := |resumes| - 1;
      Continue(i, claim);
      if resumes[i].phase.Minting? { Continue(i, mint); }
      if resumes[i].phase.Running? {
        Continue(i, turn);
        Continue(i, Returned);
      }
      ok := resumes[i].phase.Done? && resumes[i].phase.ok;
    }

    /** The loop behind an event and behind the deadline sweep, with nothing interleaved: `due` is the listing,
        `live` the sessions found live when their turn comes, and `replies` what each claim, mint and turn comes to.
        A listed session stays armed exactly when it is skipped (live, or being resumed here) or its claim never
        reached the store; and each resumed one consumed an intent of its own. */
    method ResumeEach(p: ProcessId, due: seq<(SessionId, nat)>, live: seq<bool>, replies: seq<(Reply, Reply, Reply)>)
      returns (resumed: nat)
      requires |live| == |replies| == |due|
      modifies this
      ensures inFlight == old(inFlight) && arms == old(arms)
      ensures armed.Items <= old(armed).Items && |armed| + resumed <= |old(armed)|
      ensures forall x :: x in armed <==> x in old(armed) && !exists k :: Disarms(p, due, live, replies, old(inFlight), k, x)
    {
      resumed := 0;
      for n := 0 to |due|
        invariant inFlight == old(inFlight) && arms == old(arms)
        invariant armed.Items <= old(armed).Items && |armed| + resumed <= |old(armed)|
        invariant forall x :: x in armed <==> x in old(armed) && !exists k :: k < n && Disarms(p, due, live, replies, inFlight, k, x)
      {
        var x := due[n].0;
        ghost var before := armed;
        var ok := ResumeOne(p, x, due[n].1, live[n], replies[n].0, replies[n].1, replies[n].2);
        Disarmed(before, x);
        forall y ensures y in armed <==> y in old(armed) && !exists k :: k < n + 1 && Disarms(p, due, live, replies, inFlight, k, y) {
          if y in before && y !in armed { assert Disarms(p, due, live, replies, inFlight, n, y); }
          if k :| k < n + 1 && Disarms(p, due, live, replies, inFlight, k, y) { assert k == n || k < n; }
        }
        if ok { resumed := resumed + 1; }
      }
    }
  }

  /** Entry `k` of the listing reaches the store with its claim, and is of session `x`. */
  ghost predicate Disarms(p: ProcessId, due: seq<(SessionId, nat)>, live: seq<bool>, replies: seq<(Reply, Reply, Reply)>,
                          inFlight: set<(ProcessId, SessionId)>, k: int, x: SessionId) {
    && 0 <= k < |due| && k < |live| && k < |replies|
    && due[k].0 == x && !live[k] && (p, x) !in inFlight && !replies[k].0.Threw?
  }

  lemma Disarmed(armed: map<SessionId, nat>, x: SessionId)
    ensures (armed - {x}).Items <= armed.Items
    ensures |armed - {x}| == |armed| - if x in armed then 1 else 0
  {
    assert (armed - {x}).Keys == armed.Keys - {x};
    assert |armed| == |armed.Keys| && |armed - {x}| == |(armed - {x}).Keys|;
  }
}
