/** Runs stranded by a process death: any number of sweepers race to claim each by a compare-and-set on status
    and staleness, and every claimed run is either resumed or reported failed. */
module OrphanSweep {

  type SessionId = nat

  datatype Status = Running | Failed | Other

  /** A session row: its status, when it was last written, and whether its origin is a trigger and names an agent. */
  datatype Row = Row(status: Status, touched: int, trigger: bool, agent: bool)

  /** What a deployment wired: the continuation resume, and the lifecycle report. */
  datatype Config = Config(resumer: bool, reporter: bool)

  datatype Phase = Claiming | Resuming | Reporting | Handled

  /** One orphan in one sweeper's hands, from its listing on.  `boot` is that sweeper's boot instant. */
  datatype Case = Case(session: SessionId, boot: int, trigger: bool, agent: bool, phase: Phase, claimed: bool, resumed: bool, reports: nat)

  /** A claim that won: who, when, and how stale the row was. */
  datatype Claim = Claim(session: SessionId, boot: int, at: int, touched: int)

  datatype State = State(clock: int, rows: map<SessionId, Row>, cases: seq<Case>, claims: seq<Claim>)

  predicate Stale(rows: map<SessionId, Row>, x: SessionId, boot: int) {
    x in rows && rows[x].status.Running? && rows[x].touched < boot
  }

  // ---------------------------------------------------------------- the atomic pieces, on values

  /** The store's compare-and-set: it settles the row as failed, now, or refuses. */
  function DoClaim(s: State, x: SessionId, boot: int): State {
    if !Stale(s.rows, x, boot) then s
    else
      s.(rows := s.rows[x := s.rows[x].(status := Failed, touched := s.clock)],
         claims := s.claims + [Claim(x, boot, s.clock, s.rows[x].touched)])
  }

  function AfterResume(c: Config, k: Case): Case {
    if k.agent then k.(phase := Reporting, reports := k.reports + if c.reporter then 1 else 0) else k.(phase := Handled)
  }

  /** `ok`: the claim reached the store; the resume answered that it resumed. */
  function Onward(c: Config, s: State, k: Case, ok: bool): Case {
    match k.phase
    case Claiming =>
      if !ok || !Stale(s.rows, k.session, k.boot) then k.(phase := Handled)
      else if c.resumer && k.trigger then k.(claimed := true, phase := Resuming)
      else AfterResume(c, k.(claimed := true))
    case Resuming => if ok then k.(resumed := true, phase := Handled) else AfterResume(c, k)
    case Reporting => k.(phase := Handled)
    case Handled => k
  }

  function DoGo(c: Config, s: State, i: nat, ok: bool): State
    requires i < |s.cases|
  {
    var k := s.cases[i];
    var t := if k.phase.Claiming? && ok then DoClaim(s, k.session, k.boot) else s;
    t.(cases := s.cases[i := Onward(c, s, k, ok)])
  }

  // ---------------------------------------------------------------- runs of the machine

  datatype Step =
    | Pass(time: nat)                                 // time
    | Write(session: SessionId, row: Row)             // a live run, a resumed one or anybody else writes the row now
    | Pick(session: SessionId, boot: int)             // a sweeper that booted at `boot` got the row in its listing
    | Go(kase: nat, ok: bool)

  function Next(c: Config, s: State, step: Step): State {
    match step
    case Pass(time) => s.(clock := s.clock + time)
    case Write(x, row) => s.(rows := s.rows[x := row.(touched := s.clock)])
    case Pick(x, boot) =>
      if x !in s.rows || boot > s.clock then s
      else s.(cases := s.cases + [Case(x, boot, s.rows[x].trigger, s.rows[x].agent, Claiming, false, false, 0)])
    case Go(i, ok) => if i < |s.cases| then DoGo(c, s, i, ok) else s
  }

  /** Any rows may be there at the start, none of them written in the future. */
  function Start(rows: map<SessionId, Row>, clock: int): State {
    State(clock, map x | x in rows && rows[x].touched <= clock :: rows[x], [], [])
  }

  function Reach(c: Config, start: State, steps: seq<Step>): State {
    if steps == [] then start else Next(c, Reach(c, start, steps[..|steps| - 1]), steps[|steps| - 1])
  }

  ghost predicate ClockInv(s: State) {
    && (forall x :: x in s.rows ==> s.rows[x].touched <= s.clock)
    && (forall i :: 0 <= i < |s.cases| ==> s.cases[i].boot <= s.clock)
    && (forall i :: 0 <= i < |s.claims| ==>
          && s.claims[i].boot <= s.claims[i].at <= s.clock && s.claims[i].touched < s.claims[i].boot
          && s.claims[i].session in s.rows && s.claims[i].at <= s.rows[s.claims[i].session].touched)
    && (forall i, j :: 0 <= i < j < |s.claims| && s.claims[i].session == s.claims[j].session ==> s.claims[i].at < s.claims[j].boot)
  }

  lemma ClaimKeepsClock(s: State, x: SessionId, boot: int)
    requires ClockInv(s) && boot <= s.clock
    ensures ClockInv(DoClaim(s, x, boot))
  {
    if Stale(s.rows, x, boot) {
      var t := DoClaim(s, x, boot);
      assert forall i :: 0 <= i < |s.claims| ==> t.claims[i] == s.claims[i];
    }
  }

  lemma MoveKeepsClock(c: Config, s: State, t: State, i: nat, ok: bool)
    requires ClockInv(t) && i < |s.cases| && t.cases == s.cases
    ensures ClockInv(t.(cases := s.cases[i := Onward(c, s, s.cases[i], ok)]))
  {
    assert Onward(c, s, s.cases[i], ok).boot == s.cases[i].boot;
  }

  lemma StepKeepsClock(c: Config, s: State, step: Step)
    requires ClockInv(s)
    ensures ClockInv(Next(c, s, step))
  {
    match step {
      case Go(i, ok) =>
        if i < |s.cases| {
          ClaimKeepsClock(s, s.cases[i].session, s.cases[i].boot);
          MoveKeepsClock(c, s, if s.cases[i].phase.Claiming? && ok then DoClaim(s, s.cases[i].session, s.cases[i].boot) else s, i, ok);
        }
      case _ =>
    }
  }

  lemma {:induction false} ReachClock(c: Config, rows: map<SessionId, Row>, clock: int, steps: seq<Step>)
    ensures ClockInv(Reach(c, Start(rows, clock), steps))
  {
    if steps != [] {
      ReachClock(c, rows, clock, steps[..|steps| - 1]);
      StepKeepsClock(c, Reach(c, Start(rows, clock), steps[..|steps| - 1]), steps[|steps| - 1]);
    }
  }

  /** No claim ever takes a run written at or after the claimer's boot. */
  lemma ClaimsAreStale(c: Config, rows: map<SessionId, Row>, clock: int, steps: seq<Step>, i: nat)
    requires i < |Reach(c, Start(rows, clock), steps).claims|
    ensures var claim := Reach(c, Start(rows, clock), steps).claims[i];
            claim.touched < claim.boot <= claim.at
  {
    ReachClock(c, rows, clock, steps);
  }

  /** Whoever claims a session again booted after the earlier claim. */
  lemma SecondClaimNeedsALaterBoot(c: Config, rows: map<SessionId, Row>, clock: int, steps: seq<Step>, i: nat, j: nat)
    requires i < j < |Reach(c, Start(rows, clock), steps).claims|
    requires Reach(c, Start(rows, clock), steps).claims[i].session == Reach(c, Start(rows, clock), steps).claims[j].session
    ensures var claims := Reach(c, Start(rows, clock), steps).claims;
            claims[i].boot <= claims[i].at < claims[j].boot
  {
    ReachClock(c, rows, clock, steps);
  }

  /** So sweepers of one deployment, which share their boot instant, claim each stranded run at most once. */
  lemma OneBootClaimsOnce(c: Config, rows: map<SessionId, Row>, clock: int, steps: seq<Step>, boot: int)
    requires forall k :: k in Reach(c, Start(rows, clock), steps).claims ==> k.boot == boot
    ensures var claims := Reach(c, Start(rows, clock), steps).claims;
            forall i, j :: 0 <= i < j < |claims| ==> claims[i].session != claims[j].session
  {
    var claims := Reach(c, Start(rows, clock), steps).claims;
    forall i, j | 0 <= i < j < |claims| ensures claims[i].session != claims[j].session {
      if claims[i].session == claims[j].session { SecondClaimNeedsALaterBoot(c, rows, clock, steps, i, j); }
      assert claims[i] in claims && claims[j] in claims;
    }
  }

  lemma ReachPush(c: Config, start: State, steps: seq<Step>, step: Step)
    ensures Reach(c, start, steps + [step]) == Next(c, Reach(c, start, steps), step)
  {
    assert (steps + [step])[..|steps|] == steps;
  }

  /** The standing assumption is needed, and exactly so: in every reachable state a sweeper gets to claim a
      running session if and only if it booted after the session was last written.  One that boots while another
      process runs the session, and sweeps before the next write, claims that live run. */
  lemma ClaimsIffBootedAfterTheLastWrite(c: Config, rows: map<SessionId, Row>, clock: int, steps: seq<Step>, x: SessionId, boot: int)
    requires var s := Reach(c, Start(rows, clock), steps);
             x in s.rows && s.rows[x].status.Running? && boot <= s.clock
    ensures var s := Reach(c, Start(rows, clock), steps);
            var t := Reach(c, Start(rows, clock), steps + [Pick(x, boot)] + [Go(|s.cases|, true)]);
            && (t.claims != s.claims <==> boot > s.rows[x].touched)
            && (t.claims != s.claims ==> t.claims == s.claims + [Claim(x, boot, s.clock, s.rows[x].touched)])
  {
    var start, n := Start(rows, clock), |Reach(c, Start(rows, clock), steps).cases|;
    ReachPush(c, start, steps, Pick(x, boot));
    ReachPush(c, start, steps + [Pick(x, boot)], Go(n, true));
  }

  // ---------------------------------------------------------------- resumed or reported, never both

  ghost predicate CaseInv(c: Config, k: Case) {
    && (!k.claimed ==> !k.resumed && k.reports == 0 && (k.phase.Claiming? || k.phase.Handled?))
    && (k.resumed ==> k.claimed && k.phase.Handled?)
    && (k.phase.Claiming? ==> !k.claimed)
    && (k.phase.Claiming? || k.phase.Resuming? || k.resumed ==> k.reports == 0)
    && (k.claimed && !k.resumed && !k.phase.Resuming? ==> k.reports == if k.agent && c.reporter then 1 else 0)
  }

  lemma {:induction false} ReachCases(c: Config, rows: map<SessionId, Row>, clock: int, steps: seq<Step>)
    ensures forall i :: 0 <= i < |Reach(c, Start(rows, clock), steps).cases| ==> CaseInv(c, Reach(c, Start(rows, clock), steps).cases[i])
  {
    if steps != [] {
      var n := |steps| - 1;
      var s := Reach(c, Start(rows, clock), steps[..n]);
      ReachCases(c, rows, clock, steps[..n]);
      match steps[n] {
        case Go(i, ok) => if i < |s.cases| { assert CaseInv(c, Onward(c, s, s.cases[i], ok)); }
        case _ =>
      }
    }
  }

  /** Every claimed run of an agent comes out either resumed or reported failed once, never both; a run that
      was not claimed comes out neither. */
  lemma ResumedXorReported(c: Config, rows: map<SessionId, Row>, clock: int, steps: seq<Step>, i: nat)
    requires i < |Reach(c, Start(rows, clock), steps).cases|
    ensures var k := Reach(c, Start(rows, clock), steps).cases[i];
            && !(k.resumed && k.reports > 0) && k.reports <= 1
            && (k.phase.Handled? && k.claimed && k.agent && c.reporter ==> k.resumed != (k.reports == 1))
            && (!k.claimed ==> !k.resumed && k.reports == 0)
  {
    ReachCases(c, rows, clock, steps);
  }

  /** One of these steps ended the wait for the resume of case `i` with this answer. */
  ghost predicate Answered(c: Config, start: State, steps: seq<Step>, i: nat, ok: bool) {
    if steps == [] then false
    else
      var n := |steps| - 1;
      var s := Reach(c, start, steps[..n]);
      Answered(c, start, steps[..n], i, ok) || (steps[n] == Go(i, ok) && i < |s.cases| && s.cases[i].phase.Resuming?)
  }

  /** How a case stands to the answers its resume has had so far. */
  ghost predicate AnswerFits(c: Config, k: Case, yes: bool, no: bool) {
    && (k.resumed <==> yes) && !(yes && no)
    && (yes || no || k.phase.Resuming? ==> k.claimed && c.resumer && k.trigger)
    && (k.phase.Claiming? || k.phase.Resuming? ==> !yes && !no)
    && (k.phase.Claiming? ==> !k.claimed)
    && (k.claimed && c.resumer && k.trigger && !k.phase.Resuming? ==> yes || no)
  }

  lemma OnwardFits(c: Config, s: State, k: Case, ok: bool, yes: bool, no: bool)
    requires AnswerFits(c, k, yes, no)
    ensures AnswerFits(c, Onward(c, s, k, ok), yes || (k.phase.Resuming? && ok), no || (k.phase.Resuming? && !ok))
  {
  }

  lemma {:induction false} AnswersFit(c: Config, start: State, steps: seq<Step>, i: nat)
    requires start.cases == []
    ensures var s, yes, no := Reach(c, start, steps), Answered(c, start, steps, i, true), Answered(c, start, steps, i, false);
            if i < |s.cases| then AnswerFits(c, s.cases[i], yes, no) else !yes && !no
  {
    if steps != [] {
      var n := |steps| - 1;
      var s := Reach(c, start, steps[..n]);
      AnswersFit(c, start, steps[..n], i);
      match steps[n] {
        case Go(j, ok) =>
          if i == j && i < |s.cases| {
            OnwardFits(c, s, s.cases[i], ok, Answered(c, start, steps[..n], i, true), Answered(c, start, steps[..n], i, false));
          }
        case _ =>
      }
    }
  }

  /** A run is resumed if and only if its resume was asked for and succeeded; and it was asked for exactly for the
      claimed runs of a trigger, where a resumer is wired: none of them is handled before its resume answers. */
  lemma ResumedIffItsResumeSucceeds(c: Config, rows: map<SessionId, Row>, clock: int, steps: seq<Step>, i: nat)
    requires i < |Reach(c, Start(rows, clock), steps).cases|
    ensures var k := Reach(c, Start(rows, clock), steps).cases[i];
            var yes, no := Answered(c, Start(rows, clock), steps, i, true), Answered(c, Start(rows, clock), steps, i, false);
            && (k.resumed <==> yes) && !(yes && no)
            && (yes || no ==> k.claimed && c.resumer && k.trigger)
            && (k.phase.Handled? && k.claimed && c.resumer && k.trigger ==> yes || no)
  {
    AnswersFit(c, Start(rows, clock), steps, i);
  }

  /** Only the sweeper whose claim won goes on: the calls that won are as many as the claims. */
  function WonCount(cases: seq<Case>): nat {
    if cases == [] then 0 else WonCount(cases[..|cases| - 1]) + if cases[|cases| - 1].claimed then 1 else 0
  }

  lemma {:induction false} WonUpdate(cases: seq<Case>, i: nat, k: Case)
    requires i < |cases|
    ensures WonCount(cases[i := k]) + (if cases[i].claimed then 1 else 0) == WonCount(cases) + (if k.claimed then 1 else 0)
  {
    var n := |cases| - 1;
    if i == n {
      assert cases[i := k][..n] == cases[..n];
    } else {
      WonUpdate(cases[..n], i, k);
      assert cases[i := k][..n] == cases[..n][i := k];
    }
  }

  lemma GoKeepsWinners(c: Config, s: State, i: nat, ok: bool)
    requires i < |s.cases| && CaseInv(c, s.cases[i]) && WonCount(s.cases) == |s.claims|
    ensures WonCount(DoGo(c, s, i, ok).cases) == |DoGo(c, s, i, ok).claims|
  {
    WonUpdate(s.cases, i, Onward(c, s, s.cases[i], ok));
  }

  lemma PickKeepsWinners(cases: seq<Case>, k: Case)
    requires !k.claimed
    ensures WonCount(cases + [k]) == WonCount(cases)
  {
    assert (cases + [k])[..|cases|] == cases;
  }

  lemma {:induction false} OneWinnerPerClaim(c: Config, rows: map<SessionId, Row>, clock: int, steps: seq<Step>)
    ensures WonCount(Reach(c, Start(rows, clock), steps).cases) == |Reach(c, Start(rows, clock), steps).claims|
  {
    if steps != [] {
      var n := |steps| - 1;
      var s := Reach(c, Start(rows, clock), steps[..n]);
      OneWinnerPerClaim(c, rows, clock, steps[..n]);
      ReachCases(c, rows, clock, steps[..n]);
      match steps[n] {
        case Pick(x, boot) =>
          if x in s.rows { PickKeepsWinners(s.cases, Case(x, boot, s.rows[x].trigger, s.rows[x].agent, Claiming, false, false, 0)); }
        case Go(i, ok) => if i < |s.cases| { GoKeepsWinners(c, s, i, ok); }
        case _ =>
      }
    }
  }

  // ---------------------------------------------------------------- one sweep

  class OrphanSweeper {
    const config: Config
    const boot: int
    var clock: int
    var rows: map<SessionId, Row>
    var cases: seq<Case>
    var claims: seq<Claim>

    ghost function View(): State reads this { State(clock, rows, cases, claims) }

    constructor (c: Config, bootAt: int, now: int, stored: map<SessionId, Row>)
      ensures View() == State(now, stored, [], []) && config == c && boot == bootAt
    {
      config, boot, clock, rows, cases, claims := c, bootAt, now, stored, [], [];
    }

    /** The store's compare-and-set. */
    method ClaimOrphanedRun(x: SessionId) returns (won: bool)
      modifies this`rows, this`claims
      ensures View() == DoClaim(old(View()), x, boot) && won == Stale(old(rows), x, boot)
    {
      if x !in rows || rows[x].status != Running || rows[x].touched >= boot { return false; }
      claims := claims + [Claim(x, boot, clock, rows[x].touched)];
      rows := rows[x := rows[x].(status := Failed, touched := clock)];
      return true;
    }

    /** The orphan in case `i`, one await further. */
    method Continue(i: nat, ok: bool)
      requires i < |cases| && cases[i].boot == boot
      modifies this`rows, this`claims, this`cases
      ensures View() == DoGo(config, old(View()), i, ok)
      ensures CaseInv(config, old(cases)[i]) ==> CaseInv(config, cases[i])
    {
      var k := cases[i];
      match k.phase {
        case Claiming =>
          var won := false;
          if ok { won := ClaimOrphanedRun(k.session); }
          if !won {
            k := k.(phase := Handled);
          } else if config.resumer && k.trigger {
            k := k.(claimed := true, phase := Resuming);
          } else {
            k := AfterResume(config, k.(claimed := true));
          }
        case Resuming => k := if ok then k.(resumed := true, phase := Handled) else AfterResume(config, k);
        case Reporting => k := k.(phase := Handled);
        case Handled =>
      }
      cases := cases[i := k];
    }

    /** One listed orphan, from the claim to its report; `resumes` says whether its resume succeeds. */
    method SweepOne(x: SessionId, resumes: bool) returns (won: bool)
      requires boot <= clock && x in rows
      modifies this`rows, this`claims, this`cases
      ensures won == Stale(old(rows), x, boot)
      ensures rows == if won then old(rows)[x := old(rows)[x].(status := Failed, touched := clock)] else old(rows)
      ensures |claims| == |old(claims)| + if won then 1 else 0
      ensures |cases| == |old(cases)| + 1 && old(cases) <= cases
      ensures var k, row := cases[|old(cases)|], old(rows)[x];
              && k.session == x && k.phase.Handled? && k.claimed == won
              && k.resumed == (won && config.resumer && row.trigger && resumes)
              && k.reports == if won && !k.resumed && row.agent && config.reporter then 1 else 0
    {
      var i := |cases|;
      cases := cases + [Case(x, boot, rows[x].trigger, rows[x].agent, Claiming, false, false, 0)];
      Continue(i, true);
      won := cases[i].claimed;
      if cases[i].phase.Resuming? { Continue(i, resumes); }
      if cases[i].phase.Reporting? { Continue(i, true); }
    }

    /** A whole sweep of a listing with nothing interleaved; `resumes` says which resumes succeed.  Afterwards
        nothing listed is stranded any more, nothing else was touched, and the count is the claims it won. */
    method Sweep(listed: seq<SessionId>, resumes: set<SessionId>) returns (claimed: nat)
      requires boot <= clock && forall i :: 0 <= i < |listed| ==> listed[i] in rows
      modifies this`rows, this`claims, this`cases
      ensures rows.Keys == old(rows).Keys
      ensures forall i :: 0 <= i < |listed| ==> !Stale(rows, listed[i], boot)
      ensures forall x :: x in rows && (x !in listed || !Stale(old(rows), x, boot)) ==> rows[x] == old(rows)[x]
      ensures |claims| == |old(claims)| + claimed
    {
      claimed := 0;
      for n := 0 to |listed|
        invariant rows.Keys == old(rows).Keys
        invariant forall m :: 0 <= m < n ==> !Stale(rows, listed[m], boot)
        invariant forall x :: x in rows && (x !in listed || !Stale(old(rows), x, boot)) ==> rows[x] == old(rows)[x]
        invariant |claims| == |old(claims)| + claimed
      {
        var won := SweepOne(listed[n], listed[n] in resumes);
        if won { claimed := claimed + 1; }
      }
    }
  }
}
