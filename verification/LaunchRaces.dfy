/** Passes that interleave.  A pass awaits between checking a guard and recording the launch, so between the two any
    other pass may run; these are the exact conditions under which the guards still hold. */
module LaunchRaces {
  import opened Agents
  import opened LaunchGuards

  /** A launch on its way through its guards.  The clock and the cooldown are read first; then the store is asked
      about the event; then the budget gate. */
  datatype Stage = Asking | Admitting | Recorded | Dropped

  datatype Ticket = Ticket(launch: Launch, stage: Stage)

  datatype Shared = Shared(state: State, tickets: seq<Ticket>)

  /** The atomic pieces of all passes that are under way, in any order. */
  datatype Piece =
    | Check(launch: Launch)
    | Look(ticket: nat, lookup: bool)
    | Record(ticket: nat, admitted: bool)
    | Appears(row: Row)
    | Settles(key: AgentKey)

  function SetStage(s: Shared, i: nat, stage: Stage): Shared
    requires i < |s.tickets|
  {
    s.(tickets := s.tickets[i := s.tickets[i].(stage := stage)])
  }

  predicate MayLaunch(c: Config, s: State, l: Launch) {
    && l.event.causedBy != Some(l.agent) && (l.key.SpecKey? ==> l.cooldown == c.cooldownMs)
    && Cool(s, l.key, l.at, l.cooldown)
  }

  /** Piece `Record` checks nothing again. */
  predicate Records(s: Shared, piece: Piece) {
    piece.Record? && piece.ticket < |s.tickets| && s.tickets[piece.ticket].stage.Admitting? && piece.admitted
  }

  function Do(c: Config, s: Shared, piece: Piece): Shared {
    match piece
    case Check(l) => if MayLaunch(c, s.state, l) then s.(tickets := s.tickets + [Ticket(l, Asking)]) else s
    case Look(i, lookup) =>
      if i >= |s.tickets| || !s.tickets[i].stage.Asking? then s
      else
        var l := s.tickets[i].launch;
        SetStage(s, i, if Novel(s.state, l.event, l.agent, lookup) && HasRoom(c, s.state, l.event, l.agent) then Admitting else Dropped)
    case Record(i, admitted) =>
      if i >= |s.tickets| || !s.tickets[i].stage.Admitting? then s
      else if !admitted then SetStage(s, i, Dropped)
      else SetStage(s, i, Recorded).(state := Commit(s.state, s.tickets[i].launch))
    case Appears(row) => s.(state := Next(c, s.state, RowAppears(row)))
    case Settles(key) => s.(state := Next(c, s.state, RunSettles(key)))
  }

  function Run(c: Config, pieces: seq<Piece>): Shared {
    if pieces == [] then Shared(START, []) else Do(c, Run(c, pieces[..|pieces| - 1]), pieces[|pieces| - 1])
  }

  lemma RunPush(c: Config, pieces: seq<Piece>, piece: Piece)
    ensures Run(c, pieces + [piece]) == Do(c, Run(c, pieces), piece)
  {
    assert (pieces + [piece])[..|pieces|] == pieces;
  }

  /** With nothing in between, the three pieces are one entry of a pass. */
  lemma PiecesAreAnEntry(c: Config, s: Shared, event: Event, e: Entry, woken: set<AgentId>)
    requires e.spec.Spec? && e.spec.enabled && e.spec.triggered && e.creator
    ensures var n := |s.tickets|;
            var asked := Do(c, s, Check(EntryLaunch(c, event, e)));
            var looked := Do(c, asked, Look(n, e.lookup));
            Do(c, looked, Record(n, e.admitted)).state == DoEntry(c, Pass(s.state, woken), event, e).state
  {
  }

  ghost predicate Spaced(log: seq<Launch>) {
    forall i, j :: 0 <= i < j < |log| && log[i].key == log[j].key ==> log[j].at - log[i].at >= log[j].cooldown
  }

  /** `last` is the time of the key's latest launch. */
  ghost predicate LastInv(s: State) {
    forall k: Key :: match LatestOf(s.log, k)
                     case None => k !in s.last
                     case Some(i) => i < |s.log| && s.log[i].key == k && k in s.last && s.last[k] == s.log[i].at
  }

  function LatestOf(log: seq<Launch>, k: Key): Option<nat> {
    if log == [] then None
    else if log[|log| - 1].key == k then Some(|log| - 1)
    else LatestOf(log[..|log| - 1], k)
  }

  lemma {:induction false} LatestIsLast(log: seq<Launch>, k: Key)
    ensures match LatestOf(log, k)
            case None => forall i :: 0 <= i < |log| ==> log[i].key != k
            case Some(n) => n < |log| && log[n].key == k && forall i :: n < i < |log| ==> log[i].key != k
  {
    if log != [] && log[|log| - 1].key != k { LatestIsLast(log[..|log| - 1], k); }
  }

  lemma CommitKeepsLast(s: State, l: Launch)
    requires LastInv(s)
    ensures LastInv(Commit(s, l))
  {
    var t := Commit(s, l);
    assert t.log[..|s.log|] == s.log;
    forall k: Key
      ensures match LatestOf(t.log, k)
              case None => k !in t.last
              case Some(i) => i < |t.log| && t.log[i].key == k && k in t.last && t.last[k] == t.log[i].at
    {
      assert match LatestOf(s.log, k)
             case None => k !in s.last
             case Some(i) => i < |s.log| && s.log[i].key == k && k in s.last && s.last[k] == s.log[i].at;
    }
  }

  lemma {:induction false} RunLast(c: Config, pieces: seq<Piece>)
    ensures LastInv(Run(c, pieces).state)
  {
    if pieces != [] {
      var n := |pieces| - 1;
      var s := Run(c, pieces[..n]);
      RunLast(c, pieces[..n]);
      if Records(s, pieces[n]) { CommitKeepsLast(s.state, s.tickets[pieces[n].ticket].launch); }
    }
  }

  /** One launch keeps a spaced log spaced exactly when its key is cool at that moment. */
  lemma CommitSpacedIff(s: State, l: Launch)
    requires LastInv(s) && Spaced(s.log)
    ensures Spaced(Commit(s, l).log) <==> Cool(s, l.key, l.at, l.cooldown)
  {
    var t := Commit(s, l);
    LatestIsLast(s.log, l.key);
    assert t.log[|s.log|] == l;
    assert forall i :: 0 <= i < |s.log| ==> t.log[i] == s.log[i];
    match LatestOf(s.log, l.key) {
      case None => assert Spaced(t.log);
      case Some(n) =>
        assert t.log[n].key == l.key;
        if Cool(s, l.key, l.at, l.cooldown) {
          forall i | 0 <= i < |s.log| && s.log[i].key == l.key ensures l.at - s.log[i].at >= l.cooldown {
            assert i < n ==> s.log[n].at - s.log[i].at >= s.log[n].cooldown;
          }
        }
    }
  }

  /** If the piece records a launch, the cooldown (or the room) it checked earlier is still there. */
  ghost predicate StillCool(s: Shared, piece: Piece) {
    Records(s, piece) ==>
      var l := s.tickets[piece.ticket].launch;
      Cool(s.state, l.key, l.at, l.cooldown)
  }

  ghost predicate StillRoom(c: Config, s: Shared, piece: Piece) {
    Records(s, piece) ==>
      var l := s.tickets[piece.ticket].launch;
      HasRoom(c, s.state, l.event, l.agent)
  }

  ghost predicate CoolWhenRecorded(c: Config, pieces: seq<Piece>) {
    forall i :: 0 <= i < |pieces| ==> StillCool(Run(c, pieces[..i]), pieces[i])
  }

  ghost predicate RoomWhenRecorded(c: Config, pieces: seq<Piece>) {
    forall i :: 0 <= i < |pieces| ==> StillRoom(c, Run(c, pieces[..i]), pieces[i])
  }

  lemma LastCool(c: Config, pieces: seq<Piece>, piece: Piece)
    ensures CoolWhenRecorded(c, pieces + [piece]) <==> CoolWhenRecorded(c, pieces) && StillCool(Run(c, pieces), piece)
  {
    var more := pieces + [piece];
    assert more[..|pieces|] == pieces;
    assert forall i :: 0 <= i < |pieces| ==> more[..i] == pieces[..i] && more[i] == pieces[i];
  }

  lemma LastRoom(c: Config, pieces: seq<Piece>, piece: Piece)
    ensures RoomWhenRecorded(c, pieces + [piece]) <==> RoomWhenRecorded(c, pieces) && StillRoom(c, Run(c, pieces), piece)
  {
    var more := pieces + [piece];
    assert more[..|pieces|] == pieces;
    assert forall i :: 0 <= i < |pieces| ==> more[..i] == pieces[..i] && more[i] == pieces[i];
  }

  lemma LogOnlyRecords(c: Config, s: Shared, piece: Piece)
    ensures Do(c, s, piece).state.log
            == if Records(s, piece) then s.state.log + [s.tickets[piece.ticket].launch] else s.state.log
  {
  }

  lemma Prefix(log: seq<Launch>, longer: seq<Launch>)
    requires log <= longer && Spaced(longer)
    ensures Spaced(log)
  {
    assert forall i :: 0 <= i < |log| ==> longer[i] == log[i];
  }

  lemma PieceSpacedIff(c: Config, s: Shared, piece: Piece)
    requires LastInv(s.state)
    ensures Spaced(Do(c, s, piece).state.log) <==> Spaced(s.state.log) && StillCool(s, piece)
  {
    LogOnlyRecords(c, s, piece);
    if Records(s, piece) {
      if Spaced(s.state.log) {
        CommitSpacedIff(s.state, s.tickets[piece.ticket].launch);
      } else if Spaced(Do(c, s, piece).state.log) {
        Prefix(s.state.log, Do(c, s, piece).state.log);
      }
    }
  }

  /** Over every interleaving of any number of passes, launches keep their cooldown if and only if, each time one
      is recorded, the cooldown it had checked earlier still holds. */
  lemma {:induction false} SpacedIffStillCool(c: Config, pieces: seq<Piece>)
    ensures Spaced(Run(c, pieces).state.log) <==> CoolWhenRecorded(c, pieces)
  {
    if pieces != [] {
      var before, piece := pieces[..|pieces| - 1], pieces[|pieces| - 1];
      assert pieces == before + [piece];
      SpacedIffStillCool(c, before);
      LastCool(c, before, piece);
      RunLast(c, before);
      PieceSpacedIff(c, Run(c, before), piece);
      RunPush(c, before, piece);
    }
  }

  /** The queues fit at every moment of the run. */
  ghost predicate AlwaysFits(c: Config, pieces: seq<Piece>) {
    forall i :: 0 <= i <= |pieces| ==> QueuesFit(c, Run(c, pieces[..i]).state)
  }

  lemma LastFits(c: Config, pieces: seq<Piece>, piece: Piece)
    ensures AlwaysFits(c, pieces + [piece]) <==> AlwaysFits(c, pieces) && QueuesFit(c, Run(c, pieces + [piece]).state)
    ensures AlwaysFits(c, pieces) ==> QueuesFit(c, Run(c, pieces).state)
  {
    var more := pieces + [piece];
    assert pieces[..|pieces|] == pieces && more[..|more|] == more;
    assert forall i :: 0 <= i <= |pieces| ==> more[..i] == pieces[..i];
  }

  lemma PieceFitsIff(c: Config, s: Shared, piece: Piece)
    requires QueuesFit(c, s.state)
    ensures QueuesFit(c, Do(c, s, piece).state) <==> StillRoom(c, s, piece)
  {
    var t := Do(c, s, piece);
    if Records(s, piece) {
      var l := s.tickets[piece.ticket].launch;
      var key := AgentKey(l.event.workspace, l.agent);
      assert PendingOf(t.state.pending, key) == PendingOf(s.state.pending, key) + 1;
    }
    if StillRoom(c, s, piece) {
      forall k: AgentKey ensures PendingOf(t.state.pending, k) <= c.maxQueued {
        assert PendingOf(s.state.pending, k) <= c.maxQueued;
      }
    }
  }

  /** And no agent ever has more than the maximum queued if and only if there is still room each time a launch is
      recorded. */
  lemma {:induction false} FitsIffStillRoom(c: Config, pieces: seq<Piece>)
    ensures AlwaysFits(c, pieces) <==> RoomWhenRecorded(c, pieces)
  {
    if pieces == [] {
      assert pieces[..0] == [];
    } else {
      var before, piece := pieces[..|pieces| - 1], pieces[|pieces| - 1];
      assert pieces == before + [piece];
      FitsIffStillRoom(c, before);
      LastRoom(c, before, piece);
      LastFits(c, before, piece);
      RunPush(c, before, piece);
      if AlwaysFits(c, before) { PieceFitsIff(c, Run(c, before), piece); }
    }
  }

  ghost predicate PastLookup(s: Shared, i: nat, row: Row) {
    && i < |s.tickets| && (s.tickets[i].stage.Admitting? || s.tickets[i].stage.Recorded?)
    && var l := s.tickets[i].launch;
    && l.event.eventId.Some? && Row(l.event.workspace, l.agent, l.event.eventId.value) == row
  }

  lemma PieceLooks(c: Config, s: Shared, piece: Piece, i: nat, row: Row)
    requires row in s.state.rows
    ensures row in Do(c, s, piece).state.rows
    ensures PastLookup(Do(c, s, piece), i, row) ==> PastLookup(s, i, row)
  {
  }

  /** Over every interleaving, once the session of an (agent, event) is stored, the only launches still coming for
      it are those whose lookup was already behind them: the row stops every later one. */
  lemma {:induction false} RowStopsEveryLaterLookup(c: Config, pieces: seq<Piece>, more: seq<Piece>, i: nat, row: Row)
    requires row in Run(c, pieces).state.rows
    ensures row in Run(c, pieces + more).state.rows
    ensures PastLookup(Run(c, pieces + more), i, row) ==> PastLookup(Run(c, pieces), i, row)
  {
    if more == [] {
      assert pieces + more == pieces;
    } else {
      var n := |more| - 1;
      RowStopsEveryLaterLookup(c, pieces, more[..n], i, row);
      PieceLooks(c, Run(c, pieces + more[..n]), more[n], i, row);
      RunPush(c, pieces + more[..n], more[n]);
      assert pieces + more == pieces + more[..n] + [more[n]];
    }
  }

  /** Neither is kept for free: in every reachable state, two passes that both get through their guards before
      either records launch the agent twice at the same instant, and one slot is filled twice. */
  lemma InterleavedPassesDouble(c: Config, pieces: seq<Piece>, l: Launch)
    requires var s := Run(c, pieces).state;
             MayLaunch(c, s, l) && Novel(s, l.event, l.agent, true) && HasRoom(c, s, l.event, l.agent)
    ensures var s := Run(c, pieces);
            var n := |s.tickets|;
            var key := AgentKey(l.event.workspace, l.agent);
            var t := Run(c, pieces + [Check(l)] + [Check(l)] + [Look(n, true)] + [Look(n + 1, true)]
                            + [Record(n, true)] + [Record(n + 1, true)]);
            && t.state.log == s.state.log + [l] + [l]
            && PendingOf(t.state.pending, key) == PendingOf(s.state.pending, key) + 2
            && (l.cooldown > 0 ==> !Spaced(t.state.log))
  {
    var n := |Run(c, pieces).tickets|;
    var both := pieces + [Check(l)] + [Check(l)] + [Look(n, true)] + [Look(n + 1, true)];
    BothGetThrough(c, pieces, l);
    RunPush(c, both, Record(n, true));
    RunPush(c, both + [Record(n, true)], Record(n + 1, true));
    var log := Run(c, both + [Record(n, true)] + [Record(n + 1, true)]).state.log;
    assert log[|log| - 2] == l && log[|log| - 1] == l;
  }

  lemma BothGetThrough(c: Config, pieces: seq<Piece>, l: Launch)
    requires var s := Run(c, pieces).state;
             MayLaunch(c, s, l) && Novel(s, l.event, l.agent, true) && HasRoom(c, s, l.event, l.agent)
    ensures var s := Run(c, pieces);
            var n := |s.tickets|;
            Run(c, pieces + [Check(l)] + [Check(l)] + [Look(n, true)] + [Look(n + 1, true)])
            == Shared(s.state, s.tickets + [Ticket(l, Admitting), Ticket(l, Admitting)])
  {
    var n := |Run(c, pieces).tickets|;
    var p1 := pieces + [Check(l)];
    var p2 := p1 + [Check(l)];
    var p3 := p2 + [Look(n, true)];
    RunPush(c, pieces, Check(l));
    RunPush(c, p1, Check(l));
    RunPush(c, p2, Look(n, true));
    RunPush(c, p3, Look(n + 1, true));
  }
}
