/** The reconcile loop: a timer walks the control plane's event log from a cursor and hands on what is recent
    enough.  Each `await` ends an atomic piece; the log may grow between any two of them. */
module Reconcile {

  /** An event of the log.  `num`, its seq, orders it, `created` is its time stamp. */
  datatype Event = Event(num: nat, created: int)

  /** An event the loop has passed, and the clock when it did. */
  datatype Walk = Walk(event: Event, at: int)

  /** `Calling` awaits `onEvent`; `Fetching` awaits the control plane. */
  datatype Phase = Idle | Fetching | Handling | Calling

  datatype Config = Config(windowMs: int, batch: nat)

  /** `page` is what is left of the fetched page, `full` whether that page was a whole batch. */
  datatype State = State(log: seq<Event>, cursor: nat, phase: Phase, page: seq<Event>, full: bool, walked: seq<Walk>, handed: seq<Event>)

  const START := State([], 0, Idle, [], false, [], [])

  predicate Recent(c: Config, w: Walk) {
    w.at - w.event.created <= c.windowMs
  }

  // ---------------------------------------------------------------- the atomic pieces, on values

  /** The control plane's answer: at most a batch of the events after the cursor. */
  function After(log: seq<Event>, cursor: nat, limit: nat): seq<Event> {
    if log == [] || limit == 0 then []
    else if log[0].num > cursor then [log[0]] + After(log[1..], cursor, limit - 1)
    else After(log[1..], cursor, limit)
  }

  function DoFire(s: State): State {
    if s.phase.Idle? then s.(phase := Fetching) else s
  }

  function DoFetched(c: Config, s: State): State {
    var page := After(s.log, s.cursor, c.batch);
    if page == [] then s.(phase := Idle)
    else s.(phase := Handling, page := page, full := |page| >= c.batch)
  }

  function Max(a: nat, b: nat): nat {
    if a < b then b else a
  }

  /** The next event of the page: the cursor moves first, then the event is skipped or handed on. */
  function DoHandle(c: Config, s: State, now: int): State {
    if s.page == [] then s.(phase := if s.full then Fetching else Idle)
    else
      var w := Walk(s.page[0], now);
      var t := s.(cursor := Max(s.cursor, w.event.num), page := s.page[1..], walked := s.walked + [w]);
      if Recent(c, w) then t.(handed := s.handed + [w.event], phase := Calling) else t
  }

  function DoReturned(s: State): State {
    s.(phase := Handling)
  }

  /** A failed fetch or a rejected `onEvent` ends the tick. */
  function DoFailed(s: State): State {
    s.(phase := Idle, page := [])
  }

  // ---------------------------------------------------------------- runs of the machine

  datatype Step =
    | Append(event: Event)
    | Fire
    | Fetched
    | FetchFailed
    | Handle(now: int)
    | Returned
    | Rejected

  /** The log is append-only and increasing; cursors start below every event. */
  predicate Appendable(log: seq<Event>, e: Event) {
    e.num > 0 && (log != [] ==> log[|log| - 1].num < e.num)
  }

  function Next(c: Config, s: State, step: Step): State {
    match step
    case Append(e) => if Appendable(s.log, e) then s.(log := s.log + [e]) else s
    case Fire => DoFire(s)
    case Fetched => if s.phase.Fetching? then DoFetched(c, s) else s
    case FetchFailed => if s.phase.Fetching? then DoFailed(s) else s
    case Handle(now) => if s.phase.Handling? then DoHandle(c, s, now) else s
    case Returned => if s.phase.Calling? then DoReturned(s) else s
    case Rejected => if s.phase.Calling? then DoFailed(s) else s
  }

  function Reach(c: Config, steps: seq<Step>): State {
    if steps == [] then START else Next(c, Reach(c, steps[..|steps| - 1]), steps[|steps| - 1])
  }

  ghost predicate Increasing(log: seq<Event>) {
    && (forall i :: 0 <= i < |log| ==> log[i].num > 0)
    && (forall i, j :: 0 <= i < j < |log| ==> log[i].num < log[j].num)
  }

  function CursorAt(log: seq<Event>, n: nat): nat
    requires n <= |log|
  {
    if n == 0 then 0 else log[n - 1].num
  }

  function HandedOf(c: Config, walked: seq<Walk>): seq<Event> {
    if walked == [] then []
    else
      var n := |walked| - 1;
      HandedOf(c, walked[..n]) + if Recent(c, walked[n]) then [walked[n].event] else []
  }

  /** What was walked is a prefix of the log, the cursor is its end, and the page is what comes next. */
  ghost predicate Placed(s: State) {
    var n := |s.walked|;
    && Increasing(s.log)
    && n + |s.page| <= |s.log|
    && (forall i :: 0 <= i < n ==> s.walked[i].event == s.log[i])
    && s.cursor == CursorAt(s.log, n)
    && s.page == s.log[n..n + |s.page|]
    && (s.phase.Idle? || s.phase.Fetching? ==> s.page == [])
  }

  ghost predicate Inv(c: Config, s: State) {
    Placed(s) && s.handed == HandedOf(c, s.walked)
  }

  /** A fetch from the end of a prefix of an increasing log returns the events right after the prefix. */
  lemma {:induction false} AfterPrefix(log: seq<Event>, n: nat, cursor: nat, limit: nat)
    requires Increasing(log) && n <= |log|
    requires forall i :: 0 <= i < |log| ==> (log[i].num <= cursor <==> i < n)
    ensures After(log, cursor, limit) == log[n..n + if limit < |log| - n then limit else |log| - n]
    decreases |log|
  {
    if log != [] && limit > 0 {
      if n > 0 {
        AfterPrefix(log[1..], n - 1, cursor, limit);
      } else {
        AfterPrefix(log[1..], 0, cursor, limit - 1);
      }
    }
  }

  lemma FetchIsNext(c: Config, s: State)
    requires Inv(c, s)
    ensures var n := |s.walked|;
            After(s.log, s.cursor, c.batch) == s.log[n..n + if c.batch < |s.log| - n then c.batch else |s.log| - n]
  {
    AfterPrefix(s.log, |s.walked|, s.cursor, c.batch);
  }

  lemma HandleKeepsPlace(c: Config, s: State, now: int)
    requires Placed(s) && s.phase.Handling? && s.page != []
    ensures Placed(DoHandle(c, s, now))
  {
    var t, n := DoHandle(c, s, now), |s.walked|;
    assert s.page[0] == s.log[n];
    assert n > 0 ==> s.log[n - 1].num < s.log[n].num;
    assert t.page == s.log[n + 1..n + 1 + |t.page|];
  }

  lemma HandleKeepsInv(c: Config, s: State, now: int)
    requires Inv(c, s) && s.phase.Handling?
    ensures Inv(c, DoHandle(c, s, now))
  {
    if s.page != [] {
      HandleKeepsPlace(c, s, now);
      assert DoHandle(c, s, now).walked[..|s.walked|] == s.walked;
    }
  }

  lemma SettleKeepsInv(c: Config, s: State)
    requires Inv(c, s) && s.phase.Calling?
    ensures Inv(c, DoReturned(s)) && Inv(c, DoFailed(s))
  {
  }

  lemma AppendKeepsInv(c: Config, s: State, e: Event)
    requires Inv(c, s) && Appendable(s.log, e)
    ensures Inv(c, s.(log := s.log + [e]))
  {
    var log, n := s.log + [e], |s.walked|;
    assert log[n..n + |s.page|] == s.page;
    assert forall i :: 0 <= i < |s.log| ==> log[i] == s.log[i];
  }

  lemma FetchKeepsInv(c: Config, s: State)
    requires Inv(c, s) && s.phase.Fetching?
    ensures Inv(c, DoFetched(c, s))
  {
    FetchIsNext(c, s);
  }

  lemma StepKeepsInv(c: Config, s: State, step: Step)
    requires Inv(c, s)
    ensures Inv(c, Next(c, s, step))
  {
    match step {
      case Append(e) => if Appendable(s.log, e) { AppendKeepsInv(c, s, e); }
      case Fetched => if s.phase.Fetching? { FetchKeepsInv(c, s); }
      case Handle(now) => if s.phase.Handling? { HandleKeepsInv(c, s, now); }
      case Fire =>
      case FetchFailed =>
      case Returned =>
      case Rejected =>
    }
  }

  lemma {:induction false} ReachInv(c: Config, steps: seq<Step>)
    ensures Inv(c, Reach(c, steps))
  {
    if steps != [] {
      ReachInv(c, steps[..|steps| - 1]);
      StepKeepsInv(c, Reach(c, steps[..|steps| - 1]), steps[|steps| - 1]);
    }
  }

  /** Every event handed on was walked inside the window, and no recent walk was left out. */
  lemma {:induction false} HandedOfIsFilter(c: Config, walked: seq<Walk>)
    ensures forall e :: e in HandedOf(c, walked) <==> exists i :: 0 <= i < |walked| && Recent(c, walked[i]) && walked[i].event == e
  {
    if walked != [] {
      var n := |walked| - 1;
      HandedOfIsFilter(c, walked[..n]);
      forall e ensures e in HandedOf(c, walked) <==> exists i :: 0 <= i < |walked| && Recent(c, walked[i]) && walked[i].event == e {
        if i :| 0 <= i < |walked| && Recent(c, walked[i]) && walked[i].event == e {
          if i < n { assert walked[..n][i] == walked[i]; }
        }
        if e in HandedOf(c, walked[..n]) {
          var i :| 0 <= i < n && Recent(c, walked[..n][i]) && walked[..n][i].event == e;
          assert walked[i].event == e && Recent(c, walked[i]);
        }
      }
    }
  }

  lemma {:induction false} FilterIncreases(c: Config, walked: seq<Walk>, log: seq<Event>)
    requires Increasing(log) && |walked| <= |log|
    requires forall i :: 0 <= i < |walked| ==> walked[i].event == log[i]
    ensures forall i, j :: 0 <= i < j < |HandedOf(c, walked)| ==> HandedOf(c, walked)[i].num < HandedOf(c, walked)[j].num
    ensures forall e :: e in HandedOf(c, walked) ==> |walked| > 0 && e.num <= log[|walked| - 1].num
  {
    if walked != [] {
      FilterIncreases(c, walked[..|walked| - 1], log);
    }
  }

  ghost predicate HandedIffRecent(c: Config, walked: seq<Walk>, handed: seq<Event>) {
    forall e :: e in handed <==> exists i :: 0 <= i < |walked| && walked[i].at - e.created <= c.windowMs && walked[i].event == e
  }

  lemma HandedAreRecent(c: Config, walked: seq<Walk>)
    ensures HandedIffRecent(c, walked, HandedOf(c, walked))
  {
    HandedOfIsFilter(c, walked);
    forall e ensures e in HandedOf(c, walked) <==>
                       exists i :: 0 <= i < |walked| && walked[i].at - e.created <= c.windowMs && walked[i].event == e
    {
      if e in HandedOf(c, walked) {
        var i :| 0 <= i < |walked| && Recent(c, walked[i]) && walked[i].event == e;
        assert walked[i].at - e.created <= c.windowMs;
      }
      if i :| 0 <= i < |walked| && walked[i].at - e.created <= c.windowMs && walked[i].event == e {
        assert Recent(c, walked[i]);
      }
    }
  }

  /** Over any ticks, failed fetches, rejections and growth of the log: the events walked are exactly those of
      the log up to the cursor, each once and in order; and an event was handed on if and only if it is one of
      them that was no older than the window when it was walked. */
  lemma WalkIsExact(c: Config, steps: seq<Step>)
    ensures var s := Reach(c, steps);
            && |s.walked| <= |s.log|
            && (forall i :: 0 <= i < |s.log| ==> (s.log[i].num <= s.cursor <==> i < |s.walked|))
            && (forall i :: 0 <= i < |s.walked| ==> s.walked[i].event == s.log[i])
            && HandedIffRecent(c, s.walked, s.handed)
  {
    ReachInv(c, steps);
    HandedAreRecent(c, Reach(c, steps).walked);
  }

  /** The first event of the log beyond the cursor. */
  ghost predicate IsNext(s: State, e: Event) {
    && |s.walked| < |s.log| && e == s.log[|s.walked|] && s.cursor < e.num
    && forall i :: 0 <= i < |s.log| && s.log[i].num > s.cursor ==> e.num <= s.log[i].num
  }

  lemma PageIsNext(s: State)
    requires Placed(s) && s.page != []
    ensures IsNext(s, s.page[0])
  {
    var n := |s.walked|;
    assert s.page[0] == s.log[n];
    assert n > 0 ==> s.log[n - 1].num < s.log[n].num;
  }

  lemma HandleMoves(c: Config, s: State, now: int)
    requires Placed(s) && s.phase.Handling? && s.page != []
    ensures var t, e := DoHandle(c, s, now), s.page[0];
            && t.log == s.log && t.cursor == e.num && t.walked == s.walked + [Walk(e, now)]
            && (if now - e.created <= c.windowMs then t.handed == s.handed + [e] && t.phase.Calling?
                else t.handed == s.handed && t.phase.Handling?)
  {
    PageIsNext(s);
  }

  /** The loop's one step on an event, wherever a run has got to: the next of the page is the first event of the log
      beyond the cursor; the cursor moves to it, it is walked now, and it is handed on, with its `onEvent`
      awaited, exactly when it is no older than the window. */
  lemma HandlesTheNextEvent(c: Config, steps: seq<Step>, now: int)
    requires Reach(c, steps).phase.Handling? && Reach(c, steps).page != []
    ensures var s, t, e := Reach(c, steps), Reach(c, steps + [Handle(now)]), Reach(c, steps).page[0];
            && IsNext(s, e)
            && t.log == s.log && t.cursor == e.num && t.walked == s.walked + [Walk(e, now)]
            && (if now - e.created <= c.windowMs then t.handed == s.handed + [e] && t.phase.Calling?
                else t.handed == s.handed && t.phase.Handling?)
  {
    ReachInv(c, steps);
    PageIsNext(Reach(c, steps));
    HandleMoves(c, Reach(c, steps), now);
    assert (steps + [Handle(now)])[..|steps|] == steps;
  }

  /** Over the same runs, events are handed on in log order, each at most once. */
  lemma HandedIncreases(c: Config, steps: seq<Step>, i: nat, j: nat)
    requires i < j < |Reach(c, steps).handed|
    ensures Reach(c, steps).handed[i].num < Reach(c, steps).handed[j].num
  {
    ReachInv(c, steps);
    FilterIncreases(c, Reach(c, steps).walked, Reach(c, steps).log);
  }

  /** The cursor is past an event before `onEvent` sees it, so an event whose `onEvent` rejects is not retried:
      whatever happens later, it is never handed on again. */
  lemma {:induction false} RejectedIsLost(c: Config, steps: seq<Step>, more: seq<Step>, i: nat)
    requires Reach(c, steps).phase.Calling? && Reach(c, steps).handed != []
    requires |Reach(c, steps).handed| <= i < |Reach(c, steps + [Rejected] + more).handed|
    ensures var s := Reach(c, steps);
            Reach(c, steps + [Rejected] + more).handed[i].num > s.handed[|s.handed| - 1].num
  {
    var s, t := Reach(c, steps), Reach(c, steps + [Rejected] + more);
    ReachInv(c, steps + [Rejected] + more);
    FilterIncreases(c, t.walked, t.log);
    assert (steps + [Rejected])[..|steps|] == steps;
    HandedGrows(c, steps + [Rejected], more);
    assert t.handed[|s.handed| - 1] == s.handed[|s.handed| - 1];
  }

  lemma HandedStays(c: Config, s: State, step: Step)
    ensures s.handed <= Next(c, s, step).handed
  {
    match step {
      case Fetched => if s.phase.Fetching? { assert DoFetched(c, s).handed == s.handed; }
      case _ =>
    }
  }

  lemma {:induction false} HandedGrows(c: Config, steps: seq<Step>, more: seq<Step>)
    ensures Reach(c, steps).handed <= Reach(c, steps + more).handed
  {
    if more == [] {
      assert steps + more == steps;
    } else {
      var n := |more| - 1;
      assert (steps + more)[..|steps + more| - 1] == steps + more[..n];
      HandedGrows(c, steps, more[..n]);
      HandedStays(c, Reach(c, steps + more[..n]), more[n]);
    }
  }

  /** With `left` fetches still to answer and nothing rejecting, a tick is bound for the end of the log. */
  ghost predicate OnTrack(s: State, left: nat) {
    && !s.phase.Calling?
    && (!s.phase.Idle? ==> left + |s.walked| + |s.page| > |s.log|)
    && (s.phase.Handling? && !s.full ==> |s.walked| + |s.page| == |s.log|)
    && (s.phase.Idle? ==> |s.walked| == |s.log|)
  }

  lemma FetchStaysOnTrack(c: Config, s: State, left: nat)
    requires Inv(c, s) && s.phase.Fetching? && c.batch > 0 && OnTrack(s, left)
    ensures left > 0 && OnTrack(DoFetched(c, s), left - 1)
    ensures DoFetched(c, s).page != [] ==> DoFetched(c, s).phase.Handling?
  {
    FetchIsNext(c, s);
  }

  /** What is still ahead of the loop: the events it has not walked, then the pieces between two of them. */
  function Rank(p: Phase, page: seq<Event>): nat {
    if p.Idle? then 0 else if p.Fetching? then 2 else if page == [] then 3 else 1
  }

  // ---------------------------------------------------------------- the loop itself

  class EventReconcile {
    const config: Config
    var log: seq<Event>
    var cursor: nat
    var phase: Phase
    var page: seq<Event>
    var full: bool
    var walked: seq<Walk>
    var handed: seq<Event>

    ghost function View(): State reads this { State(log, cursor, phase, page, full, walked, handed) }

    constructor (c: Config)
      ensures View() == START && config == c
    {
      config, log, cursor, phase, page, full, walked, handed := c, [], 0, Idle, [], false, [], [];
    }

    /** One event of the page.  False when the page is done. */
    method HandleNext(now: int) returns (more: bool)
      requires phase.Handling?
      modifies this
      ensures View() == DoHandle(config, old(View()), now) && more == (old(page) != [])
    {
      more := page != [];
      if !more {
        phase := if full then Fetching else Idle;
        return;
      }
      var w := Walk(page[0], now);
      cursor := Max(cursor, w.event.num);
      page := page[1..];
      walked := walked + [w];
      if !Recent(config, w) { return; }
      handed := handed + [w.event];
      phase := Calling;
    }

    /** The control plane's answer, or its failure. */
    method Fetch(ok: bool)
      requires phase.Fetching? && Inv(config, View())
      modifies this
      ensures View() == if ok then DoFetched(config, old(View())) else DoFailed(old(View()))
      ensures Inv(config, View()) && log == old(log) && walked == old(walked)
      ensures if page == [] then phase.Idle? else phase.Handling?
    {
      FetchKeepsInv(config, View());
      if !ok {
        phase, page := Idle, [];
        return;
      }
      var events := After(log, cursor, config.batch);
      if events == [] {
        phase := Idle;
      } else {
        phase, page, full := Handling, events, |events| >= config.batch;
      }
    }

    /** The next event, and what its `onEvent` came to.  An event in `bad` is rejected. */
    method Step(now: int, bad: set<Event>)
      requires phase.Handling? && Inv(config, View())
      modifies this
      ensures Inv(config, View()) && log == old(log) && old(walked) <= walked
      ensures full == old(full) && !phase.Calling?
      ensures old(page) == [] ==> page == [] && walked == old(walked) && phase == if full then Fetching else Idle
      ensures old(page) != [] ==> |walked| == |old(walked)| + 1
      ensures old(page) != [] && bad == {} ==> phase.Handling? && |page| == |old(page)| - 1
    {
      HandleKeepsInv(config, View(), now);
      assert old(page) != [] ==> |page[1..]| == |old(page)| - 1;
      var more := HandleNext(now);
      if phase.Calling? {
        SettleKeepsInv(config, View());
        if handed[|handed| - 1] in bad {
          phase, page := Idle, [];
        } else {
          phase := Handling;
        }
      }
    }

    /** A whole tick with nothing interleaved.  `up` fetches answer before one fails, and `onEvent` rejects the
        events in `bad`.  It ends because every page it goes on from moves the cursor along the log; undisturbed
        it walks the log to its end, and a tick that finds another running does nothing. */
    method Tick(now: int, up: nat, bad: set<Event>)
      requires Inv(config, View())
      modifies this
      ensures Inv(config, View()) && log == old(log) && old(walked) <= walked
      ensures !old(phase).Idle? ==> View() == old(View())
      ensures old(phase).Idle? ==> phase.Idle?
      ensures old(phase).Idle? && config.batch > 0 && up > |log| && bad == {} ==> |walked| == |log|
    {
      if !phase.Idle? { return; }
      phase := Fetching;
      var left := up;
      while phase != Idle
        invariant Inv(config, View()) && log == old(log) && old(walked) <= walked && !phase.Calling?
        invariant config.batch > 0 && up > |log| && bad == {} ==> OnTrack(View(), left)
        decreases |log| - |walked|, Rank(phase, page)
      {
        if phase.Fetching? {
          if config.batch > 0 && OnTrack(View(), left) { FetchStaysOnTrack(config, View(), left); }
          Fetch(left > 0);
          left := if left > 0 then left - 1 else 0;
        } else {
          Step(now, bad);
        }
      }
    }
  }
}
