/** The registry of live chat turns: its replay buffers are a fold over the event stream, and a stream that
    attaches late replays the buffers as events before following the live feed. */
module LiveTurns {

  datatype Option<+T> = None | Some(value: T)

  datatype Plan = Plan(requestId: string, plan: string)

  datatype Wait = Wait(attempt: int, delayMs: int, persistent: bool)

  /** An event of the feed, with the fields the registry inspects.  A field of the wrong type is absent. */
  datatype Event =
    | Delta(text: Option<string>)
    | Reasoning(text: Option<string>)
    | Message(assistant: bool, content: Option<string>)
    | Retry(attempt: Option<int>, delayMs: Option<int>, persistent: bool)
    | Fallback
    | PlanAsk(requestId: Option<string>, plan: Option<string>)
    | PlanPresented
    | Terminal        // done or error
    | OtherEvent(name: string)

  /** What a viewer of the in-flight turn shows. */
  datatype View = View(text: string, reasoning: string, plan: Option<Plan>, retry: Option<Wait>)

  const BLANK := View("", "", None, None)

  function TextOf(t: Option<string>): string {
    if t.Some? then t.value else ""
  }

  /** The characters the host language trims: its white space and its line terminators. */
  predicate IsSpace(c: char) {
    var n := c as int;
    9 <= n <= 13 || n in {32, 160, 0x1680, 0x2028, 0x2029, 0x202F, 0x205F, 0x3000, 0xFEFF} || 0x2000 <= n <= 0x200A
  }

  predicate HasText(s: string) {
    exists i :: 0 <= i < |s| && !IsSpace(s[i])
  }

  /** The buffer rule, applied by the registry and, by contract, by every viewer. */
  function Apply(v: View, ev: Event): View {
    match ev
    case Delta(t) => v.(text := v.text + TextOf(t), retry := None)
    case Reasoning(t) => v.(reasoning := v.reasoning + TextOf(t), retry := None)
    case Message(assistant, content) =>
      if !assistant then v.(retry := None)
      else if content.Some? && HasText(content.value) then v.(retry := None, reasoning := "", text := "")
      else v.(retry := None, reasoning := "")
    case Retry(attempt, delayMs, persistent) =>
      if attempt.Some? && delayMs.Some? then v.(retry := Some(Wait(attempt.value, delayMs.value, persistent))) else v
    case Fallback => v.(retry := None)
    case PlanAsk(id, plan) => if id.Some? && plan.Some? then v.(plan := Some(Plan(id.value, plan.value))) else v
    case PlanPresented => v.(plan := None)
    case Terminal => v
    case OtherEvent(_) => v
  }

  function Fold(v: View, events: seq<Event>): View {
    if events == [] then v else Apply(Fold(v, events[..|events| - 1]), events[|events| - 1])
  }

  /** What the re-attach route writes before it subscribes: reasoning, text, parked asks, plan, retry.
      `parked` is the permission asks, which no buffer depends on. */
  function Replay(v: View, parked: seq<string>): seq<Event> {
    ReplayReasoning(v) + ReplayText(v) + Asks(parked) + ReplayPlan(v) + ReplayRetry(v)
  }

  function ReplayReasoning(v: View): seq<Event> {
    if v.reasoning != "" then [Reasoning(Some(v.reasoning))] else []
  }

  function ReplayText(v: View): seq<Event> {
    if v.text != "" then [Delta(Some(v.text))] else []
  }

  function ReplayPlan(v: View): seq<Event> {
    if v.plan.Some? then [PlanAsk(Some(v.plan.value.requestId), Some(v.plan.value.plan))] else []
  }

  function ReplayRetry(v: View): seq<Event> {
    if v.retry.None? then []
    else [Retry(Some(v.retry.value.attempt), Some(v.retry.value.delayMs), v.retry.value.persistent)]
  }

  function Asks(parked: seq<string>): seq<Event> {
    seq(|parked|, i requires 0 <= i < |parked| => OtherEvent(parked[i]))
  }

  // ---------------------------------------------------------------- folding

  lemma {:induction false} FoldConcat(v: View, a: seq<Event>, b: seq<Event>)
    ensures Fold(v, a + b) == Fold(Fold(v, a), b)
  {
    if b == [] {
      assert a + b == a;
    } else {
      assert (a + b)[..|a + b| - 1] == a + b[..|b| - 1];
      FoldConcat(v, a, b[..|b| - 1]);
    }
  }

  lemma {:induction false} FoldAsks(v: View, parked: seq<string>)
    ensures Fold(v, Asks(parked)) == v
  {
    if parked != [] {
      assert Asks(parked)[..|parked| - 1] == Asks(parked[..|parked| - 1]);
      FoldAsks(v, parked[..|parked| - 1]);
    }
  }

  lemma FoldOne(v: View, ev: Event)
    ensures Fold(v, [ev]) == Apply(v, ev)
  {
    assert [ev][..0] == [];
  }

  lemma FoldReasoning(v: View, start: View)
    requires start.reasoning == ""
    ensures Fold(start, ReplayReasoning(v))
         == if v.reasoning == "" then start else start.(reasoning := v.reasoning, retry := None)
  {
    if v.reasoning != "" {
      var ev := Reasoning(Some(v.reasoning));
      FoldOne(start, ev);
      assert start.reasoning + v.reasoning == v.reasoning;
    }
  }

  lemma FoldText(v: View, start: View)
    requires start.text == ""
    ensures Fold(start, ReplayText(v)) == if v.text == "" then start else start.(text := v.text, retry := None)
  {
    if v.text != "" {
      var ev := Delta(Some(v.text));
      FoldOne(start, ev);
      assert start.text + v.text == v.text;
    }
  }

  lemma FoldBuffers(v: View, start: View)
    requires start.text == "" && start.reasoning == ""
    ensures Fold(start, ReplayReasoning(v) + ReplayText(v))
         == View(v.text, v.reasoning, start.plan, if v.text == "" && v.reasoning == "" then start.retry else None)
  {
    FoldConcat(start, ReplayReasoning(v), ReplayText(v));
    FoldReasoning(v, start);
    FoldText(v, Fold(start, ReplayReasoning(v)));
  }

  lemma FoldParked(v: View, start: View)
    ensures Fold(start, ReplayPlan(v)) == if v.plan.Some? then start.(plan := v.plan) else start
    ensures Fold(start, ReplayRetry(v)) == if v.retry.Some? then start.(retry := v.retry) else start
  {
    if v.plan.Some? { FoldOne(start, ReplayPlan(v)[0]); }
    if v.retry.Some? { FoldOne(start, ReplayRetry(v)[0]); }
  }

  /** The replay of any view rebuilds exactly that view from nothing. */
  lemma ReplayRebuilds(v: View, parked: seq<string>)
    ensures Fold(BLANK, Replay(v, parked)) == v
  {
    var ab := ReplayReasoning(v) + ReplayText(v);
    var shown := View(v.text, v.reasoning, None, None);
    FoldConcat(BLANK, ab + Asks(parked) + ReplayPlan(v), ReplayRetry(v));
    FoldConcat(BLANK, ab + Asks(parked), ReplayPlan(v));
    FoldConcat(BLANK, ab, Asks(parked));
    FoldBuffers(v, BLANK);
    FoldAsks(shown, parked);
    FoldParked(v, shown);
    FoldParked(v, shown.(plan := v.plan));
  }

  /** Late attach equals early attach: for every past and every future, a viewer that replays the buffers and
      then follows the feed ends with the view of one that was there from the beginning. */
  lemma LateAttachEqualsEarly(past: seq<Event>, future: seq<Event>, parked: seq<string>)
    ensures Fold(BLANK, Replay(Fold(BLANK, past), parked) + future) == Fold(BLANK, past + future)
  {
    FoldConcat(BLANK, Replay(Fold(BLANK, past), parked), future);
    FoldConcat(BLANK, past, future);
    ReplayRebuilds(Fold(BLANK, past), parked);
  }

  /** The order of the replay matters: written first instead of last, a retry wait survives the replay
      exactly when there is neither text nor reasoning to write after it. */
  lemma RetryMustComeLast(v: View)
    requires v.retry.Some? && v.plan.None?
    ensures Fold(BLANK, ReplayRetry(v) + (ReplayReasoning(v) + ReplayText(v))) == v
            <==> v.text == "" && v.reasoning == ""
  {
    FoldConcat(BLANK, ReplayRetry(v), ReplayReasoning(v) + ReplayText(v));
    FoldParked(v, BLANK);
    FoldBuffers(v, BLANK.(retry := v.retry));
  }

  // ---------------------------------------------------------------- what the buffers hold

  /** All the text the deltas among these events stream, in order. */
  function Streamed(events: seq<Event>): string {
    if events == [] then ""
    else match events[0]
      case Delta(Some(t)) => t + Streamed(events[1..])
      case _ => Streamed(events[1..])
  }

  function Reasoned(events: seq<Event>): string {
    if events == [] then ""
    else match events[0]
      case Reasoning(Some(t)) => t + Reasoned(events[1..])
      case _ => Reasoned(events[1..])
  }

  /** An assistant's message, and one that says anything but white space. */
  predicate IsAnswer(ev: Event) {
    ev.Message? && ev.assistant
  }

  predicate IsSpoken(ev: Event) {
    IsAnswer(ev) && ev.content.Some? && exists i :: 0 <= i < |ev.content.value| && !IsSpace(ev.content.value[i])
  }

  /** Everything that settles which plan waits for an answer, and whether a retry is being waited for. */
  predicate IsPlanNews(ev: Event) {
    ev.PlanPresented? || (ev.PlanAsk? && ev.requestId.Some? && ev.plan.Some?)
  }

  predicate IsRetryNews(ev: Event) {
    ev.Delta? || ev.Reasoning? || ev.Message? || ev.Fallback? || (ev.Retry? && ev.attempt.Some? && ev.delayMs.Some?)
  }

  /** The events from the n-th on are those after the last one with this property. */
  ghost predicate AfterLast(events: seq<Event>, n: int, p: Event -> bool) {
    && 0 <= n <= |events| && (n == 0 || p(events[n - 1]))
    && forall i :: n <= i < |events| ==> !p(events[i])
  }

  /** The n-th event is the last one with this property. */
  ghost predicate IsLast(events: seq<Event>, n: int, p: Event -> bool) {
    0 <= n < |events| && p(events[n]) && forall i :: n < i < |events| ==> !p(events[i])
  }

  lemma {:induction false} FindAfterLast(events: seq<Event>, p: Event -> bool) returns (n: int)
    ensures AfterLast(events, n, p)
  {
    n := |events|;
    if events != [] && !p(events[n - 1]) { n := FindAfterLast(events[..n - 1], p); }
  }

  lemma {:induction false} StreamedPush(events: seq<Event>, ev: Event)
    ensures Streamed(events + [ev]) == Streamed(events) + Streamed([ev])
    ensures Reasoned(events + [ev]) == Reasoned(events) + Reasoned([ev])
  {
    if events == [] {
      assert [] + [ev] == [ev];
    } else {
      assert (events + [ev])[1..] == events[1..] + [ev];
      StreamedPush(events[1..], ev);
    }
  }

  lemma OneEventStreams(v: View, ev: Event)
    ensures Apply(v, ev).text == if IsSpoken(ev) then "" else v.text + Streamed([ev])
    ensures Apply(v, ev).reasoning == if IsAnswer(ev) then "" else v.reasoning + Reasoned([ev])
  {
  }

  lemma {:induction false} TextIsStreamed(events: seq<Event>, n: nat)
    requires AfterLast(events, n, IsSpoken)
    ensures Fold(BLANK, events).text == Streamed(events[n..])
  {
    var m := |events| - 1;
    if events != [] { OneEventStreams(Fold(BLANK, events[..m]), events[m]); }
    if n <= m {
      TextIsStreamed(events[..m], n);
      assert events[n..] == events[..m][n..] + [events[m]];
      StreamedPush(events[..m][n..], events[m]);
    }
  }

  lemma {:induction false} ReasoningIsReasoned(events: seq<Event>, n: nat)
    requires AfterLast(events, n, IsAnswer)
    ensures Fold(BLANK, events).reasoning == Reasoned(events[n..])
  {
    var m := |events| - 1;
    if events != [] { OneEventStreams(Fold(BLANK, events[..m]), events[m]); }
    if n <= m {
      ReasoningIsReasoned(events[..m], n);
      assert events[n..] == events[..m][n..] + [events[m]];
      StreamedPush(events[..m][n..], events[m]);
    }
  }

  lemma {:induction false} PlanIsLastNews(events: seq<Event>, n: nat)
    requires AfterLast(events, n, IsPlanNews)
    ensures Fold(BLANK, events).plan
         == if n > 0 && events[n - 1].PlanAsk? then Some(Plan(events[n - 1].requestId.value, events[n - 1].plan.value)) else None
  {
    var m := |events| - 1;
    if n <= m {
      PlanIsLastNews(events[..m], n);
      assert !IsPlanNews(events[m]);
    }
  }

  lemma {:induction false} RetryIsLastNews(events: seq<Event>, n: nat)
    requires AfterLast(events, n, IsRetryNews)
    ensures Fold(BLANK, events).retry
         == if n > 0 && events[n - 1].Retry?
            then Some(Wait(events[n - 1].attempt.value, events[n - 1].delayMs.value, events[n - 1].persistent)) else None
  {
    var m := |events| - 1;
    if n <= m {
      RetryIsLastNews(events[..m], n);
      assert !IsRetryNews(events[m]);
    }
  }

  /** What the buffers hold, from the feed alone: the text streamed since the assistant last said something,
      the reasoning streamed since its last message, the last plan asked for unless one was presented since,
      and the last retry wait unless anything was streamed, said or fallen back to since. */
  ghost predicate Holds(v: View, events: seq<Event>) {
    && (exists n :: AfterLast(events, n, IsSpoken) && v.text == Streamed(events[n..]))
    && (exists n :: AfterLast(events, n, IsAnswer) && v.reasoning == Reasoned(events[n..]))
    && (forall p :: v.plan == Some(p) <==>
          exists n :: IsLast(events, n, IsPlanNews) && events[n] == PlanAsk(Some(p.requestId), Some(p.plan)))
    && (forall w :: v.retry == Some(w) <==>
          exists n :: IsLast(events, n, IsRetryNews) && events[n] == Retry(Some(w.attempt), Some(w.delayMs), w.persistent))
  }

  lemma PlanHeld(events: seq<Event>, p: Plan)
    ensures Fold(BLANK, events).plan == Some(p) <==>
              exists n :: IsLast(events, n, IsPlanNews) && events[n] == PlanAsk(Some(p.requestId), Some(p.plan))
  {
    var n := FindAfterLast(events, IsPlanNews);
    PlanIsLastNews(events, n);
    if n > 0 { assert IsLast(events, n - 1, IsPlanNews); }
  }

  lemma RetryHeld(events: seq<Event>, w: Wait)
    ensures Fold(BLANK, events).retry == Some(w) <==>
              exists n :: IsLast(events, n, IsRetryNews) && events[n] == Retry(Some(w.attempt), Some(w.delayMs), w.persistent)
  {
    var n := FindAfterLast(events, IsRetryNews);
    RetryIsLastNews(events, n);
    if n > 0 { assert IsLast(events, n - 1, IsRetryNews); }
  }

  lemma BuffersHold(events: seq<Event>)
    ensures Holds(Fold(BLANK, events), events)
  {
    var a := FindAfterLast(events, IsSpoken);
    TextIsStreamed(events, a);
    var b := FindAfterLast(events, IsAnswer);
    ReasoningIsReasoned(events, b);
    forall p ensures Fold(BLANK, events).plan == Some(p) <==>
              exists n :: IsLast(events, n, IsPlanNews) && events[n] == PlanAsk(Some(p.requestId), Some(p.plan))
    {
      PlanHeld(events, p);
    }
    forall w ensures Fold(BLANK, events).retry == Some(w) <==>
              exists n :: IsLast(events, n, IsRetryNews) && events[n] == Retry(Some(w.attempt), Some(w.delayMs), w.persistent)
    {
      RetryHeld(events, w);
    }
  }

  // ---------------------------------------------------------------- the registry

  method Buffer(v: View, ev: Event) returns (w: View)
    ensures w == Apply(v, ev)
  {
    var text, reasoning, plan, retry := v.text, v.reasoning, v.plan, v.retry;
    match ev {
      case Delta(t) =>
        text := text + TextOf(t);
        retry := None;
      case Reasoning(t) =>
        reasoning := reasoning + TextOf(t);
        retry := None;
      case Message(assistant, content) =>
        retry := None;
        if assistant {
          reasoning := "";
          if content.Some? && HasText(content.value) { text := ""; }
        }
      case Retry(attempt, delayMs, persistent) =>
        if attempt.Some? && delayMs.Some? { retry := Some(Wait(attempt.value, delayMs.value, persistent)); }
      case Fallback => retry := None;
      case PlanAsk(id, p) => if id.Some? && p.Some? { plan := Some(Plan(id.value, p.value)); }
      case PlanPresented => plan := None;
      case Terminal =>
      case OtherEvent(_) =>
    }
    w := View(text, reasoning, plan, retry);
  }

  /** Hand the event to every listener; one that throws is dropped, and the rest still receive it. */
  method FanOut(listeners: map<ListenerId, seq<Event>>, ev: Event, dead: set<ListenerId>)
    returns (out: map<ListenerId, seq<Event>>)
    ensures out.Keys == listeners.Keys - dead
    ensures forall l :: l in out ==> out[l] == listeners[l] + [ev]
  {
    var remaining := listeners.Keys;
    out := listeners;
    while remaining != {}
      invariant remaining <= listeners.Keys
      invariant out.Keys == listeners.Keys - (dead - remaining)
      invariant forall l :: l in remaining ==> out[l] == listeners[l]
      invariant forall l :: l in out && l !in remaining ==> out[l] == listeners[l] + [ev]
      decreases |remaining|
    {
      var l :| l in remaining;
      remaining := remaining - {l};
      out := if l in dead then out - {l} else out[l := out[l] + [ev]];
    }
  }

  type ListenerId = nat

  /** A claimed turn slot.  Each listener is the log of events written to its socket so far. */
  datatype Turn = Turn(view: View, listeners: map<ListenerId, seq<Event>>, aborted: bool)

  class LiveTurnRegistry {
    var turns: map<string, Turn>
    /** The events broadcast to each live turn since it began. */
    ghost var feeds: map<string, seq<Event>>

    /** The registry has buffered what the feed says, and every attached viewer shows it. */
    ghost predicate Valid()
      reads this
    {
      && turns.Keys == feeds.Keys
      && (forall k :: k in turns ==> turns[k].view == Fold(BLANK, feeds[k]))
      && forall k, l :: k in turns && l in turns[k].listeners ==> Fold(BLANK, turns[k].listeners[l]) == turns[k].view
    }

    /** So the view of a live turn holds what its whole feed says, whoever attached when. */
    lemma ViewHoldsFeed(key: string)
      requires Valid() && key in turns
      ensures Holds(turns[key].view, feeds[key])
      ensures forall l :: l in turns[key].listeners ==> Holds(Fold(BLANK, turns[key].listeners[l]), feeds[key])
    {
      BuffersHold(feeds[key]);
    }

    constructor ()
      ensures Valid() && turns == map[]
    {
      turns, feeds := map[], map[];
    }

    /** Claim the slot of a session; refused when a turn is already live there. */
    method Begin(key: string) returns (claimed: bool)
      requires Valid()
      modifies this
      ensures Valid()
      ensures claimed <==> key !in old(turns)
      ensures turns == if claimed then old(turns)[key := Turn(BLANK, map[], false)] else old(turns)
      ensures feeds == if claimed then old(feeds)[key := []] else old(feeds)
    {
      if key in turns { return false; }
      turns, feeds := turns[key := Turn(BLANK, map[], false)], feeds[key := []];
      return true;
    }

    /** Re-attach: snapshot, replay to the new socket, subscribe.  There is no await between the three. */
    method AttachStream(key: string, l: ListenerId, parked: seq<string>) returns (attached: bool)
      requires Valid()
      requires key in turns ==> l !in turns[key].listeners
      modifies this`turns
      ensures Valid()
      ensures attached <==> key in old(turns)
      ensures !attached ==> turns == old(turns)
      ensures attached ==> key in turns && l in turns[key].listeners && Fold(BLANK, turns[key].listeners[l]) == old(turns)[key].view
      ensures attached ==> turns == old(turns)[key := old(turns)[key].(listeners := turns[key].listeners)]
      ensures attached ==> turns[key].listeners - {l} == old(turns)[key].listeners
    {
      if key !in turns { return false; }
      var turn := turns[key];
      ReplayRebuilds(turn.view, parked);
      var listeners := turn.listeners[l := Replay(turn.view, parked)];
      assert listeners - {l} == turn.listeners;
      turns := turns[key := turn.(listeners := listeners)];
      return true;
    }

    method Detach(key: string, l: ListenerId)
      requires Valid()
      modifies this`turns
      ensures Valid()
      ensures key in old(turns) ==> turns == old(turns)[key := old(turns)[key].(listeners := old(turns)[key].listeners - {l})]
      ensures key !in old(turns) ==> turns == old(turns)
    {
      if key !in turns { return; }
      turns := turns[key := turns[key].(listeners := turns[key].listeners - {l})];
    }

    /** Fold the event into the buffers and fan it out; a listener that throws (one in `dead`) is dropped and
        the others still receive the event. */
    method Broadcast(key: string, ev: Event, dead: set<ListenerId>)
      requires Valid()
      modifies this
      ensures Valid()
      ensures key !in old(turns) ==> turns == old(turns)
      ensures feeds == if key in old(turns) then old(feeds)[key := old(feeds)[key] + [ev]] else old(feeds)
      ensures key in old(turns) ==> key in turns && turns == old(turns)[key := turns[key]]
      ensures key in old(turns) ==>
                && turns[key].view == Apply(old(turns)[key].view, ev)
                && turns[key].aborted == old(turns)[key].aborted
                && turns[key].listeners.Keys == old(turns)[key].listeners.Keys - dead
                && forall l :: l in turns[key].listeners ==>
                     turns[key].listeners[l] == old(turns)[key].listeners[l] + [ev]
    {
      if key !in turns { return; }
      var turn := turns[key];
      var view := Buffer(turn.view, ev);
      var listeners := FanOut(turn.listeners, ev, dead);
      turns := turns[key := Turn(view, listeners, turn.aborted)];
      feeds := feeds[key := feeds[key] + [ev]];
      assert (old(feeds)[key] + [ev])[..|old(feeds)[key]|] == old(feeds)[key];
      forall l | l in listeners
        ensures Fold(BLANK, listeners[l]) == view
      {
        FoldConcat(BLANK, turn.listeners[l], [ev]);
        FoldOne(turn.view, ev);
      }
    }

    /** Stopping aborts the turn and releases nothing: the slot stays claimed until the loop settles. */
    method Stop(key: string) returns (live: bool)
      requires Valid()
      modifies this`turns
      ensures Valid()
      ensures live <==> key in old(turns)
      ensures turns == if live then old(turns)[key := old(turns)[key].(aborted := true)] else old(turns)
    {
      if key !in turns { return false; }
      turns := turns[key := turns[key].(aborted := true)];
      return true;
    }

    method End(key: string)
      requires Valid()
      modifies this
      ensures Valid() && turns == old(turns) - {key}
    {
      turns, feeds := turns - {key}, feeds - {key};
    }
  }
}
