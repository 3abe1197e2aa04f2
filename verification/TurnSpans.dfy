/** The turn's span recorder: it listens to the loop's events and writes down spans as they open and close.
    Times are integer milliseconds; span ids are what the injected id source hands out, one after another. */
module TurnSpans {

  datatype Option<+T> = None | Some(value: T)

  datatype Kind = RootSpan | ChatSpan | ToolSpan | AgentSpan

  datatype Point = Point(name: string, at: int)

  datatype Usage = Usage(model: string, inputTokens: nat, outputTokens: nat)

  /** A span still being written: everything but its end. */
  datatype Open = Open(
    spanId: nat, kind: Kind, name: string, startMs: int,
    input: Option<string>, output: Option<string>, usage: Option<Usage>, events: seq<Point>)

  datatype Span = Span(open: Open, parent: Option<nat>, endMs: int, error: Option<string>)

  datatype Keyed = Keyed(key: string, open: Open)

  datatype Event =
    | TurnStart(turn: nat)
    | UsageEvent(usage: Usage)
    | AssistantMessage(content: string)
    | ToolCall(id: Option<string>, name: string, args: string)
    | ToolResult(id: Option<string>, name: string, isError: bool, output: Option<string>)
    | SubagentLaunched(sub: string)
    | SubagentDone(sub: string, failed: bool)
    | PointEvent(what: string)          // retry, fallback, compaction, truncated, permission, input
    | Done(stopReason: string)
    | StreamEvent                       // text and reasoning deltas: the stream, not the record

  datatype Rec = Rec(
    nextId: nat, rootId: nat, startMs: int, closed: seq<Span>, rootEvents: seq<Point>,
    tools: seq<Keyed>, chat: Option<Open>, subs: seq<Keyed>, stopReason: Option<string>)

  const UNRETURNED := "the turn ended before this returned"

  function Begin(startMs: int): Rec {
    Rec(1, 0, startMs, [], [], [], None, [], None)
  }

  // ---------------------------------------------------------------- insertion-ordered maps of open spans

  function IndexOf(list: seq<Keyed>, key: string): (i: int)
    ensures -1 <= i < |list|
    ensures i >= 0 ==> list[i].key == key
    ensures i < 0 ==> forall k :: 0 <= k < |list| ==> list[k].key != key
  {
    if list == [] then -1
    else if list[|list| - 1].key == key then |list| - 1
    else IndexOf(list[..|list| - 1], key)
  }

  function Put(list: seq<Keyed>, key: string, o: Open): seq<Keyed> {
    var i := IndexOf(list, key);
    if i >= 0 then list[i := Keyed(key, o)] else list + [Keyed(key, o)]
  }

  function RemoveAt(list: seq<Keyed>, i: nat): seq<Keyed>
    requires i < |list|
  {
    list[..i] + list[i + 1..]
  }

  function ToolKey(id: Option<string>, name: string): string {
    if id.Some? then id.value else name
  }

  // ---------------------------------------------------------------- the recorder, on values

  function DoClose(r: Rec, o: Open, endMs: int, error: Option<string>): Rec {
    r.(closed := r.closed + [Span(o, Some(r.rootId), if endMs >= o.startMs then endMs else o.startMs, error)])
  }

  function DoCloseChat(r: Rec, endMs: int): Rec {
    if r.chat.None? then r else DoClose(r, r.chat.value, endMs, None).(chat := None)
  }

  function DoAddPoint(r: Rec, at: int, what: string): Rec {
    if r.chat.Some? then r.(chat := Some(r.chat.value.(events := r.chat.value.events + [Point(what, at)])))
    else r.(rootEvents := r.rootEvents + [Point(what, at)])
  }

  function NewOpen(r: Rec, kind: Kind, name: string, at: int, input: Option<string>): Open {
    Open(r.nextId, kind, name, at, input, None, None, [])
  }

  function DoObserve(r: Rec, at: int, ev: Event): Rec {
    match ev
    case TurnStart(_) =>
      DoCloseChat(r, at).(chat := Some(NewOpen(r, ChatSpan, "chat", at, None)), nextId := r.nextId + 1)
    case UsageEvent(u) =>
      if r.chat.Some? then r.(chat := Some(r.chat.value.(usage := Some(u)))) else DoAddPoint(r, at, "usage")
    case AssistantMessage(content) =>
      if r.chat.None? then r
      else DoClose(r, r.chat.value.(output := Some(content)), at, None).(chat := None)
    case ToolCall(id, name, args) =>
      var q := DoCloseChat(r, at);
      q.(tools := Put(q.tools, ToolKey(id, name), NewOpen(r, ToolSpan, name, at, Some(args))), nextId := r.nextId + 1)
    case ToolResult(id, name, isError, output) =>
      var i := IndexOf(r.tools, ToolKey(id, name));
      if i < 0 then r
      else
        var o := r.tools[i].open;
        DoClose(r.(tools := RemoveAt(r.tools, i)), if output.Some? then o.(output := output) else o, at,
              if isError then Some("tool reported an error") else None)
    case SubagentLaunched(sub) =>
      r.(subs := Put(r.subs, sub, NewOpen(r, AgentSpan, sub, at, None)), nextId := r.nextId + 1)
    case SubagentDone(sub, failed) =>
      var i := IndexOf(r.subs, sub);
      if i < 0 then r
      else DoClose(r.(subs := RemoveAt(r.subs, i)), r.subs[i].open, at, if failed then Some("subagent failed") else None)
    case PointEvent(what) => DoAddPoint(r, at, what)
    case Done(reason) => r.(stopReason := Some(reason))
    case StreamEvent => r
  }

  lemma ObserveKeepsClosed(r: Rec, at: int, ev: Event)
    ensures r.closed <= DoObserve(r, at, ev).closed
  {
  }

  function CloseAll(r: Rec, list: seq<Keyed>, endMs: int): Rec {
    if list == [] then r
    else DoClose(CloseAll(r, list[..|list| - 1], endMs), list[|list| - 1].open, endMs, Some(UNRETURNED))
  }

  /** What sealing leaves: everything still open is closed at the end, and a failure is written on the root. */
  function Finish(r: Rec, endMs: int, failure: Option<string>): Rec {
    var a := DoCloseChat(r, endMs);
    var b := CloseAll(a, a.tools, endMs).(tools := []);
    var c := CloseAll(b, b.subs, endMs).(subs := []);
    if failure.Some? then c.(rootEvents := c.rootEvents + [Point("error", endMs)]) else c
  }

  function Root(r: Rec, endMs: int, failure: Option<string>): Span {
    Span(Open(r.rootId, RootSpan, "invoke_agent", r.startMs, None, r.stopReason, None, r.rootEvents), None, endMs, failure)
  }

  function Sealed(r: Rec, endMs: int, failure: Option<string>): seq<Span> {
    var done := Finish(r, endMs, failure);
    [Root(done, endMs, failure)] + done.closed
  }

  // ---------------------------------------------------------------- the recorder

  class TurnSpanRecorder {
    var nextId: nat
    const rootId: nat
    const startMs: int
    var closed: seq<Span>
    var rootEvents: seq<Point>
    var openTools: seq<Keyed>
    var chat: Option<Open>
    var openSubagents: seq<Keyed>
    var stopReason: Option<string>

    ghost function View(): Rec reads this {
      Rec(nextId, rootId, startMs, closed, rootEvents, openTools, chat, openSubagents, stopReason)
    }

    constructor (now: int)
      ensures View() == Begin(now)
    {
      rootId, nextId, startMs := 0, 1, now;
      closed, rootEvents, openTools, openSubagents := [], [], [], [];
      chat, stopReason := None, None;
    }

    method NewSpanId() returns (id: nat)
      modifies this`nextId
      ensures id == old(nextId) && nextId == id + 1
    {
      id := nextId;
      nextId := nextId + 1;
    }

    method Close(o: Open, endMs: int, error: Option<string>)
      modifies this`closed
      ensures View() == DoClose(old(View()), o, endMs, error)
    {
      closed := closed + [Span(o, Some(rootId), if endMs >= o.startMs then endMs else o.startMs, error)];
    }

    method CloseChat(endMs: int)
      modifies this`closed, this`chat
      ensures View() == DoCloseChat(old(View()), endMs)
    {
      if chat.None? { return; }
      Close(chat.value, endMs, None);
      chat := None;
    }

    method AddPoint(at: int, what: string)
      modifies this`chat, this`rootEvents
      ensures View() == DoAddPoint(old(View()), at, what)
    {
      if chat.Some? {
        chat := Some(chat.value.(events := chat.value.events + [Point(what, at)]));
      } else {
        rootEvents := rootEvents + [Point(what, at)];
      }
    }

    method CloseTool(at: int, id: Option<string>, name: string, isError: bool, output: Option<string>)
      modifies this`openTools, this`closed
      ensures View() == DoObserve(old(View()), at, ToolResult(id, name, isError, output))
    {
      var i := IndexOf(openTools, ToolKey(id, name));
      if i < 0 { return; }
      var open := openTools[i].open;
      openTools := RemoveAt(openTools, i);
      if output.Some? { open := open.(output := output); }
      Close(open, at, if isError then Some("tool reported an error") else None);
    }

    method CloseSubagent(at: int, sub: string, failed: bool)
      modifies this`openSubagents, this`closed
      ensures View() == DoObserve(old(View()), at, SubagentDone(sub, failed))
    {
      var i := IndexOf(openSubagents, sub);
      if i < 0 { return; }
      var open := openSubagents[i].open;
      openSubagents := RemoveAt(openSubagents, i);
      Close(open, at, if failed then Some("subagent failed") else None);
    }

    /** One event.  A span, once closed, is never touched again. */
    method Observe(at: int, ev: Event)
      modifies this
      ensures View() == DoObserve(old(View()), at, ev)
      ensures old(closed) <= closed
    {
      ObserveKeepsClosed(View(), at, ev);
      match ev
      case TurnStart(_) =>
        CloseChat(at);
        var id := NewSpanId();
        chat := Some(Open(id, ChatSpan, "chat", at, None, None, None, []));
      case UsageEvent(u) =>
        if chat.Some? { chat := Some(chat.value.(usage := Some(u))); } else { AddPoint(at, "usage"); }
      case AssistantMessage(content) =>
        if chat.Some? {
          chat := Some(chat.value.(output := Some(content)));
          Close(chat.value, at, None);
          chat := None;
        }
      case ToolCall(id, name, args) =>
        CloseChat(at);
        var spanId := NewSpanId();
        openTools := Put(openTools, ToolKey(id, name), Open(spanId, ToolSpan, name, at, Some(args), None, None, []));
      case ToolResult(id, name, isError, output) => CloseTool(at, id, name, isError, output);
      case SubagentLaunched(sub) =>
        var spanId := NewSpanId();
        openSubagents := Put(openSubagents, sub, Open(spanId, AgentSpan, sub, at, None, None, None, []));
      case SubagentDone(sub, failed) => CloseSubagent(at, sub, failed);
      case PointEvent(what) => AddPoint(at, what);
      case Done(reason) => stopReason := Some(reason);
      case StreamEvent =>
    }

    method CloseEach(list: seq<Keyed>, endMs: int)
      modifies this`closed
      ensures View() == CloseAll(old(View()), list, endMs)
    {
      for i := 0 to |list|
        invariant View() == CloseAll(old(View()), list[..i], endMs)
      {
        assert list[..i + 1][..i] == list[..i];
        Close(list[i].open, endMs, Some(UNRETURNED));
      }
      assert list[..|list|] == list;
    }

    method Seal(endMs: int, failure: Option<string>) returns (spans: seq<Span>)
      modifies this
      ensures View() == Finish(old(View()), endMs, failure)
      ensures spans == Sealed(old(View()), endMs, failure)
    {
      CloseChat(endMs);
      CloseEach(openTools, endMs);
      openTools := [];
      CloseEach(openSubagents, endMs);
      openSubagents := [];
      if failure.Some? {
        rootEvents := rootEvents + [Point("error", endMs)];
      }
      var root := Span(Open(rootId, RootSpan, "invoke_agent", startMs, None, stopReason, None, rootEvents), None, endMs, failure);
      return [root] + closed;
    }
  }

  // ---------------------------------------------------------------- recordings, and what they should hold

  datatype Timed = Timed(at: int, ev: Event)

  function Record(startMs: int, evs: seq<Timed>): Rec {
    if evs == [] then Begin(startMs)
    else DoObserve(Record(startMs, evs[..|evs| - 1]), evs[|evs| - 1].at, evs[|evs| - 1].ev)
  }

  /** What identifies a piece of work in the record: its span id, what it was and when it started. */
  datatype Work = Work(spanId: nat, kind: Kind, name: string, startMs: int)

  /** The work one event starts, if it starts any. */
  function Gained(id: nat, at: int, ev: Event): Option<Work> {
    match ev
    case TurnStart(_) => Some(Work(id, ChatSpan, "chat", at))
    case ToolCall(_, name, _) => Some(Work(id, ToolSpan, name, at))
    case SubagentLaunched(sub) => Some(Work(id, AgentSpan, sub, at))
    case _ => None
  }

  /** The work a turn actually started, read off its events alone: the n-th opening gets span id n. */
  function Started(evs: seq<Timed>): seq<Work> {
    if evs == [] then []
    else
      var before := Started(evs[..|evs| - 1]);
      var g := Gained(|before| + 1, evs[|evs| - 1].at, evs[|evs| - 1].ev);
      if g.Some? then before + [g.value] else before
  }

  /** The keys of the tool calls, and of the subagents, that are open after a turn's events. */
  function OpenToolKeys(evs: seq<Timed>): set<string> {
    if evs == [] then {} else ToolKeysAfter(OpenToolKeys(evs[..|evs| - 1]), evs[|evs| - 1].ev)
  }

  function ToolKeysAfter(keys: set<string>, ev: Event): set<string> {
    match ev
    case ToolCall(id, name, _) => keys + {ToolKey(id, name)}
    case ToolResult(id, name, _, _) => keys - {ToolKey(id, name)}
    case _ => keys
  }

  function OpenSubKeys(evs: seq<Timed>): set<string> {
    if evs == [] then {} else SubKeysAfter(OpenSubKeys(evs[..|evs| - 1]), evs[|evs| - 1].ev)
  }

  function SubKeysAfter(keys: set<string>, ev: Event): set<string> {
    match ev
    case SubagentLaunched(sub) => keys + {sub}
    case SubagentDone(sub, _) => keys - {sub}
    case _ => keys
  }

  /** How many openings reused the key of something still open. */
  function Reuses(evs: seq<Timed>): nat {
    if evs == [] then 0
    else
      var before := evs[..|evs| - 1];
      Reuses(before) +
      match evs[|evs| - 1].ev
      case ToolCall(id, name, _) => if ToolKey(id, name) in OpenToolKeys(before) then 1 else 0
      case SubagentLaunched(sub) => if sub in OpenSubKeys(before) then 1 else 0
      case _ => 0
  }

  function ModelSpeaking(evs: seq<Timed>): bool {
    evs != [] && SpeakingAfter(ModelSpeaking(evs[..|evs| - 1]), evs[|evs| - 1].ev)
  }

  function SpeakingAfter(speaking: bool, ev: Event): bool {
    match ev
    case TurnStart(_) => true
    case AssistantMessage(_) => false
    case ToolCall(_, _, _) => false
    case _ => speaking
  }

  /** The point one event amounts to; token spend is a point only when no model call is open. */
  function NewPoint(speaking: bool, at: int, ev: Event): Option<Point> {
    match ev
    case PointEvent(what) => Some(Point(what, at))
    case UsageEvent(_) => if speaking then None else Some(Point("usage", at))
    case _ => None
  }

  function Points(evs: seq<Timed>): seq<Point> {
    if evs == [] then []
    else
      var before := evs[..|evs| - 1];
      var g := NewPoint(ModelSpeaking(before), evs[|evs| - 1].at, evs[|evs| - 1].ev);
      if g.Some? then Points(before) + [g.value] else Points(before)
  }

  // ---------------------------------------------------------------- what a record holds

  function WorkOf(o: Open): Work { Work(o.spanId, o.kind, o.name, o.startMs) }

  /** The work a list of spans records. */
  function Works(spans: seq<Span>): seq<Work> {
    seq(|spans|, i requires 0 <= i < |spans| => WorkOf(spans[i].open))
  }

  function One(o: Open, w: Work): nat { if WorkOf(o) == w then 1 else 0 }

  /** How often a piece of work occurs among closed spans, among open ones, and in the whole record. */
  function InSpans(spans: seq<Span>, w: Work): nat {
    if spans == [] then 0 else InSpans(spans[..|spans| - 1], w) + One(spans[|spans| - 1].open, w)
  }

  function InKeyed(list: seq<Keyed>, w: Work): nat {
    if list == [] then 0 else InKeyed(list[..|list| - 1], w) + One(list[|list| - 1].open, w)
  }

  function InChat(c: Option<Open>, w: Work): nat {
    if c.None? then 0 else One(c.value, w)
  }

  function Held(r: Rec, w: Work): nat {
    InSpans(r.closed, w) + InKeyed(r.tools, w) + InKeyed(r.subs, w) + InChat(r.chat, w)
  }

  function Size(r: Rec): nat {
    |r.closed| + |r.tools| + |r.subs| + (if r.chat.Some? then 1 else 0)
  }

  /** How often a point occurs on closed spans, and in the whole record. */
  function PointIn(spans: seq<Span>, p: Point): nat {
    if spans == [] then 0 else PointIn(spans[..|spans| - 1], p) + multiset(spans[|spans| - 1].open.events)[p]
  }

  function HeldPoint(r: Rec, p: Point): nat {
    PointIn(r.closed, p) + (if r.chat.Some? then multiset(r.chat.value.events)[p] else 0) + multiset(r.rootEvents)[p]
  }

  lemma {:induction false} KeyedUpdate(list: seq<Keyed>, i: nat, k: Keyed, w: Work)
    requires i < |list|
    ensures InKeyed(list[i := k], w) + One(list[i].open, w) == InKeyed(list, w) + One(k.open, w)
  {
    var n := |list| - 1;
    if i == n {
      assert list[i := k][..n] == list[..n];
    } else {
      KeyedUpdate(list[..n], i, k, w);
      assert list[i := k][..n] == list[..n][i := k];
    }
  }

  lemma {:induction false} KeyedRemove(list: seq<Keyed>, i: nat, w: Work)
    requires i < |list|
    ensures InKeyed(RemoveAt(list, i), w) + One(list[i].open, w) == InKeyed(list, w)
  {
    var n := |list| - 1;
    if i == n {
      assert RemoveAt(list, i) == list[..n];
    } else {
      KeyedRemove(list[..n], i, w);
      var cut := RemoveAt(list, i);
      assert cut[n - 1] == list[n];
      assert cut[..n - 1] == RemoveAt(list[..n], i);
    }
  }

  lemma PutWork(list: seq<Keyed>, key: string, o: Open, w: Work)
    ensures var i := IndexOf(list, key);
            InKeyed(Put(list, key, o), w) + (if i >= 0 then One(list[i].open, w) else 0) == InKeyed(list, w) + One(o, w)
  {
    var i := IndexOf(list, key);
    if i >= 0 {
      KeyedUpdate(list, i, Keyed(key, o), w);
    } else {
      assert (list + [Keyed(key, o)])[..|list|] == list;
    }
  }

  lemma CloseHolds(r: Rec, o: Open, endMs: int, error: Option<string>, w: Work)
    ensures Held(DoClose(r, o, endMs, error), w) == Held(r, w) + One(o, w)
  {
    assert DoClose(r, o, endMs, error).closed[..|r.closed|] == r.closed;
  }

  lemma CloseChatHolds(r: Rec, endMs: int, w: Work)
    ensures Held(DoCloseChat(r, endMs), w) == Held(r, w)
  {
    if r.chat.Some? { CloseHolds(r, r.chat.value, endMs, None, w); }
  }

  /** The open span an event overwrites: the one whose key it reuses. */
  function Overwritten(r: Rec, ev: Event): Option<Open> {
    match ev
    case ToolCall(id, name, _) =>
      var i := IndexOf(r.tools, ToolKey(id, name));
      if i >= 0 then Some(r.tools[i].open) else None
    case SubagentLaunched(sub) =>
      var i := IndexOf(r.subs, sub);
      if i >= 0 then Some(r.subs[i].open) else None
    case _ => None
  }

  lemma ResultHolds(r: Rec, i: nat, o: Open, at: int, error: Option<string>, w: Work)
    requires i < |r.tools| && WorkOf(o) == WorkOf(r.tools[i].open)
    ensures Held(DoClose(r.(tools := RemoveAt(r.tools, i)), o, at, error), w) == Held(r, w)
  {
    KeyedRemove(r.tools, i, w);
    CloseHolds(r.(tools := RemoveAt(r.tools, i)), o, at, error, w);
  }

  lemma SubagentHolds(r: Rec, i: nat, at: int, error: Option<string>, w: Work)
    requires i < |r.subs|
    ensures Held(DoClose(r.(subs := RemoveAt(r.subs, i)), r.subs[i].open, at, error), w) == Held(r, w)
  {
    KeyedRemove(r.subs, i, w);
    CloseHolds(r.(subs := RemoveAt(r.subs, i)), r.subs[i].open, at, error, w);
  }

  lemma ToolCallHolds(r: Rec, at: int, key: string, o: Open, w: Work)
    ensures var q := DoCloseChat(r, at);
            Held(q.(tools := Put(q.tools, key, o), nextId := r.nextId + 1), w)
              + (if IndexOf(r.tools, key) >= 0 then One(r.tools[IndexOf(r.tools, key)].open, w) else 0)
            == Held(r, w) + One(o, w)
  {
    CloseChatHolds(r, at, w);
    PutWork(r.tools, key, o, w);
  }

  /** The law ObserveHolds proves: one event moves the record by exactly what it starts and overwrites. */
  ghost predicate Moves(r: Rec, at: int, ev: Event, w: Work) {
    Held(DoObserve(r, at, ev), w) + InChat(Overwritten(r, ev), w)
    == Held(r, w) + (if Gained(r.nextId, at, ev) == Some(w) then 1 else 0)
  }

  lemma ChatMoves(r: Rec, at: int, ev: Event, w: Work)
    requires ev.TurnStart? || ev.AssistantMessage?
    ensures Moves(r, at, ev, w)
  {
    if ev.TurnStart? {
      CloseChatHolds(r, at, w);
    } else if r.chat.Some? {
      CloseHolds(r, r.chat.value.(output := Some(ev.content)), at, None, w);
    }
  }

  lemma ToolMoves(r: Rec, at: int, ev: Event, w: Work)
    requires ev.ToolCall? || ev.ToolResult?
    ensures Moves(r, at, ev, w)
  {
    if ev.ToolCall? {
      ToolCallHolds(r, at, ToolKey(ev.id, ev.name), NewOpen(r, ToolSpan, ev.name, at, Some(ev.args)), w);
    } else {
      var i := IndexOf(r.tools, ToolKey(ev.id, ev.name));
      if i >= 0 {
        var o := r.tools[i].open;
        ResultHolds(r, i, if ev.output.Some? then o.(output := ev.output) else o, at,
                    if ev.isError then Some("tool reported an error") else None, w);
      }
    }
  }

  lemma LaunchMoves(r: Rec, at: int, sub: string, w: Work)
    ensures Moves(r, at, SubagentLaunched(sub), w)
  {
    var o := NewOpen(r, AgentSpan, sub, at, None);
    var t := DoObserve(r, at, SubagentLaunched(sub));
    assert t == r.(subs := Put(r.subs, sub, o), nextId := r.nextId + 1);
    PutWork(r.subs, sub, o, w);
  }

  lemma SubagentDoneMoves(r: Rec, at: int, sub: string, failed: bool, w: Work)
    ensures Moves(r, at, SubagentDone(sub, failed), w)
  {
    var i := IndexOf(r.subs, sub);
    if i >= 0 {
      var error := if failed then Some("subagent failed") else None;
      assert DoObserve(r, at, SubagentDone(sub, failed))
          == DoClose(r.(subs := RemoveAt(r.subs, i)), r.subs[i].open, at, error);
      SubagentHolds(r, i, at, error, w);
    }
  }

  lemma ObserveHolds(r: Rec, at: int, ev: Event, w: Work)
    ensures Moves(r, at, ev, w)
  {
    if ev.TurnStart? || ev.AssistantMessage? {
      ChatMoves(r, at, ev, w);
    } else if ev.ToolCall? || ev.ToolResult? {
      ToolMoves(r, at, ev, w);
    } else if ev.SubagentLaunched? {
      LaunchMoves(r, at, ev.sub, w);
    } else if ev.SubagentDone? {
      SubagentDoneMoves(r, at, ev.sub, ev.failed, w);
    }
  }

  // ---------------------------------------------------------------- conservation of work

  function Keys(list: seq<Keyed>): set<string> {
    set i | 0 <= i < |list| :: list[i].key
  }

  ghost predicate DistinctKeys(list: seq<Keyed>) {
    forall i, j :: 0 <= i < j < |list| ==> list[i].key != list[j].key
  }

  lemma PutKeys(list: seq<Keyed>, key: string, o: Open)
    requires DistinctKeys(list)
    ensures DistinctKeys(Put(list, key, o)) && Keys(Put(list, key, o)) == Keys(list) + {key}
    ensures IndexOf(list, key) >= 0 <==> key in Keys(list)
  {
    var put := Put(list, key, o);
    var i := IndexOf(list, key);
    forall k | k in Keys(list) + {key} ensures k in Keys(put) {
      if k == key {
        var at := if i >= 0 then i else |list|;
        assert put[at].key == key;
      } else {
        var j :| 0 <= j < |list| && list[j].key == k;
        assert put[j].key == k;
      }
    }
  }

  lemma RemoveKeys(list: seq<Keyed>, i: nat)
    requires DistinctKeys(list) && i < |list|
    ensures DistinctKeys(RemoveAt(list, i)) && Keys(RemoveAt(list, i)) == Keys(list) - {list[i].key}
  {
    var cut := RemoveAt(list, i);
    forall k | k in Keys(list) - {list[i].key} ensures k in Keys(cut) {
      var j :| 0 <= j < |list| && list[j].key == k;
      assert cut[if j < i then j else j - 1].key == k;
    }
  }

  ghost predicate Tracks(r: Rec, evs: seq<Timed>) {
    && DistinctKeys(r.tools) && Keys(r.tools) == OpenToolKeys(evs)
    && DistinctKeys(r.subs) && Keys(r.subs) == OpenSubKeys(evs)
    && r.nextId == |Started(evs)| + 1
    && (r.chat.Some? <==> ModelSpeaking(evs))
  }

  lemma ObserveToolKeys(r: Rec, at: int, ev: Event)
    requires DistinctKeys(r.tools)
    ensures DistinctKeys(DoObserve(r, at, ev).tools)
    ensures Keys(DoObserve(r, at, ev).tools) == ToolKeysAfter(Keys(r.tools), ev)
  {
    if ev.ToolCall? {
      PutKeys(r.tools, ToolKey(ev.id, ev.name), NewOpen(r, ToolSpan, ev.name, at, Some(ev.args)));
    } else if ev.ToolResult? {
      var i := IndexOf(r.tools, ToolKey(ev.id, ev.name));
      if i >= 0 { RemoveKeys(r.tools, i); }
    } else {
      assert DoObserve(r, at, ev).tools == r.tools;
    }
  }

  lemma ObserveSubKeys(r: Rec, at: int, ev: Event)
    requires DistinctKeys(r.subs)
    ensures DistinctKeys(DoObserve(r, at, ev).subs)
    ensures Keys(DoObserve(r, at, ev).subs) == SubKeysAfter(Keys(r.subs), ev)
  {
    if ev.SubagentLaunched? {
      PutKeys(r.subs, ev.sub, NewOpen(r, AgentSpan, ev.sub, at, None));
    } else if ev.SubagentDone? {
      var i := IndexOf(r.subs, ev.sub);
      if i >= 0 { RemoveKeys(r.subs, i); }
    } else {
      assert DoObserve(r, at, ev).subs == r.subs;
    }
  }

  lemma ObserveCounters(r: Rec, at: int, ev: Event)
    ensures DoObserve(r, at, ev).nextId == r.nextId + (if Gained(r.nextId, at, ev).Some? then 1 else 0)
    ensures DoObserve(r, at, ev).chat.Some? <==> SpeakingAfter(r.chat.Some?, ev)
  {
  }

  lemma {:induction false} RecordTracks(startMs: int, evs: seq<Timed>)
    ensures Tracks(Record(startMs, evs), evs)
  {
    if evs != [] {
      var n := |evs| - 1;
      var r := Record(startMs, evs[..n]);
      RecordTracks(startMs, evs[..n]);
      ObserveToolKeys(r, evs[n].at, evs[n].ev);
      ObserveSubKeys(r, evs[n].at, evs[n].ev);
      ObserveCounters(r, evs[n].at, evs[n].ev);
    }
  }

  lemma ReuseStep(startMs: int, evs: seq<Timed>)
    requires evs != []
    ensures var n := |evs| - 1;
            Reuses(evs) == Reuses(evs[..n]) + (if Overwritten(Record(startMs, evs[..n]), evs[n].ev).Some? then 1 else 0)
  {
    var n := |evs| - 1;
    RecordTracks(startMs, evs[..n]);
    var r := Record(startMs, evs[..n]);
    assert forall key :: IndexOf(r.tools, key) >= 0 <==> key in Keys(r.tools);
    assert forall key :: IndexOf(r.subs, key) >= 0 <==> key in Keys(r.subs);
  }

  lemma {:induction false} RecordHolds(startMs: int, evs: seq<Timed>, w: Work)
    ensures Held(Record(startMs, evs), w) <= multiset(Started(evs))[w]
    ensures Reuses(evs) == 0 ==> Held(Record(startMs, evs), w) == multiset(Started(evs))[w]
  {
    if evs != [] {
      var n := |evs| - 1;
      var r := Record(startMs, evs[..n]);
      RecordHolds(startMs, evs[..n], w);
      RecordTracks(startMs, evs[..n]);
      ObserveHolds(r, evs[n].at, evs[n].ev, w);
      ReuseStep(startMs, evs);
    }
  }

  lemma ObserveSize(r: Rec, at: int, ev: Event)
    ensures Size(DoObserve(r, at, ev)) + (if Overwritten(r, ev).Some? then 1 else 0)
         == Size(r) + (if Gained(r.nextId, at, ev).Some? then 1 else 0)
  {
  }

  lemma {:induction false} RecordSize(startMs: int, evs: seq<Timed>)
    ensures Size(Record(startMs, evs)) + Reuses(evs) == |Started(evs)|
  {
    if evs != [] {
      var n := |evs| - 1;
      RecordSize(startMs, evs[..n]);
      RecordTracks(startMs, evs[..n]);
      ObserveSize(Record(startMs, evs[..n]), evs[n].at, evs[n].ev);
      ReuseStep(startMs, evs);
    }
  }

  lemma {:induction false} CloseAllHolds(r: Rec, list: seq<Keyed>, endMs: int, w: Work)
    ensures Held(CloseAll(r, list, endMs), w) == Held(r, w) + InKeyed(list, w)
    ensures CloseAll(r, list, endMs).(closed := r.closed) == r
    ensures |CloseAll(r, list, endMs).closed| == |r.closed| + |list|
  {
    if list != [] {
      var n := |list| - 1;
      CloseAllHolds(r, list[..n], endMs, w);
      CloseHolds(CloseAll(r, list[..n], endMs), list[n].open, endMs, Some(UNRETURNED), w);
    }
  }

  lemma FinishHolds(r: Rec, endMs: int, failure: Option<string>, w: Work)
    ensures InSpans(Finish(r, endMs, failure).closed, w) == Held(r, w)
    ensures |Finish(r, endMs, failure).closed| == Size(r)
  {
    var a := DoCloseChat(r, endMs);
    CloseChatHolds(r, endMs, w);
    CloseAllHolds(a, a.tools, endMs, w);
    var b := CloseAll(a, a.tools, endMs).(tools := []);
    CloseAllHolds(b, b.subs, endMs, w);
  }

  lemma {:induction false} InSpansCounts(spans: seq<Span>, w: Work)
    ensures InSpans(spans, w) == multiset(Works(spans))[w]
  {
    if spans != [] {
      var n := |spans| - 1;
      InSpansCounts(spans[..n], w);
      assert Works(spans) == Works(spans[..n]) + [WorkOf(spans[n].open)];
    }
  }

  /** Span conservation, for every event sequence: sealing yields the root and one child per piece of work
      started (each with its own span id, kind, name and start) except that every reuse of a key still open
      loses one child.  So the record is complete if and only if no key was reused while open. */
  lemma SealConservesWork(startMs: int, evs: seq<Timed>, endMs: int, failure: Option<string>)
    ensures var spans := Sealed(Record(startMs, evs), endMs, failure);
            && spans[0].open.kind == RootSpan && spans[0].parent == None
            && |spans| + Reuses(evs) == 1 + |Started(evs)|
            && multiset(Works(spans[1..])) <= multiset(Started(evs))
            && (multiset(Works(spans[1..])) == multiset(Started(evs)) <==> Reuses(evs) == 0)
  {
    var r := Record(startMs, evs);
    var spans := Sealed(r, endMs, failure);
    var children := Finish(r, endMs, failure).closed;
    assert spans[1..] == children;
    RecordSize(startMs, evs);
    forall w: Work
      ensures multiset(Works(children))[w] == Held(r, w) <= multiset(Started(evs))[w]
      ensures Reuses(evs) == 0 ==> Held(r, w) == multiset(Started(evs))[w]
      ensures |children| == Size(r)
    {
      InSpansCounts(children, w);
      FinishHolds(r, endMs, failure, w);
      RecordHolds(startMs, evs, w);
    }
    FinishHolds(r, endMs, failure, Work(0, RootSpan, "", 0));
    assert |multiset(Works(children))| == |children|;
    assert |multiset(Started(evs))| == |Started(evs)|;
  }

  /** Span ids never repeat, so the children match the started work one to one. */
  lemma {:induction false} StartedIdsAreDistinct(evs: seq<Timed>, i: nat, j: nat)
    requires i < j < |Started(evs)|
    ensures Started(evs)[i].spanId != Started(evs)[j].spanId
  {
    StartedIds(evs, i);
    StartedIds(evs, j);
  }

  lemma {:induction false} StartedIds(evs: seq<Timed>, i: nat)
    requires i < |Started(evs)|
    ensures Started(evs)[i].spanId == i + 1
  {
    if i < |Started(evs[..|evs| - 1])| { StartedIds(evs[..|evs| - 1], i); }
  }

  // ---------------------------------------------------------------- how each span ended

  /** How the span an event closes ends, if it closes one: told from the events alone. */
  function EndOf(before: seq<Timed>, ev: Event): Option<Option<string>> {
    match ev
    case TurnStart(_) => if ModelSpeaking(before) then Some(None) else None
    case AssistantMessage(_) => if ModelSpeaking(before) then Some(None) else None
    case ToolCall(_, _, _) => if ModelSpeaking(before) then Some(None) else None
    case ToolResult(id, name, isError, _) =>
      if ToolKey(id, name) !in OpenToolKeys(before) then None
      else Some(if isError then Some("tool reported an error") else None)
    case SubagentDone(sub, failed) =>
      if sub !in OpenSubKeys(before) then None else Some(if failed then Some("subagent failed") else None)
    case _ => None
  }

  /** How many spans the events of a turn close with this ending. */
  function Ends(evs: seq<Timed>, error: Option<string>): nat {
    if evs == [] then 0
    else
      var before := evs[..|evs| - 1];
      Ends(before, error) + if EndOf(before, evs[|evs| - 1].ev) == Some(error) then 1 else 0
  }

  function EndedWith(spans: seq<Span>, error: Option<string>): nat {
    if spans == [] then 0 else EndedWith(spans[..|spans| - 1], error) + if spans[|spans| - 1].error == error then 1 else 0
  }

  lemma CloseEnds(r: Rec, o: Open, endMs: int, error: Option<string>, e: Option<string>)
    ensures EndedWith(DoClose(r, o, endMs, error).closed, e) == EndedWith(r.closed, e) + if e == error then 1 else 0
  {
    assert DoClose(r, o, endMs, error).closed[..|r.closed|] == r.closed;
  }

  lemma CloseChatEnds(r: Rec, endMs: int, e: Option<string>)
    ensures EndedWith(DoCloseChat(r, endMs).closed, e) == EndedWith(r.closed, e) + if r.chat.Some? && e == None then 1 else 0
  {
    if r.chat.Some? { CloseEnds(r, r.chat.value, endMs, None, e); }
  }

  lemma ObserveChatEnds(r: Rec, at: int, ev: Event, e: Option<string>)
    requires ev.TurnStart? || ev.AssistantMessage? || ev.ToolCall?
    ensures EndedWith(DoObserve(r, at, ev).closed, e) == EndedWith(r.closed, e) + if r.chat.Some? && e == None then 1 else 0
  {
    CloseChatEnds(r, at, e);
    if ev.AssistantMessage? && r.chat.Some? { CloseEnds(r, r.chat.value.(output := Some(ev.content)), at, None, e); }
  }

  lemma ObserveWorkEnds(r: Rec, evs: seq<Timed>, at: int, ev: Event, e: Option<string>)
    requires Tracks(r, evs) && (ev.ToolResult? || ev.SubagentDone?)
    ensures EndedWith(DoObserve(r, at, ev).closed, e) == EndedWith(r.closed, e) + if EndOf(evs, ev) == Some(e) then 1 else 0
  {
    if ev.ToolResult? {
      var i := IndexOf(r.tools, ToolKey(ev.id, ev.name));
      assert i >= 0 <==> ToolKey(ev.id, ev.name) in Keys(r.tools);
      if i >= 0 {
        var o := r.tools[i].open;
        CloseEnds(r.(tools := RemoveAt(r.tools, i)), if ev.output.Some? then o.(output := ev.output) else o, at,
                  if ev.isError then Some("tool reported an error") else None, e);
      }
    } else {
      var i := IndexOf(r.subs, ev.sub);
      assert i >= 0 <==> ev.sub in Keys(r.subs);
      if i >= 0 {
        CloseEnds(r.(subs := RemoveAt(r.subs, i)), r.subs[i].open, at, if ev.failed then Some("subagent failed") else None, e);
      }
    }
  }

  lemma ObserveEnds(r: Rec, evs: seq<Timed>, at: int, ev: Event, e: Option<string>)
    requires Tracks(r, evs)
    ensures EndedWith(DoObserve(r, at, ev).closed, e) == EndedWith(r.closed, e) + if EndOf(evs, ev) == Some(e) then 1 else 0
  {
    if ev.TurnStart? || ev.AssistantMessage? || ev.ToolCall? {
      ObserveChatEnds(r, at, ev, e);
    } else if ev.ToolResult? || ev.SubagentDone? {
      ObserveWorkEnds(r, evs, at, ev, e);
    } else {
      assert DoObserve(r, at, ev).closed == r.closed;
    }
  }

  lemma {:induction false} RecordEnds(startMs: int, evs: seq<Timed>, e: Option<string>)
    ensures EndedWith(Record(startMs, evs).closed, e) == Ends(evs, e)
  {
    if evs != [] {
      var n := |evs| - 1;
      RecordEnds(startMs, evs[..n], e);
      RecordTracks(startMs, evs[..n]);
      ObserveEnds(Record(startMs, evs[..n]), evs[..n], evs[n].at, evs[n].ev, e);
    }
  }

  lemma {:induction false} CloseAllEnds(r: Rec, list: seq<Keyed>, endMs: int, e: Option<string>)
    ensures EndedWith(CloseAll(r, list, endMs).closed, e)
         == EndedWith(r.closed, e) + if e == Some(UNRETURNED) then |list| else 0
    ensures CloseAll(r, list, endMs).(closed := r.closed) == r
  {
    if list != [] {
      var n := |list| - 1;
      CloseAllEnds(r, list[..n], endMs, e);
      CloseEnds(CloseAll(r, list[..n], endMs), list[n].open, endMs, Some(UNRETURNED), e);
    }
  }

  lemma KeysPush(list: seq<Keyed>)
    requires list != []
    ensures Keys(list) == Keys(list[..|list| - 1]) + {list[|list| - 1].key}
  {
    var n := |list| - 1;
    forall k | k in Keys(list[..n]) ensures k in Keys(list) {
      var i :| 0 <= i < n && list[..n][i].key == k;
      assert list[i].key == k;
    }
    forall k | k in Keys(list) ensures k == list[n].key || k in Keys(list[..n]) {
      var i :| 0 <= i < |list| && list[i].key == k;
      if i < n { assert list[..n][i].key == k; }
    }
    assert list[n].key in Keys(list);
  }

  lemma {:induction false} KeysAreAsMany(list: seq<Keyed>)
    requires DistinctKeys(list)
    ensures |Keys(list)| == |list|
  {
    if list != [] {
      var n := |list| - 1;
      KeysAreAsMany(list[..n]);
      KeysPush(list);
      assert forall i :: 0 <= i < n ==> list[..n][i].key != list[n].key;
    }
  }

  /** Every span ends the way the events say: as many children carry each ending as events closed one with it;
      what is still open at the seal is written down as never having returned, except the model call, which
      simply ends. */
  lemma SealRecordsEndings(startMs: int, evs: seq<Timed>, endMs: int, failure: Option<string>, e: Option<string>)
    ensures EndedWith(Sealed(Record(startMs, evs), endMs, failure)[1..], e)
         == Ends(evs, e) + (if e == None && ModelSpeaking(evs) then 1 else 0)
            + (if e == Some(UNRETURNED) then |OpenToolKeys(evs)| + |OpenSubKeys(evs)| else 0)
    ensures Sealed(Record(startMs, evs), endMs, failure)[0].error == failure
  {
    var r := Record(startMs, evs);
    RecordTracks(startMs, evs);
    RecordEnds(startMs, evs, e);
    KeysAreAsMany(r.tools);
    KeysAreAsMany(r.subs);
    var a := DoCloseChat(r, endMs);
    CloseChatEnds(r, endMs, e);
    CloseAllEnds(a, a.tools, endMs, e);
    var b := CloseAll(a, a.tools, endMs).(tools := []);
    CloseAllEnds(b, b.subs, endMs, e);
    assert Sealed(r, endMs, failure)[1..] == Finish(r, endMs, failure).closed;
  }

  // ---------------------------------------------------------------- conservation of points

  ghost predicate PointFree(list: seq<Keyed>) {
    forall i :: 0 <= i < |list| ==> list[i].open.events == []
  }

  lemma ClosePoints(r: Rec, o: Open, endMs: int, error: Option<string>, p: Point)
    ensures HeldPoint(DoClose(r, o, endMs, error), p) == HeldPoint(r, p) + multiset(o.events)[p]
  {
    assert DoClose(r, o, endMs, error).closed[..|r.closed|] == r.closed;
  }

  lemma CloseChatPoints(r: Rec, endMs: int, p: Point)
    ensures HeldPoint(DoCloseChat(r, endMs), p) == HeldPoint(r, p)
  {
    if r.chat.Some? { ClosePoints(r, r.chat.value, endMs, None, p); }
  }

  lemma AddPointHolds(r: Rec, at: int, what: string, p: Point)
    ensures HeldPoint(DoAddPoint(r, at, what), p) == HeldPoint(r, p) + (if p == Point(what, at) then 1 else 0)
  {
  }

  lemma ObserveStaysPointFree(r: Rec, at: int, ev: Event)
    requires PointFree(r.tools) && PointFree(r.subs)
    ensures PointFree(DoObserve(r, at, ev).tools) && PointFree(DoObserve(r, at, ev).subs)
  {
  }

  lemma ObserveResultPoints(r: Rec, at: int, ev: Event, p: Point)
    requires PointFree(r.tools) && PointFree(r.subs)
    requires ev.ToolResult? || ev.SubagentDone?
    ensures HeldPoint(DoObserve(r, at, ev), p) == HeldPoint(r, p)
  {
    var t := DoObserve(r, at, ev);
    if t != r {
      var o := t.closed[|r.closed|].open;
      assert t.closed[..|r.closed|] == r.closed;
      assert o.events == [];
    }
  }

  lemma ObserveChatPoints(r: Rec, at: int, ev: Event, p: Point)
    requires ev.TurnStart? || ev.AssistantMessage? || ev.ToolCall?
    ensures HeldPoint(DoObserve(r, at, ev), p) == HeldPoint(r, p)
  {
    if ev.AssistantMessage? {
      if r.chat.Some? { ClosePoints(r, r.chat.value.(output := Some(ev.content)), at, None, p); }
    } else {
      CloseChatPoints(r, at, p);
    }
  }

  lemma ObservePoints(r: Rec, at: int, ev: Event, p: Point)
    requires PointFree(r.tools) && PointFree(r.subs)
    ensures HeldPoint(DoObserve(r, at, ev), p)
         == HeldPoint(r, p) + (if NewPoint(r.chat.Some?, at, ev) == Some(p) then 1 else 0)
  {
    if ev.TurnStart? || ev.AssistantMessage? || ev.ToolCall? {
      ObserveChatPoints(r, at, ev, p);
    } else if ev.ToolResult? || ev.SubagentDone? {
      ObserveResultPoints(r, at, ev, p);
    } else if ev.PointEvent? {
      AddPointHolds(r, at, ev.what, p);
    } else if ev.UsageEvent? {
      AddPointHolds(r, at, "usage", p);
    }
  }

  lemma {:induction false} RecordPoints(startMs: int, evs: seq<Timed>, p: Point)
    ensures PointFree(Record(startMs, evs).tools) && PointFree(Record(startMs, evs).subs)
    ensures HeldPoint(Record(startMs, evs), p) == multiset(Points(evs))[p]
  {
    if evs != [] {
      var n := |evs| - 1;
      RecordPoints(startMs, evs[..n], p);
      RecordTracks(startMs, evs[..n]);
      ObserveStaysPointFree(Record(startMs, evs[..n]), evs[n].at, evs[n].ev);
      ObservePoints(Record(startMs, evs[..n]), evs[n].at, evs[n].ev, p);
    }
  }

  lemma {:induction false} CloseAllPoints(r: Rec, list: seq<Keyed>, endMs: int, p: Point)
    requires PointFree(list)
    ensures HeldPoint(CloseAll(r, list, endMs), p) == HeldPoint(r, p)
    ensures CloseAll(r, list, endMs).(closed := r.closed) == r
  {
    if list != [] {
      var n := |list| - 1;
      CloseAllPoints(r, list[..n], endMs, p);
      ClosePoints(CloseAll(r, list[..n], endMs), list[n].open, endMs, Some(UNRETURNED), p);
    }
  }

  /** Every point event lies on exactly one sealed span, whatever keys were reused; a failure adds its own
      point, on the root. */
  lemma SealConservesPoints(startMs: int, evs: seq<Timed>, endMs: int, failure: Option<string>, p: Point)
    ensures PointIn(Sealed(Record(startMs, evs), endMs, failure), p)
         == multiset(Points(evs))[p] + (if failure.Some? && p == Point("error", endMs) then 1 else 0)
  {
    var r := Record(startMs, evs);
    RecordPoints(startMs, evs, p);
    var a := DoCloseChat(r, endMs);
    CloseChatPoints(r, endMs, p);
    CloseAllPoints(a, a.tools, endMs, p);
    var b := CloseAll(a, a.tools, endMs).(tools := []);
    CloseAllPoints(b, b.subs, endMs, p);
    var done := Finish(r, endMs, failure);
    PointsOfCons(Root(done, endMs, failure), done.closed, p);
  }

  lemma {:induction false} PointsOfCons(s: Span, rest: seq<Span>, p: Point)
    ensures PointIn([s] + rest, p) == multiset(s.open.events)[p] + PointIn(rest, p)
  {
    if rest == [] {
      assert [s] + rest == [s] && [s][..0] == [];
    } else {
      PointsOfCons(s, rest[..|rest| - 1], p);
      assert ([s] + rest)[..|rest|] == [s] + rest[..|rest| - 1];
    }
  }

  // ---------------------------------------------------------------- time

  ghost predicate Monotone(startMs: int, evs: seq<Timed>, endMs: int) {
    && (forall i :: 0 <= i < |evs| ==> startMs <= evs[i].at <= endMs)
    && (forall i, j :: 0 <= i < j < |evs| ==> evs[i].at <= evs[j].at)
  }

  ghost predicate OpenWithin(o: Open, lo: int, hi: int) {
    lo <= o.startMs <= hi && forall k :: 0 <= k < |o.events| ==> o.startMs <= o.events[k].at <= hi
  }

  ghost predicate Nested(s: Span, rootId: nat, lo: int, hi: int) {
    && s.parent == Some(rootId) && lo <= s.open.startMs <= s.endMs <= hi
    && forall k :: 0 <= k < |s.open.events| ==> s.open.startMs <= s.open.events[k].at <= s.endMs
  }

  ghost predicate AllNested(spans: seq<Span>, rootId: nat, lo: int, hi: int) {
    forall i :: 0 <= i < |spans| ==> Nested(spans[i], rootId, lo, hi)
  }

  ghost predicate ChatsApart(spans: seq<Span>) {
    forall i, j :: 0 <= i < j < |spans| && spans[i].open.kind == ChatSpan && spans[j].open.kind == ChatSpan ==>
                     spans[i].endMs <= spans[j].open.startMs
  }

  ghost predicate ChatsBefore(spans: seq<Span>, t: int) {
    forall i :: 0 <= i < |spans| && spans[i].open.kind == ChatSpan ==> spans[i].endMs <= t
  }

  ghost predicate OnlyKind(list: seq<Keyed>, kind: Kind, lo: int, hi: int) {
    forall i :: 0 <= i < |list| ==> list[i].open.kind == kind && OpenWithin(list[i].open, lo, hi)
  }

  ghost predicate Timely(r: Rec, now: int) {
    && r.startMs <= now
    && AllNested(r.closed, r.rootId, r.startMs, now) && ChatsApart(r.closed)
    && OnlyKind(r.tools, ToolSpan, r.startMs, now) && OnlyKind(r.subs, AgentSpan, r.startMs, now)
    && (forall i :: 0 <= i < |r.rootEvents| ==> r.startMs <= r.rootEvents[i].at <= now)
    && (r.chat.Some? ==>
          r.chat.value.kind == ChatSpan && OpenWithin(r.chat.value, r.startMs, now)
          && ChatsBefore(r.closed, r.chat.value.startMs))
  }

  lemma TimePasses(r: Rec, now: int, later: int)
    requires Timely(r, now) && now <= later
    ensures Timely(r, later)
  {
  }

  lemma CloseTimely(r: Rec, o: Open, now: int, error: Option<string>)
    requires Timely(r, now) && OpenWithin(o, r.startMs, now)
    requires o.kind == ChatSpan ==> ChatsBefore(r.closed, o.startMs) && r.chat.None?
    ensures Timely(DoClose(r, o, now, error), now)
  {
  }

  lemma CloseChatTimely(r: Rec, now: int)
    requires Timely(r, now)
    ensures Timely(DoCloseChat(r, now), now) && ChatsBefore(DoCloseChat(r, now).closed, now)
  {
    if r.chat.Some? { CloseTimely(r.(chat := None), r.chat.value, now, None); }
  }

  lemma ObserveChatTimely(r: Rec, now: int, ev: Event)
    requires Timely(r, now) && (ev.TurnStart? || ev.AssistantMessage? || ev.ToolCall?)
    ensures Timely(DoObserve(r, now, ev), now)
  {
    CloseChatTimely(r, now);
    if ev.AssistantMessage? {
      if r.chat.Some? { CloseTimely(r.(chat := None), r.chat.value.(output := Some(ev.content)), now, None); }
    }
  }

  lemma ObserveEndTimely(r: Rec, now: int, ev: Event)
    requires Timely(r, now) && (ev.ToolResult? || ev.SubagentDone?)
    ensures Timely(DoObserve(r, now, ev), now)
  {
    if ev.ToolResult? {
      var i := IndexOf(r.tools, ToolKey(ev.id, ev.name));
      if i >= 0 {
        var o := r.tools[i].open;
        CloseTimely(r.(tools := RemoveAt(r.tools, i)), if ev.output.Some? then o.(output := ev.output) else o, now,
                    if ev.isError then Some("tool reported an error") else None);
      }
    } else {
      var i := IndexOf(r.subs, ev.sub);
      if i >= 0 {
        CloseTimely(r.(subs := RemoveAt(r.subs, i)), r.subs[i].open, now,
                    if ev.failed then Some("subagent failed") else None);
      }
    }
  }

  lemma ObserveTimely(r: Rec, now: int, ev: Event)
    requires Timely(r, now)
    ensures Timely(DoObserve(r, now, ev), now)
  {
    if ev.TurnStart? || ev.AssistantMessage? || ev.ToolCall? {
      ObserveChatTimely(r, now, ev);
    } else if ev.ToolResult? || ev.SubagentDone? {
      ObserveEndTimely(r, now, ev);
    }
  }

  lemma ObserveKeepsRoot(r: Rec, at: int, ev: Event)
    ensures DoObserve(r, at, ev).startMs == r.startMs && DoObserve(r, at, ev).rootId == r.rootId
  {
  }

  lemma {:induction false} RecordTimely(startMs: int, evs: seq<Timed>, endMs: int)
    requires startMs <= endMs && Monotone(startMs, evs, endMs)
    ensures Timely(Record(startMs, evs), if evs == [] then startMs else evs[|evs| - 1].at)
    ensures Record(startMs, evs).startMs == startMs && Record(startMs, evs).rootId == 0
  {
    if evs != [] {
      var n := |evs| - 1;
      var before := evs[..n];
      assert Monotone(startMs, before, endMs);
      RecordTimely(startMs, before, endMs);
      var r, at, ev := Record(startMs, before), evs[n].at, evs[n].ev;
      TimePasses(r, if before == [] then startMs else before[n - 1].at, at);
      ObserveTimely(r, at, ev);
      ObserveKeepsRoot(r, at, ev);
    }
  }

  lemma {:induction false} CloseAllTimely(r: Rec, list: seq<Keyed>, now: int, kind: Kind)
    requires Timely(r, now) && OnlyKind(list, kind, r.startMs, now) && kind != ChatSpan
    ensures Timely(CloseAll(r, list, now), now)
    ensures CloseAll(r, list, now).(closed := r.closed) == r
  {
    if list != [] {
      var n := |list| - 1;
      CloseAllTimely(r, list[..n], now, kind);
      CloseTimely(CloseAll(r, list[..n], now), list[n].open, now, Some(UNRETURNED));
    }
  }

  /** Under a clock that never runs backwards every child hangs under the root and lies inside it, every
      point lies inside the span that carries it, and no two model calls overlap. */
  lemma SealNests(startMs: int, evs: seq<Timed>, endMs: int, failure: Option<string>)
    requires startMs <= endMs && Monotone(startMs, evs, endMs)
    ensures var spans := Sealed(Record(startMs, evs), endMs, failure);
            && spans[0].open.startMs == startMs && spans[0].endMs == endMs
            && (forall i :: 0 <= i < |spans[0].open.events| ==> startMs <= spans[0].open.events[i].at <= endMs)
            && AllNested(spans[1..], spans[0].open.spanId, startMs, endMs)
            && ChatsApart(spans[1..])
  {
    var r := Record(startMs, evs);
    RecordTimely(startMs, evs, endMs);
    TimePasses(r, if evs == [] then startMs else evs[|evs| - 1].at, endMs);
    var a := DoCloseChat(r, endMs);
    CloseChatTimely(r, endMs);
    CloseAllTimely(a, a.tools, endMs, ToolSpan);
    var b := CloseAll(a, a.tools, endMs).(tools := []);
    CloseAllTimely(b, b.subs, endMs, AgentSpan);
    var spans := Sealed(r, endMs, failure);
    assert spans[1..] == Finish(r, endMs, failure).closed;
  }
}
