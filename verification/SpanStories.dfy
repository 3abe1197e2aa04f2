/** What each sealed span says, told from the turn's events alone: where it ends, and all that was said of it. */
module SpanStories {
  import opened TurnSpans

  /** Where a piece of work is kept while it is open. */
  datatype Slot = ChatSlot | ToolSlot(key: string) | SubSlot(sub: string)

  function SlotOf(ev: Event): Option<Slot> {
    match ev
    case TurnStart(_) => Some(ChatSlot)
    case ToolCall(Some(id), _, _) => Some(ToolSlot(id))
    case ToolCall(None, name, _) => Some(ToolSlot(name))
    case SubagentLaunched(sub) => Some(SubSlot(sub))
    case _ => None
  }

  /** A model call ends when the model has spoken, in words or in tool calls, or is called again; a tool call with
      its result (matched by the call's id, or by its name where it has none), a subagent when it is done. */
  predicate Closes(ev: Event, slot: Slot) {
    match slot
    case ChatSlot => ev.TurnStart? || ev.AssistantMessage? || ev.ToolCall?
    case ToolSlot(key) => ev.ToolResult? && key == (match ev.id case Some(id) => id case None => ev.name)
    case SubSlot(sub) => ev.SubagentDone? && ev.sub == sub
  }

  /** What a model call spent, by the last of these events that says so, and what happened meanwhile. */
  function LastUsage(evs: seq<Timed>): Option<Usage> {
    if evs == [] then None
    else if evs[|evs| - 1].ev.UsageEvent? then Some(evs[|evs| - 1].ev.usage)
    else LastUsage(evs[..|evs| - 1])
  }

  function PointsIn(evs: seq<Timed>): seq<Point> {
    if evs == [] then []
    else
      var last := evs[|evs| - 1];
      PointsIn(evs[..|evs| - 1]) + (if last.ev.PointEvent? then [Point(last.ev.what, last.at)] else [])
  }

  /** The work the i-th event starts, and what the events up to the j-th say of it. */
  function Story(evs: seq<Timed>, i: nat, j: nat): Open
    requires i < j <= |evs| && SlotOf(evs[i].ev).Some?
  {
    var id, at := |Started(evs[..i])| + 1, evs[i].at;
    match evs[i].ev
    case ToolCall(_, name, args) => Open(id, ToolSpan, name, at, Some(args), None, None, [])
    case SubagentLaunched(sub) => Open(id, AgentSpan, sub, at, None, None, None, [])
    case _ => Open(id, ChatSpan, "chat", at, None, None, LastUsage(evs[i + 1..j]), PointsIn(evs[i + 1..j]))
  }

  /** The span of some work, ended by this event. */
  function EndedBy(o: Open, at: int, ev: Event): Span {
    var end := if at < o.startMs then o.startMs else at;
    match ev
    case AssistantMessage(content) => Span(o.(output := Some(content)), Some(0), end, None)
    case ToolResult(_, _, isError, output) =>
      Span(o.(output := output), Some(0), end, if isError then Some("tool reported an error") else None)
    case SubagentDone(_, failed) => Span(o, Some(0), end, if failed then Some("subagent failed") else None)
    case _ => Span(o, Some(0), end, None)
  }

  ghost predicate OpenAt(r: Rec, slot: Slot, o: Open) {
    match slot
    case ChatSlot => r.chat == Some(o)
    case ToolSlot(key) => Keyed(key, o) in r.tools
    case SubSlot(sub) => Keyed(sub, o) in r.subs
  }

  /** Between the i-th event and the j-th nobody closes what is in the slot or takes the slot over. */
  ghost predicate Undisturbed(evs: seq<Timed>, i: int, j: int, slot: Slot) {
    forall m :: 0 <= i < m < j <= |evs| ==> !Closes(evs[m].ev, slot) && SlotOf(evs[m].ev) != Some(slot)
  }

  lemma PutHolds(list: seq<Keyed>, key: string, o: Open, k: Keyed)
    ensures Keyed(key, o) in Put(list, key, o)
    ensures k in list && k.key != key ==> k in Put(list, key, o)
  {
    var i, put := IndexOf(list, key), Put(list, key, o);
    assert put[if i >= 0 then i else |list|] == Keyed(key, o);
    if k in list && k.key != key {
      var n :| 0 <= n < |list| && list[n] == k;
      assert put[n] == k;
    }
  }

  lemma RemoveSpares(list: seq<Keyed>, i: nat, k: Keyed)
    requires i < |list| && k in list && k.key != list[i].key
    ensures k in RemoveAt(list, i)
  {
    var n :| 0 <= n < |list| && list[n] == k;
    assert RemoveAt(list, i)[if n < i then n else n - 1] == k;
  }

  lemma FindsHeld(list: seq<Keyed>, k: Keyed)
    requires DistinctKeys(list) && k in list
    ensures IndexOf(list, k.key) >= 0 && list[IndexOf(list, k.key)] == k
  {
    var n :| 0 <= n < |list| && list[n] == k;
  }

  lemma ToolStays(r: Rec, at: int, ev: Event, k: Keyed)
    requires k in r.tools && !Closes(ev, ToolSlot(k.key)) && SlotOf(ev) != Some(ToolSlot(k.key))
    ensures k in DoObserve(r, at, ev).tools
  {
    match ev {
      case ToolCall(id, name, args) => PutHolds(r.tools, ToolKey(id, name), NewOpen(r, ToolSpan, name, at, Some(args)), k);
      case ToolResult(id, name, _, _) =>
        var i := IndexOf(r.tools, ToolKey(id, name));
        if i >= 0 { RemoveSpares(r.tools, i, k); }
      case _ =>
    }
  }

  lemma SubStays(r: Rec, at: int, ev: Event, k: Keyed)
    requires k in r.subs && !Closes(ev, SubSlot(k.key)) && SlotOf(ev) != Some(SubSlot(k.key))
    ensures k in DoObserve(r, at, ev).subs
  {
    match ev {
      case SubagentLaunched(sub) => PutHolds(r.subs, sub, NewOpen(r, AgentSpan, sub, at, None), k);
      case SubagentDone(sub, _) =>
        var i := IndexOf(r.subs, sub);
        if i >= 0 { RemoveSpares(r.subs, i, k); }
      case _ =>
    }
  }

  lemma ChatStays(r: Rec, at: int, ev: Event)
    requires r.chat.Some? && !Closes(ev, ChatSlot)
    ensures var o := r.chat.value;
            DoObserve(r, at, ev).chat
            == Some(o.(usage := if ev.UsageEvent? then Some(ev.usage) else o.usage,
                       events := o.events + (if ev.PointEvent? then [Point(ev.what, at)] else [])))
  {
    assert r.chat.value.events + [] == r.chat.value.events;
  }

  lemma Starts(r: Rec, at: int, ev: Event)
    requires SlotOf(ev).Some?
    ensures OpenAt(DoObserve(r, at, ev), SlotOf(ev).value,
                   match ev
                   case ToolCall(_, name, args) => Open(r.nextId, ToolSpan, name, at, Some(args), None, None, [])
                   case SubagentLaunched(sub) => Open(r.nextId, AgentSpan, sub, at, None, None, None, [])
                   case _ => Open(r.nextId, ChatSpan, "chat", at, None, None, None, []))
  {
    match ev {
      case ToolCall(id, name, args) =>
        var o := Open(r.nextId, ToolSpan, name, at, Some(args), None, None, []);
        PutHolds(r.tools, ToolKey(id, name), o, Keyed("", o));
      case SubagentLaunched(sub) =>
        var o := Open(r.nextId, AgentSpan, sub, at, None, None, None, []);
        PutHolds(r.subs, sub, o, Keyed("", o));
      case _ =>
    }
  }

  lemma StoryGoesOn(evs: seq<Timed>, i: nat)
    requires i < |evs| - 1 && SlotOf(evs[i].ev).Some?
    ensures var n := |evs| - 1;
            var was, last := Story(evs[..n], i, n), evs[n];
            Story(evs, i, n + 1)
            == if !evs[i].ev.TurnStart? then was
               else was.(usage := if last.ev.UsageEvent? then Some(last.ev.usage) else was.usage,
                         events := was.events + (if last.ev.PointEvent? then [Point(last.ev.what, last.at)] else []))
  {
    var n := |evs| - 1;
    assert evs[..n][..i] == evs[..i] && evs[..n][i + 1..n] == evs[i + 1..n];
    assert evs[i + 1..n + 1][..n - i - 1] == evs[i + 1..n];
  }

  /** Work nobody has disturbed since its start is still open, with all that was said of it. */
  lemma {:induction false} StillOpen(startMs: int, evs: seq<Timed>, i: nat, slot: Slot)
    requires i < |evs| && SlotOf(evs[i].ev) == Some(slot) && Undisturbed(evs, i, |evs|, slot)
    ensures OpenAt(Record(startMs, evs), slot, Story(evs, i, |evs|))
  {
    var n := |evs| - 1;
    var r, last := Record(startMs, evs[..n]), evs[n];
    RecordTracks(startMs, evs[..n]);
    if i == n {
      Starts(r, last.at, last.ev);
      assert evs[n + 1..n + 1] == [];
    } else {
      assert forall m :: 0 <= i < m < n ==> evs[..n][m] == evs[m];
      StillOpen(startMs, evs[..n], i, slot);
      StoryGoesOn(evs, i);
      match slot {
        case ChatSlot => ChatStays(r, last.at, last.ev);
        case ToolSlot(key) => ToolStays(r, last.at, last.ev, Keyed(key, Story(evs[..n], i, n)));
        case SubSlot(sub) => SubStays(r, last.at, last.ev, Keyed(sub, Story(evs[..n], i, n)));
      }
    }
  }

  lemma CloserCloses(r: Rec, at: int, ev: Event, slot: Slot, o: Open)
    requires OpenAt(r, slot, o) && Closes(ev, slot) && DistinctKeys(r.tools) && DistinctKeys(r.subs)
    requires r.rootId == 0 && o.output.None?
    ensures EndedBy(o, at, ev) in DoObserve(r, at, ev).closed
  {
    match slot {
      case ChatSlot =>
      case ToolSlot(key) => FindsHeld(r.tools, Keyed(key, o));
      case SubSlot(sub) => FindsHeld(r.subs, Keyed(sub, o));
    }
    var closed := DoObserve(r, at, ev).closed;
    assert closed[|r.closed|] == EndedBy(o, at, ev);
  }

  lemma {:induction false} ClosedStays(startMs: int, evs: seq<Timed>, j: nat)
    requires j <= |evs|
    ensures Record(startMs, evs[..j]).closed <= Record(startMs, evs).closed && Record(startMs, evs).rootId == 0
  {
    var n := |evs| - 1;
    if j <= n {
      assert evs[..n][..j] == evs[..j];
      ClosedStays(startMs, evs[..n], j);
      ObserveKeepsClosed(Record(startMs, evs[..n]), evs[n].at, evs[n].ev);
      ObserveKeepsRoot(Record(startMs, evs[..n]), evs[n].at, evs[n].ev);
    } else {
      assert evs[..j] == evs;
      if evs != [] {
        ClosedStays(startMs, evs[..n], n);
        ObserveKeepsRoot(Record(startMs, evs[..n]), evs[n].at, evs[n].ev);
      }
    }
  }

  lemma {:induction false} AllClosed(r: Rec, list: seq<Keyed>, endMs: int, k: Keyed)
    requires r.rootId == 0
    ensures r.closed <= CloseAll(r, list, endMs).closed && CloseAll(r, list, endMs).(closed := r.closed) == r
    ensures k in list ==> Span(k.open, Some(0), if endMs < k.open.startMs then k.open.startMs else endMs, Some(UNRETURNED))
                          in CloseAll(r, list, endMs).closed
  {
    if list != [] {
      var n := |list| - 1;
      AllClosed(r, list[..n], endMs, k);
      assert k in list ==> k in list[..n] || k == list[n];
    }
  }

  lemma FinishCloses(r: Rec, endMs: int, failure: Option<string>, slot: Slot, o: Open)
    requires r.rootId == 0
    ensures r.closed <= Finish(r, endMs, failure).closed
    ensures OpenAt(r, slot, o) ==>
              Span(o, Some(0), if endMs < o.startMs then o.startMs else endMs, if slot.ChatSlot? then None else Some(UNRETURNED))
              in Finish(r, endMs, failure).closed
  {
    var key := match slot case ChatSlot => "" case ToolSlot(key) => key case SubSlot(sub) => sub;
    var a := DoCloseChat(r, endMs);
    AllClosed(a, a.tools, endMs, Keyed(key, o));
    var b := CloseAll(a, a.tools, endMs).(tools := []);
    AllClosed(b, b.subs, endMs, Keyed(key, o));
    if r.chat.Some? { assert a.closed[|r.closed|].open == r.chat.value; }
  }

  lemma UpTo(startMs: int, evs: seq<Timed>, i: nat, j: nat, slot: Slot)
    requires i < j < |evs| && SlotOf(evs[i].ev).Some? && Undisturbed(evs, i, j, slot)
    ensures Story(evs[..j], i, j) == Story(evs, i, j) && Undisturbed(evs[..j], i, j, slot)
    ensures Record(startMs, evs[..j + 1]) == DoObserve(Record(startMs, evs[..j]), evs[j].at, evs[j].ev)
  {
    assert evs[..j][..i] == evs[..i] && evs[..j][i + 1..j] == evs[i + 1..j];
    assert evs[..j + 1][..j] == evs[..j];
  }

  lemma ClosedAtOnce(startMs: int, before: seq<Timed>, last: Timed, i: nat, slot: Slot)
    requires i < |before| && SlotOf(before[i].ev) == Some(slot) && Undisturbed(before, i, |before|, slot)
    requires Closes(last.ev, slot)
    ensures EndedBy(Story(before, i, |before|), last.at, last.ev)
            in DoObserve(Record(startMs, before), last.at, last.ev).closed
  {
    StillOpen(startMs, before, i, slot);
    RecordTracks(startMs, before);
    ClosedStays(startMs, before, 0);
    CloserCloses(Record(startMs, before), last.at, last.ev, slot, Story(before, i, |before|));
  }

  lemma ClosedByThen(startMs: int, evs: seq<Timed>, i: nat, j: nat, slot: Slot, story: Open)
    requires i < j < |evs| && SlotOf(evs[i].ev) == Some(slot) && Undisturbed(evs, i, j, slot) && Closes(evs[j].ev, slot)
    requires story == Story(evs, i, j)
    ensures EndedBy(story, evs[j].at, evs[j].ev) in Record(startMs, evs[..j + 1]).closed
  {
    UpTo(startMs, evs, i, j, slot);
    ClosedAtOnce(startMs, evs[..j], evs[j], i, slot);
  }

  lemma SealedKeeps(startMs: int, evs: seq<Timed>, endMs: int, failure: Option<string>, j: nat, s: Span)
    requires j <= |evs| && s in Record(startMs, evs[..j]).closed
    ensures s in Sealed(Record(startMs, evs), endMs, failure)
  {
    ClosedStays(startMs, evs, j);
    FinishCloses(Record(startMs, evs), endMs, failure, ChatSlot, s.open);
  }

  /** Every span tells its events exactly: the model call, tool call or subagent the i-th event starts is sealed
      with its own id, name, input, spend and points, and ends where the first event that closes it says, at
      that event's time (never before its own start), with its output and its error. */
  lemma SpanEndsWhereClosed(startMs: int, evs: seq<Timed>, endMs: int, failure: Option<string>, i: nat, j: nat, slot: Slot)
    requires i < j < |evs| && SlotOf(evs[i].ev) == Some(slot) && Undisturbed(evs, i, j, slot) && Closes(evs[j].ev, slot)
    ensures EndedBy(Story(evs, i, j), evs[j].at, evs[j].ev) in Sealed(Record(startMs, evs), endMs, failure)
  {
    var story := Story(evs, i, j);
    ClosedByThen(startMs, evs, i, j, slot, story);
    SealedKeeps(startMs, evs, endMs, failure, j + 1, EndedBy(story, evs[j].at, evs[j].ev));
  }

  /** And one that nothing closes ends with the turn, a tool call or a subagent as never having returned. */
  lemma SpanLeftOpenEndsWithTurn(startMs: int, evs: seq<Timed>, endMs: int, failure: Option<string>, i: nat, slot: Slot)
    requires i < |evs| && SlotOf(evs[i].ev) == Some(slot) && Undisturbed(evs, i, |evs|, slot)
    ensures Span(Story(evs, i, |evs|), Some(0), if endMs < evs[i].at then evs[i].at else endMs,
                 if slot.ChatSlot? then None else Some(UNRETURNED)) in Sealed(Record(startMs, evs), endMs, failure)
  {
    StillOpen(startMs, evs, i, slot);
    ClosedStays(startMs, evs, 0);
    FinishCloses(Record(startMs, evs), endMs, failure, slot, Story(evs, i, |evs|));
  }

  function LastStop(evs: seq<Timed>): Option<string> {
    if evs == [] then None
    else if evs[|evs| - 1].ev.Done? then Some(evs[|evs| - 1].ev.stopReason)
    else LastStop(evs[..|evs| - 1])
  }

  /** The root says what the turn stopped on last, and how it failed, if it did. */
  lemma RootSaysHowTheTurnEnded(startMs: int, evs: seq<Timed>, endMs: int, failure: Option<string>)
    ensures var root := Sealed(Record(startMs, evs), endMs, failure)[0];
            root.open.output == LastStop(evs) && root.error == failure && root.endMs == endMs
  {
    RecordsStop(startMs, evs);
    var a := DoCloseChat(Record(startMs, evs), endMs);
    CloseAllOnlyCloses(a, a.tools, endMs);
    var b := CloseAll(a, a.tools, endMs).(tools := []);
    CloseAllOnlyCloses(b, b.subs, endMs);
  }

  lemma {:induction false} CloseAllOnlyCloses(r: Rec, list: seq<Keyed>, endMs: int)
    ensures CloseAll(r, list, endMs).(closed := r.closed) == r
  {
    if list != [] { CloseAllOnlyCloses(r, list[..|list| - 1], endMs); }
  }

  lemma {:induction false} RecordsStop(startMs: int, evs: seq<Timed>)
    ensures Record(startMs, evs).stopReason == LastStop(evs)
  {
    if evs != [] { RecordsStop(startMs, evs[..|evs| - 1]); }
  }
}
