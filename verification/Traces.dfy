/** Transcripts projected onto traces: the persisted rows of a real run, on their own clock, and the messages
    of a try, on a step counter. */
module Traces {

  datatype Option<+T> = None | Some(value: T)

  /** A call id the model gave, or one made up from a position. */
  datatype CallId = Given(nat) | Made(nat)

  datatype Who = User | Assistant

  /** Trace events.  A call's span is its id, and a result's `parent` the call it answers. */
  datatype Event =
    | Message(t: int, who: Who, text: string)
    | ToolCall(t: int, id: CallId, name: string, duration: Option<int>)
    | ToolResult(t: int, id: CallId, ok: bool, parent: CallId)
    | LlmCall(t: int, duration: Option<int>)

  function Length(e: Event): int
    requires e.ToolCall?
  {
    if e.duration.Some? then e.duration.value else 0
  }

  // ---------------------------------------------------------------- the persisted transcript

  datatype Role = FromUser | FromAssistant | FromTool

  datatype Call = Call(id: CallId, name: string)

  /** A transcript row.  `stamp` is its creation time when that can be dated; `isError` what the kernel recorded
      about a result, `looksFailed` what its text suggests. */
  datatype Row = Row(role: Role, text: string, calls: seq<Call>, toolCallId: Option<CallId>, stamp: Option<int>,
                     isError: Option<bool>, looksFailed: bool)

  /** What the kernel recorded about a result decides; the text only when nothing was recorded. */
  predicate Succeeded(isError: Option<bool>, looksFailed: bool) {
    if isError.Some? then !isError.value else !looksFailed
  }

  /** The index of the last row before `n` that can be dated. */
  function LastDated(rows: seq<Row>, n: nat): Option<nat>
    requires n <= |rows|
  {
    if n == 0 then None else if rows[n - 1].stamp.Some? then Some(n - 1) else LastDated(rows, n - 1)
  }

  /** The stamp of the first row that can be dated. */
  function Base(rows: seq<Row>): Option<int> {
    if rows == [] then None else if rows[0].stamp.Some? then rows[0].stamp else Base(rows[1..])
  }

  /** Where row `i` sits: at its own time since the base, else where the last dated row sat, and by its index
      when no row of the transcript can be dated. */
  function At(rows: seq<Row>, i: nat): int
    requires i < |rows|
  {
    if Base(rows).None? then i
    else
      var last := LastDated(rows, i + 1);
      if last.Some? && last.value < |rows| && rows[last.value].stamp.Some? then rows[last.value].stamp.value - Base(rows).value else 0
  }

  predicate Answers(row: Row, id: CallId) {
    row.role != FromAssistant && row.toolCallId == Some(id) && row.stamp.Some?
  }

  /** The last dated row before `n` that answers this call. */
  function LastAnswer(rows: seq<Row>, n: nat, id: CallId): Option<nat>
    requires n <= |rows|
  {
    if n == 0 then None else if Answers(rows[n - 1], id) then Some(n - 1) else LastAnswer(rows, n - 1, id)
  }

  function Duration(rows: seq<Row>, i: nat, id: CallId): Option<int>
    requires i < |rows|
  {
    var k := LastAnswer(rows, |rows|, id);
    if k.Some? && k.value < |rows| && rows[k.value].stamp.Some? && rows[i].stamp.Some?
       && rows[k.value].stamp.value > rows[i].stamp.value
    then Some(rows[k.value].stamp.value - rows[i].stamp.value) else None
  }

  function CallEvents(rows: seq<Row>, i: nat, n: nat): seq<Event>
    requires i < |rows| && n <= |rows[i].calls|
  {
    if n == 0 then []
    else
      var call := rows[i].calls[n - 1];
      CallEvents(rows, i, n - 1) + [ToolCall(At(rows, i), call.id, call.name, Duration(rows, i, call.id))]
  }

  function RowEvents(rows: seq<Row>, i: nat): seq<Event>
    requires i < |rows|
  {
    var row := rows[i];
    match row.role
    case FromUser => if row.text != "" then [Message(At(rows, i), User, row.text)] else []
    case FromAssistant =>
      (if row.text != "" then [Message(At(rows, i), Assistant, row.text)] else []) + CallEvents(rows, i, |row.calls|)
    case FromTool =>
      var id := if row.toolCallId.Some? then row.toolCallId.value else Made(i);
      [ToolResult(At(rows, i), id, Succeeded(row.isError, row.looksFailed), id)]
  }

  function Flat<T>(parts: seq<seq<T>>): seq<T> {
    if parts == [] then [] else Flat(parts[..|parts| - 1]) + parts[|parts| - 1]
  }

  function Parts(rows: seq<Row>, n: nat): (parts: seq<seq<Event>>)
    requires n <= |rows|
    ensures |parts| == n && forall i :: 0 <= i < n ==> parts[i] == RowEvents(rows, i)
  {
    seq(n, i requires 0 <= i < n => RowEvents(rows, i))
  }

  function Events(rows: seq<Row>, n: nat): seq<Event>
    requires n <= |rows|
  {
    Flat(Parts(rows, n))
  }

  lemma OneMoreRow(rows: seq<Row>, n: nat)
    requires n < |rows|
    ensures Events(rows, n + 1) == Events(rows, n) + RowEvents(rows, n)
  {
    assert Parts(rows, n + 1)[..n] == Parts(rows, n);
  }

  /** The turn's model spend, closing the stream. */
  function Closing(rows: seq<Row>): Event {
    if rows == [] then LlmCall(0, None)
    else if Base(rows).None? then LlmCall(|rows|, None)
    else
      var spent := At(rows, |rows| - 1);
      LlmCall(spent, if spent > 0 then Some(spent) else None)
  }

  lemma {:induction false} BaseIsFirst(rows: seq<Row>, n: nat)
    requires n <= |rows|
    ensures Base(rows).None? <==> LastDated(rows, |rows|).None?
    ensures LastDated(rows, n).None? ==> Base(rows) == Base(rows[n..])
  {
    DatedExists(rows, |rows|);
    NoBase(rows);
    DatedExists(rows, n);
    SkipUndated(rows, n);
  }

  lemma {:induction false} DatedExists(rows: seq<Row>, n: nat)
    requires n <= |rows|
    ensures match LastDated(rows, n)
            case None => forall i :: 0 <= i < n ==> rows[i].stamp.None?
            case Some(k) => k < n && rows[k].stamp.Some? && forall i :: k < i < n ==> rows[i].stamp.None?
  {
    if n > 0 && rows[n - 1].stamp.None? { DatedExists(rows, n - 1); }
  }

  lemma {:induction false} NoBase(rows: seq<Row>)
    ensures Base(rows).None? <==> forall i :: 0 <= i < |rows| ==> rows[i].stamp.None?
  {
    if rows != [] {
      NoBase(rows[1..]);
      if rows[0].stamp.None? {
        assert forall i :: 1 <= i < |rows| ==> rows[i] == rows[1..][i - 1];
      }
    }
  }

  lemma {:induction false} SkipUndated(rows: seq<Row>, n: nat)
    requires n <= |rows|
    ensures (forall i :: 0 <= i < n ==> rows[i].stamp.None?) ==> Base(rows) == Base(rows[n..])
  {
    if n > 0 && (forall i :: 0 <= i < n ==> rows[i].stamp.None?) {
      assert rows[1..][n - 1..] == rows[n..];
      SkipUndated(rows[1..], n - 1);
    } else {
      assert n == 0 ==> rows[n..] == rows;
    }
  }

  /** The first pass: the turn's first and last time, and when each call was last answered. */
  method ReadStamps(rows: seq<Row>) returns (base: Option<int>, last: Option<int>, resultAt: map<CallId, int>)
    ensures base == Base(rows)
    ensures match LastDated(rows, |rows|) case None => last == None case Some(k) => k < |rows| && last == rows[k].stamp
    ensures forall id :: match LastAnswer(rows, |rows|, id)
                         case None => id !in resultAt
                         case Some(k) => k < |rows| && id in resultAt && rows[k].stamp == Some(resultAt[id])
  {
    base, last, resultAt := None, None, map[];
    for i := 0 to |rows|
      invariant base.None? <==> LastDated(rows, i).None?
      invariant base.Some? ==> base == Base(rows)
      invariant match LastDated(rows, i) case None => last == None case Some(k) => k < i && last == rows[k].stamp
      invariant forall id :: match LastAnswer(rows, i, id)
                             case None => id !in resultAt
                             case Some(k) => k < i && id in resultAt && rows[k].stamp == Some(resultAt[id])
    {
      var row := rows[i];
      if row.stamp.Some? {
        BaseIsFirst(rows, i);
        assert rows[i..][0] == row;
        last := row.stamp;
        if base.None? { base := row.stamp; }
        if row.role != FromAssistant && row.toolCallId.Some? {
          resultAt := resultAt[row.toolCallId.value := row.stamp.value];
        }
      }
    }
    BaseIsFirst(rows, |rows|);
  }

  /** One assistant row's calls. */
  method ProjectCalls(rows: seq<Row>, i: nat, t: int, resultAt: map<CallId, int>) returns (events: seq<Event>)
    requires i < |rows| && t == At(rows, i)
    requires forall id :: match LastAnswer(rows, |rows|, id)
                          case None => id !in resultAt
                          case Some(k) => k < |rows| && id in resultAt && rows[k].stamp == Some(resultAt[id])
    ensures events == CallEvents(rows, i, |rows[i].calls|)
  {
    events := [];
    var row := rows[i];
    for j := 0 to |row.calls|
      invariant events == CallEvents(rows, i, j)
    {
      var id := row.calls[j].id;
      var duration := if id in resultAt && row.stamp.Some? && resultAt[id] > row.stamp.value
                      then Some(resultAt[id] - row.stamp.value) else None;
      events := events + [ToolCall(t, id, row.calls[j].name, duration)];
    }
  }

  lemma NextAt(rows: seq<Row>, i: nat)
    requires i < |rows|
    ensures At(rows, i) == if Base(rows).None? then i
                           else if rows[i].stamp.Some? then rows[i].stamp.value - Base(rows).value
                           else if i == 0 then 0 else At(rows, i - 1)
  {
    DatedExists(rows, i);
  }

  lemma ClosingAt(rows: seq<Row>)
    ensures match LastDated(rows, |rows|)
            case None => Closing(rows) == LlmCall(|rows|, None)
            case Some(k) =>
              && Base(rows).Some? && k < |rows| && rows[k].stamp.Some?
              && Closing(rows).t == rows[k].stamp.value - Base(rows).value
  {
    BaseIsFirst(rows, |rows|);
    DatedExists(rows, |rows|);
  }

  /** One row at its place in time. */
  method ProjectRow(rows: seq<Row>, i: nat, t: int, resultAt: map<CallId, int>) returns (events: seq<Event>)
    requires i < |rows| && t == At(rows, i)
    requires forall id :: match LastAnswer(rows, |rows|, id)
                          case None => id !in resultAt
                          case Some(k) => k < |rows| && id in resultAt && rows[k].stamp == Some(resultAt[id])
    ensures events == RowEvents(rows, i)
  {
    var row := rows[i];
    if row.role == FromTool {
      var id := if row.toolCallId.Some? then row.toolCallId.value else Made(i);
      return [ToolResult(t, id, Succeeded(row.isError, row.looksFailed), id)];
    }
    events := if row.text == "" then [] else [Message(t, if row.role == FromUser then User else Assistant, row.text)];
    if row.role == FromAssistant {
      var calls := ProjectCalls(rows, i, t, resultAt);
      events := events + calls;
    }
  }

  /** The projection itself. */
  method TranscriptToTrace(rows: seq<Row>, usage: bool) returns (trace: seq<Event>)
    ensures trace == Events(rows, |rows|) + if usage then [Closing(rows)] else []
  {
    trace := [];
    var base, last, resultAt := ReadStamps(rows);
    var lastT := 0;
    for i := 0 to |rows|
      invariant trace == Events(rows, i)
      invariant base.Some? ==> lastT == if i == 0 then 0 else At(rows, i - 1)
    {
      OneMoreRow(rows, i);
      NextAt(rows, i);
      lastT := if base.None? then i else if rows[i].stamp.None? then lastT else rows[i].stamp.value - base.value;
      var events := ProjectRow(rows, i, lastT, resultAt);
      trace := trace + events;
    }
    if usage {
      ClosingAt(rows);
      var spent := if base.Some? && last.Some? then last.value - base.value else |rows|;
      trace := trace + [LlmCall(spent, if base.Some? && last.Some? && spent > 0 then Some(spent) else None)];
    }
  }

  /** Rows that can be dated never go back in time. */
  ghost predicate Nondecreasing(rows: seq<Row>) {
    forall i, j :: 0 <= i < j < |rows| && rows[i].stamp.Some? && rows[j].stamp.Some? ==> rows[i].stamp.value <= rows[j].stamp.value
  }

  lemma DatedAt(rows: seq<Row>, i: nat)
    requires i < |rows| && rows[i].stamp.Some?
    ensures Base(rows).Some? && At(rows, i) == rows[i].stamp.value - Base(rows).value
  {
    NoBase(rows);
  }

  lemma {:induction false} BaseIsLeast(rows: seq<Row>, i: nat)
    requires Nondecreasing(rows) && i < |rows| && rows[i].stamp.Some?
    ensures Base(rows).Some? && Base(rows).value <= rows[i].stamp.value
  {
    if rows[0].stamp.None? {
      assert rows[1..][i - 1] == rows[i];
      assert forall j :: 0 <= j < |rows| - 1 ==> rows[1..][j] == rows[j + 1];
      BaseIsLeast(rows[1..], i - 1);
    }
  }

  /** Positions never go back, and none is before the start. */
  lemma AtIsOrdered(rows: seq<Row>, i: nat, j: nat)
    requires Nondecreasing(rows) && i <= j < |rows|
    ensures 0 <= At(rows, i) <= At(rows, j)
  {
    DatedExists(rows, i + 1);
    DatedExists(rows, j + 1);
    var a, b := LastDated(rows, i + 1), LastDated(rows, j + 1);
    if a.Some? { BaseIsLeast(rows, a.value); }
    if b.Some? { BaseIsLeast(rows, b.value); }
  }

  /** Element `x` of a flattened sequence is element `p` of its part `i`. */
  lemma {:induction false} Locate<T>(parts: seq<seq<T>>, x: nat) returns (i: nat, p: nat)
    requires x < |Flat(parts)|
    ensures i < |parts| && p < |parts[i]| && Flat(parts)[x] == parts[i][p] && |Flat(parts[..i])| + p == x
  {
    var n := |parts| - 1;
    if x < |Flat(parts[..n])| {
      i, p := Locate(parts[..n], x);
      assert parts[..n][..i] == parts[..i];
    } else {
      i, p := n, x - |Flat(parts[..n])|;
    }
  }

  lemma {:induction false} FlatGrows<T>(parts: seq<seq<T>>, i: nat, j: nat)
    requires i < j <= |parts|
    ensures |Flat(parts[..i])| + |parts[i]| <= |Flat(parts[..j])|
  {
    assert parts[..j][..j - 1] == parts[..j - 1];
    if i < j - 1 { FlatGrows(parts, i, j - 1); }
  }

  lemma {:induction false} CallEventsAt(rows: seq<Row>, i: nat, n: nat, c: nat)
    requires i < |rows| && c < n <= |rows[i].calls|
    ensures |CallEvents(rows, i, n)| == n
    ensures CallEvents(rows, i, n)[c]
            == ToolCall(At(rows, i), rows[i].calls[c].id, rows[i].calls[c].name, Duration(rows, i, rows[i].calls[c].id))
  {
    CallEventsLength(rows, i, n);
    CallEventsLength(rows, i, n - 1);
    if c < n - 1 { CallEventsAt(rows, i, n - 1, c); }
  }

  lemma {:induction false} CallEventsLength(rows: seq<Row>, i: nat, n: nat)
    requires i < |rows| && n <= |rows[i].calls|
    ensures |CallEvents(rows, i, n)| == n
  {
    if n > 0 { CallEventsLength(rows, i, n - 1); }
  }

  lemma AssistantEventsAt(rows: seq<Row>, i: nat, x: nat)
    requires i < |rows| && rows[i].role == FromAssistant && x < |RowEvents(rows, i)|
    ensures |CallEvents(rows, i, |rows[i].calls|)| == |rows[i].calls|
    ensures var head, e := if rows[i].text != "" then 1 else 0, RowEvents(rows, i)[x];
            if x < head then e == Message(At(rows, i), Assistant, rows[i].text)
            else x - head < |rows[i].calls| && e == CallEvents(rows, i, |rows[i].calls|)[x - head]
  {
    var text := if rows[i].text != "" then [Message(At(rows, i), Assistant, rows[i].text)] else [];
    var calls := CallEvents(rows, i, |rows[i].calls|);
    CallEventsLength(rows, i, |rows[i].calls|);
    assert RowEvents(rows, i) == text + calls;
  }

  lemma CallSits(rows: seq<Row>, i: nat, c: nat, e: Event)
    requires i < |rows| && c < |rows[i].calls|
    requires |CallEvents(rows, i, |rows[i].calls|)| == |rows[i].calls| && e == CallEvents(rows, i, |rows[i].calls|)[c]
    ensures e.t == At(rows, i) && e.ToolCall? && e.duration == Duration(rows, i, e.id)
  {
    CallEventsAt(rows, i, |rows[i].calls|, c);
  }

  lemma AssistantEventSits(rows: seq<Row>, i: nat, x: nat)
    requires i < |rows| && rows[i].role == FromAssistant && x < |RowEvents(rows, i)|
    ensures var e := RowEvents(rows, i)[x];
            e.t == At(rows, i) && (e.ToolCall? ==> e.duration == Duration(rows, i, e.id))
  {
    var head := if rows[i].text != "" then 1 else 0;
    AssistantEventsAt(rows, i, x);
    if x >= head { CallSits(rows, i, x - head, RowEvents(rows, i)[x]); }
  }

  lemma RowEventsAt(rows: seq<Row>, i: nat, x: nat)
    requires i < |rows| && x < |RowEvents(rows, i)|
    ensures var e := RowEvents(rows, i)[x];
            e.t == At(rows, i) && (e.ToolCall? ==> rows[i].role == FromAssistant && e.duration == Duration(rows, i, e.id))
  {
    if rows[i].role == FromAssistant { AssistantEventSits(rows, i, x); }
  }

  lemma EventSits(rows: seq<Row>, x: nat) returns (i: nat)
    requires x < |Events(rows, |rows|)|
    ensures i < |rows| && Events(rows, |rows|)[x].t == At(rows, i)
    ensures |Flat(Parts(rows, |rows|)[..i])| <= x < |Flat(Parts(rows, |rows|)[..i])| + |Parts(rows, |rows|)[i]|
  {
    var p;
    i, p := Locate(Parts(rows, |rows|), x);
    RowEventsAt(rows, i, p);
  }

  lemma SitsInOrder(rows: seq<Row>, i: nat, j: nat, x: nat, y: nat)
    requires i < |rows| && j < |rows| && x <= y
    requires |Flat(Parts(rows, |rows|)[..i])| <= x
    requires y < |Flat(Parts(rows, |rows|)[..j])| + |Parts(rows, |rows|)[j]|
    ensures i <= j
  {
    if j < i { FlatGrows(Parts(rows, |rows|), j, i); }
  }

  lemma ClosingIsLast(rows: seq<Row>, i: nat)
    requires Nondecreasing(rows) && i < |rows|
    ensures At(rows, i) <= Closing(rows).t
  {
    AtIsOrdered(rows, i, |rows| - 1);
  }

  /** Row `f` is the first that can be dated. */
  ghost predicate FirstDated(rows: seq<Row>, f: int) {
    0 <= f < |rows| && rows[f].stamp.Some? && forall m :: 0 <= m < f ==> rows[m].stamp.None?
  }

  /** Row `l` is the last up to row `i` that can be dated. */
  ghost predicate DatedUpTo(rows: seq<Row>, i: int, l: int) {
    0 <= l <= i < |rows| && rows[l].stamp.Some? && forall m :: l < m <= i ==> rows[m].stamp.None?
  }

  /** How long after the start a row sits: its own time, or that of the last dated row before it, counted from the
      first dated row; at the start when no row up to it is dated; at its index when none is at all. */
  ghost predicate SitsAt(rows: seq<Row>, i: int, t: int) {
    && (forall f, l :: FirstDated(rows, f) && DatedUpTo(rows, i, l) ==> t == rows[l].stamp.value - rows[f].stamp.value)
    && ((exists f :: FirstDated(rows, f)) && (forall l :: !DatedUpTo(rows, i, l)) ==> t == 0)
    && ((forall f :: !FirstDated(rows, f)) ==> t == i)
  }

  lemma {:induction false} BaseOf(rows: seq<Row>)
    ensures match Base(rows)
            case Some(base) => exists f :: FirstDated(rows, f) && rows[f].stamp == Some(base)
            case None => forall f :: !FirstDated(rows, f)
  {
    if rows != [] {
      if rows[0].stamp.Some? {
        assert FirstDated(rows, 0);
      } else {
        BaseOf(rows[1..]);
        assert forall f :: 0 < f < |rows| ==> rows[f] == rows[1..][f - 1];
        if Base(rows).Some? {
          var f :| FirstDated(rows[1..], f) && rows[1..][f].stamp == Base(rows);
          assert FirstDated(rows, f + 1);
        } else {
          forall f ensures !FirstDated(rows, f) {
            if FirstDated(rows, f) { assert FirstDated(rows[1..], f - 1); }
          }
        }
      }
    }
  }

  lemma UndatedSits(rows: seq<Row>, i: nat)
    requires i < |rows| && forall l :: !DatedUpTo(rows, i, l)
    ensures LastDated(rows, i + 1).None?
  {
    DatedExists(rows, i + 1);
    var last := LastDated(rows, i + 1);
    if last.Some? { assert DatedUpTo(rows, i, last.value); }
  }

  lemma DatedSits(rows: seq<Row>, i: nat, l: int)
    requires i < |rows| && DatedUpTo(rows, i, l)
    ensures LastDated(rows, i + 1) == Some(l)
  {
    DatedExists(rows, i + 1);
  }

  lemma AtSits(rows: seq<Row>, i: nat)
    requires i < |rows|
    ensures SitsAt(rows, i, At(rows, i))
  {
    BaseOf(rows);
    if forall l :: !DatedUpTo(rows, i, l) {
      UndatedSits(rows, i);
    } else {
      var l :| DatedUpTo(rows, i, l);
      DatedSits(rows, i, l);
      DatedAt(rows, l);
    }
  }

  /** Every event of the trace is one of a row's, and sits where that row does. */
  lemma EventsSitWithTheirRow(rows: seq<Row>, x: nat) returns (i: nat, p: nat)
    requires x < |Events(rows, |rows|)|
    ensures i < |rows| && p < |RowEvents(rows, i)| && Events(rows, |rows|)[x] == RowEvents(rows, i)[p]
    ensures SitsAt(rows, i, Events(rows, |rows|)[x].t)
  {
    i, p := Locate(Parts(rows, |rows|), x);
    RowEventsAt(rows, i, p);
    AtSits(rows, i);
  }

  lemma FirstIsBase(rows: seq<Row>, f: int)
    requires FirstDated(rows, f)
    ensures Base(rows) == rows[f].stamp
  {
    BaseOf(rows);
  }

  lemma DatedClosing(rows: seq<Row>, f: int, l: int)
    requires FirstDated(rows, f) && DatedUpTo(rows, |rows| - 1, l)
    ensures var spent := rows[l].stamp.value - rows[f].stamp.value;
            Closing(rows) == LlmCall(spent, if spent > 0 then Some(spent) else None)
  {
    FirstIsBase(rows, f);
    DatedSits(rows, |rows| - 1, l);
    assert At(rows, |rows| - 1) == rows[l].stamp.value - rows[f].stamp.value;
  }

  lemma UndatedClosing(rows: seq<Row>)
    requires forall f :: !FirstDated(rows, f)
    ensures Closing(rows) == LlmCall(|rows|, None)
  {
    BaseOf(rows);
  }

  /** The model spend closes the stream at the time of the last dated row and spans the turn from the first; a turn
      with no dated row has no length. */
  lemma ClosingSpansTheTurn(rows: seq<Row>)
    ensures forall f, l | FirstDated(rows, f) && DatedUpTo(rows, |rows| - 1, l) ::
              var spent := rows[l].stamp.value - rows[f].stamp.value;
              Closing(rows) == LlmCall(spent, if spent > 0 then Some(spent) else None)
    ensures (forall f :: !FirstDated(rows, f)) ==> Closing(rows) == LlmCall(|rows|, None)
  {
    if forall f :: !FirstDated(rows, f) { UndatedClosing(rows); }
    forall f, l | FirstDated(rows, f) && DatedUpTo(rows, |rows| - 1, l)
      ensures var spent := rows[l].stamp.value - rows[f].stamp.value;
              Closing(rows) == LlmCall(spent, if spent > 0 then Some(spent) else None)
    {
      DatedClosing(rows, f, l);
    }
  }

  /** The stream never goes back in time, and the closing model spend has the greatest time of all. */
  lemma TraceIsOrdered(rows: seq<Row>, x: nat, y: nat)
    requires Nondecreasing(rows) && x <= y < |Events(rows, |rows|)|
    ensures 0 <= Events(rows, |rows|)[x].t <= Events(rows, |rows|)[y].t <= Closing(rows).t
  {
    var i := EventSits(rows, x);
    var j := EventSits(rows, y);
    SitsInOrder(rows, i, j, x, y);
    AtIsOrdered(rows, i, j);
    ClosingIsLast(rows, j);
  }

  lemma {:induction false} AnswerIsLast(rows: seq<Row>, n: nat, id: CallId)
    requires n <= |rows|
    ensures match LastAnswer(rows, n, id)
            case None => forall i :: 0 <= i < n ==> !Answers(rows[i], id)
            case Some(k) => k < n && Answers(rows[k], id) && forall i :: k < i < n ==> !Answers(rows[i], id)
  {
    if n > 0 && !Answers(rows[n - 1], id) { AnswerIsLast(rows, n - 1, id); }
  }

  /** A dated row, not the assistant's, that carries this call's id. */
  ghost predicate AnswersAt(rows: seq<Row>, k: int, id: CallId) {
    0 <= k < |rows| && rows[k].role != FromAssistant && rows[k].toolCallId == Some(id) && rows[k].stamp.Some?
  }

  /** The last row that answers this call, after the dated row `i`. */
  ghost predicate EndsAt(rows: seq<Row>, i: int, id: CallId, k: int) {
    && 0 <= i < k < |rows| && rows[i].stamp.Some? && AnswersAt(rows, k, id)
    && forall m :: k < m ==> !AnswersAt(rows, m, id)
  }

  /** A tool call ends exactly when its last answer arrives: its time plus its duration is that row's own
      time; a call nothing answers later has no duration. */
  lemma CallEndsAtItsAnswer(rows: seq<Row>, x: nat) returns (i: nat)
    requires Nondecreasing(rows) && x < |Events(rows, |rows|)| && Events(rows, |rows|)[x].ToolCall?
    ensures i < |rows| && rows[i].role == FromAssistant && Events(rows, |rows|)[x].t == At(rows, i)
    ensures forall k :: EndsAt(rows, i, Events(rows, |rows|)[x].id, k) ==>
              Events(rows, |rows|)[x].t + Length(Events(rows, |rows|)[x]) == At(rows, k)
    ensures (forall k :: !EndsAt(rows, i, Events(rows, |rows|)[x].id, k)) ==> Events(rows, |rows|)[x].duration == None
  {
    var p;
    i, p := Locate(Parts(rows, |rows|), x);
    RowEventsAt(rows, i, p);
    DurationEnds(rows, i, Events(rows, |rows|)[x].id);
  }

  lemma DurationEnds(rows: seq<Row>, i: nat, id: CallId)
    requires Nondecreasing(rows) && i < |rows| && rows[i].role == FromAssistant
    ensures forall k :: EndsAt(rows, i, id, k) ==>
              At(rows, i) + (if Duration(rows, i, id).Some? then Duration(rows, i, id).value else 0) == At(rows, k)
    ensures (forall k :: !EndsAt(rows, i, id, k)) ==> Duration(rows, i, id) == None
  {
    AnswerIsLast(rows, |rows|, id);
    assert forall m :: 0 <= m < |rows| ==> (AnswersAt(rows, m, id) <==> Answers(rows[m], id));
    var last := LastAnswer(rows, |rows|, id);
    forall k | EndsAt(rows, i, id, k)
      ensures At(rows, i) + (if Duration(rows, i, id).Some? then Duration(rows, i, id).value else 0) == At(rows, k)
    {
      assert last == Some(k);
      DatedAt(rows, i);
      DatedAt(rows, k);
    }
    if Duration(rows, i, id).Some? { assert EndsAt(rows, i, id, last.value); }
  }

  // ---------------------------------------------------------------- nothing dropped, nothing invented

  /** What a function picks out of each event, in trace order. */
  function Pick<T>(trace: seq<Event>, f: Event -> seq<T>): seq<T> {
    if trace == [] then [] else Pick(trace[..|trace| - 1], f) + f(trace[|trace| - 1])
  }

  function CallIds(): Event -> seq<CallId> {
    (e: Event) => if e.ToolCall? then [e.id] else []
  }

  function Outcomes(): Event -> seq<(CallId, bool, CallId)> {
    (e: Event) => if e.ToolResult? then [(e.id, e.ok, e.parent)] else []
  }

  /** What an event tells, apart from when and under which id. */
  datatype Brief = Wrote(who: Who, text: string) | Called(name: string) | Ended(ok: bool)

  function Briefs(): Event -> seq<Brief> {
    (e: Event) =>
      match e
      case Message(_, who, text) => [Wrote(who, text)]
      case ToolCall(_, _, name, _) => [Called(name)]
      case ToolResult(_, _, ok, _) => [Ended(ok)]
      case LlmCall(_, _) => []
  }

  function Names(calls: seq<Call>): seq<Brief> {
    if calls == [] then [] else Names(calls[..|calls| - 1]) + [Called(calls[|calls| - 1].name)]
  }

  function CallsOf(trace: seq<Event>): seq<CallId> {
    Pick(trace, CallIds())
  }

  function IdsOf(calls: seq<Call>): seq<CallId> {
    if calls == [] then [] else IdsOf(calls[..|calls| - 1]) + [calls[|calls| - 1].id]
  }

  /** Every call the model made, row by row. */
  function AllCalls(rows: seq<Row>): (ids: seq<seq<CallId>>)
    ensures |ids| == |rows|
    ensures forall i :: 0 <= i < |rows| ==> ids[i] == if rows[i].role == FromAssistant then IdsOf(rows[i].calls) else []
  {
    seq(|rows|, i requires 0 <= i < |rows| => if rows[i].role == FromAssistant then IdsOf(rows[i].calls) else [])
  }

  /** Every result, row by row: under the call it answers, with the outcome the row tells. */
  function AllOutcomes(rows: seq<Row>): (outcomes: seq<seq<(CallId, bool, CallId)>>)
    ensures |outcomes| == |rows|
    ensures forall i :: 0 <= i < |rows| ==>
              outcomes[i] == if rows[i].role != FromTool then []
                             else
                               var id := if rows[i].toolCallId.Some? then rows[i].toolCallId.value else Made(i);
                               [(id, if rows[i].isError.Some? then !rows[i].isError.value else !rows[i].looksFailed, id)]
  {
    seq(|rows|, i requires 0 <= i < |rows| =>
      if rows[i].role != FromTool then []
      else
        var id := if rows[i].toolCallId.Some? then rows[i].toolCallId.value else Made(i);
        [(id, if rows[i].isError.Some? then !rows[i].isError.value else !rows[i].looksFailed, id)])
  }

  /** Everything that happened, row by row: what was said, unless it is nothing, then the calls; or a result. */
  function RowBrief(row: Row): seq<Brief> {
    if row.role == FromTool then [Ended(if row.isError.Some? then !row.isError.value else !row.looksFailed)]
    else
      var who := if row.role == FromUser then User else Assistant;
      (if row.text == "" then [] else [Wrote(who, row.text)]) + (if who == Assistant then Names(row.calls) else [])
  }

  function AllBriefs(rows: seq<Row>): (briefs: seq<seq<Brief>>)
    ensures |briefs| == |rows| && forall i :: 0 <= i < |rows| ==> briefs[i] == RowBrief(rows[i])
  {
    seq(|rows|, i requires 0 <= i < |rows| => RowBrief(rows[i]))
  }

  lemma {:induction false} PickConcat<T>(a: seq<Event>, b: seq<Event>, f: Event -> seq<T>)
    ensures Pick(a + b, f) == Pick(a, f) + Pick(b, f)
  {
    if b == [] {
      assert a + b == a;
    } else {
      var n := |b| - 1;
      PickConcat(a, b[..n], f);
      assert (a + b)[..|a + b| - 1] == a + b[..n];
    }
  }

  lemma {:induction false} PickFlat<T>(parts: seq<seq<Event>>, f: Event -> seq<T>, picked: seq<seq<T>>)
    requires |parts| == |picked| && forall i :: 0 <= i < |parts| ==> Pick(parts[i], f) == picked[i]
    ensures Pick(Flat(parts), f) == Flat(picked)
  {
    if parts != [] {
      var n := |parts| - 1;
      PickFlat(parts[..n], f, picked[..n]);
      PickConcat(Flat(parts[..n]), parts[n], f);
    }
  }

  lemma {:induction false} PickPush<T>(trace: seq<Event>, e: Event, f: Event -> seq<T>)
    ensures Pick(trace + [e], f) == Pick(trace, f) + f(e)
  {
    assert (trace + [e])[..|trace|] == trace;
  }

  lemma {:induction false} PickCallEvents(rows: seq<Row>, i: nat, n: nat)
    requires i < |rows| && n <= |rows[i].calls|
    ensures Pick(CallEvents(rows, i, n), CallIds()) == IdsOf(rows[i].calls[..n])
    ensures Pick(CallEvents(rows, i, n), Outcomes()) == []
    ensures Pick(CallEvents(rows, i, n), Briefs()) == Names(rows[i].calls[..n])
  {
    if n > 0 {
      PickCallEvents(rows, i, n - 1);
      var before, call := CallEvents(rows, i, n - 1), rows[i].calls[n - 1];
      var e := ToolCall(At(rows, i), call.id, call.name, Duration(rows, i, call.id));
      PickPush(before, e, CallIds());
      PickPush(before, e, Outcomes());
      PickPush(before, e, Briefs());
      assert rows[i].calls[..n][..n - 1] == rows[i].calls[..n - 1];
    }
  }

  lemma {:induction false} PickOne<T>(e: Event, f: Event -> seq<T>)
    ensures Pick([e], f) == f(e)
  {
    assert [e][..0] == [];
  }

  lemma {:induction false} PickTextThenCalls<T>(rows: seq<Row>, i: nat, f: Event -> seq<T>)
    requires i < |rows| && rows[i].role == FromAssistant
    ensures Pick(RowEvents(rows, i), f)
            == (if rows[i].text != "" then f(Message(At(rows, i), Assistant, rows[i].text)) else [])
               + Pick(CallEvents(rows, i, |rows[i].calls|), f)
  {
    var text := if rows[i].text != "" then [Message(At(rows, i), Assistant, rows[i].text)] else [];
    PickConcat(text, CallEvents(rows, i, |rows[i].calls|), f);
    if rows[i].text != "" { PickOne(text[0], f); }
  }

  lemma {:induction false} PickOther<T>(rows: seq<Row>, i: nat, f: Event -> seq<T>)
    requires i < |rows| && rows[i].role != FromAssistant
    ensures Pick(RowEvents(rows, i), f) == if RowEvents(rows, i) == [] then [] else f(RowEvents(rows, i)[0])
  {
    if RowEvents(rows, i) != [] { PickOne(RowEvents(rows, i)[0], f); }
  }

  lemma PickRowCalls(rows: seq<Row>, i: nat)
    requires i < |rows|
    ensures Pick(RowEvents(rows, i), CallIds()) == AllCalls(rows)[i]
  {
    if rows[i].role == FromAssistant {
      PickTextThenCalls(rows, i, CallIds());
      PickCallEvents(rows, i, |rows[i].calls|);
      assert rows[i].calls[..|rows[i].calls|] == rows[i].calls;
    } else {
      PickOther(rows, i, CallIds());
    }
  }

  lemma PickRowOutcomes(rows: seq<Row>, i: nat)
    requires i < |rows|
    ensures Pick(RowEvents(rows, i), Outcomes()) == AllOutcomes(rows)[i]
  {
    if rows[i].role == FromAssistant {
      PickTextThenCalls(rows, i, Outcomes());
      PickCallEvents(rows, i, |rows[i].calls|);
    } else {
      PickOther(rows, i, Outcomes());
    }
  }

  lemma PickRowBrief(rows: seq<Row>, i: nat)
    requires i < |rows|
    ensures Pick(RowEvents(rows, i), Briefs()) == RowBrief(rows[i])
  {
    if rows[i].role == FromAssistant {
      PickTextThenCalls(rows, i, Briefs());
      PickCallEvents(rows, i, |rows[i].calls|);
      assert rows[i].calls[..|rows[i].calls|] == rows[i].calls;
    } else {
      PickOther(rows, i, Briefs());
    }
  }

  /** Nothing is dropped and nothing invented: the trace tells what the transcript tells, each message, call and
      result once and in order; the calls keep their ids, and every result hangs under the call it answers. */
  lemma TranscriptIsConserved(rows: seq<Row>)
    ensures CallsOf(Events(rows, |rows|)) == Flat(AllCalls(rows))
    ensures Pick(Events(rows, |rows|), Outcomes()) == Flat(AllOutcomes(rows))
    ensures Pick(Events(rows, |rows|), Briefs()) == Flat(AllBriefs(rows))
  {
    var parts := Parts(rows, |rows|);
    forall i | 0 <= i < |rows|
      ensures Pick(parts[i], CallIds()) == AllCalls(rows)[i]
      ensures Pick(parts[i], Outcomes()) == AllOutcomes(rows)[i]
      ensures Pick(parts[i], Briefs()) == AllBriefs(rows)[i]
    {
      PickRowCalls(rows, i);
      PickRowOutcomes(rows, i);
      PickRowBrief(rows, i);
    }
    PickFlat(parts, CallIds(), AllCalls(rows));
    PickFlat(parts, Outcomes(), AllOutcomes(rows));
    PickFlat(parts, Briefs(), AllBriefs(rows));
  }

  // ---------------------------------------------------------------- the messages of a try

  datatype TryMessage =
    | Said(text: string, calls: seq<string>)
    | Result(isError: Option<bool>, looksFailed: bool)

  /** The trace so far and the calls nobody has answered yet, oldest first. */
  datatype Try = Try(trace: seq<Event>, pending: seq<CallId>)

  function DoCalls(s: Try, names: seq<string>): Try {
    if names == [] then s
    else
      var u, t := DoCalls(s, names[..|names| - 1]), |DoCalls(s, names[..|names| - 1]).trace|;
      Try(u.trace + [ToolCall(t, Made(t), names[|names| - 1], None)], u.pending + [Made(t)])
  }

  function DoMessage(s: Try, m: TryMessage): Try {
    var t := |s.trace|;
    match m
    case Said(text, calls) => DoCalls(if text == "" then s else s.(trace := s.trace + [Message(t, Assistant, text)]), calls)
    case Result(isError, looksFailed) =>
      var id := if s.pending == [] then Made(t) else s.pending[0];
      Try(s.trace + [ToolResult(t, id, Succeeded(isError, looksFailed), id)], if s.pending == [] then [] else s.pending[1..])
  }

  function DoTry(event: string, messages: seq<TryMessage>): Try {
    if messages == [] then Try([Message(0, User, event)], [])
    else DoMessage(DoTry(event, messages[..|messages| - 1]), messages[|messages| - 1])
  }

  method TryMessagesToTrace(event: string, messages: seq<TryMessage>) returns (trace: seq<Event>)
    ensures trace == DoTry(event, messages).trace
  {
    trace := [Message(0, User, event)];
    var t: nat := 1;
    var pendingToolIds: seq<CallId> := [];
    for n := 0 to |messages|
      invariant Try(trace, pendingToolIds) == DoTry(event, messages[..n]) && t == |trace|
    {
      assert messages[..n + 1][..n] == messages[..n];
      var m := messages[n];
      match m {
        case Said(text, calls) =>
          if text != "" {
            trace := trace + [Message(t, Assistant, text)];
            t := t + 1;
          }
          ghost var said := Try(trace, pendingToolIds);
          for j := 0 to |calls|
            invariant Try(trace, pendingToolIds) == DoCalls(said, calls[..j]) && t == |trace|
          {
            assert calls[..j + 1][..j] == calls[..j];
            pendingToolIds := pendingToolIds + [Made(t)];
            trace := trace + [ToolCall(t, Made(t), calls[j], None)];
            t := t + 1;
          }
          assert calls[..|calls|] == calls;
        case Result(isError, looksFailed) =>
          var id := Made(t);
          if pendingToolIds != [] { id, pendingToolIds := pendingToolIds[0], pendingToolIds[1..]; }
          trace := trace + [ToolResult(t, id, Succeeded(isError, looksFailed), id)];
          t := t + 1;
      }
    }
    assert messages[..|messages|] == messages;
  }

  /** The calls that were answered, in the order of their answers. */
  function Answered(trace: seq<Event>): seq<CallId> {
    if trace == [] then []
    else
      var e := trace[|trace| - 1];
      Answered(trace[..|trace| - 1]) + if e.ToolResult? && e.id != Made(|trace| - 1) then [e.id] else []
  }

  /** An event of a try trace: at its own index; a call is named after it, and a result that answers no call
      too, and only when every call so far has been answered. */
  ghost predicate EventOk(trace: seq<Event>, x: int) {
    && 0 <= x < |trace| && trace[x].t == x
    && (trace[x].ToolCall? ==> trace[x].id == Made(x))
    && (trace[x].ToolResult? ==>
          && trace[x].id.Made? && trace[x].parent == trace[x].id
          && (trace[x].id == Made(x) ==> Answered(trace[..x]) == CallsOf(trace[..x])))
  }

  ghost predicate TryInv(s: Try) {
    && Queued(s)
    && (forall x :: 0 <= x < |s.trace| ==> EventOk(s.trace, x))
    && (forall p :: p in s.pending ==> p != Made(|s.trace|))
    && (forall c :: c in CallsOf(s.trace) ==> c.Made? && CallAt(s.trace, c))
  }

  ghost predicate CallAt(trace: seq<Event>, c: CallId)
    requires c.Made?
  {
    match c case Made(k) => k < |trace| && trace[k].ToolCall? && trace[k].id == c case Given(_) => false
  }

  lemma PushOk(trace: seq<Event>, e: Event)
    requires forall x :: 0 <= x < |trace| ==> EventOk(trace, x)
    requires EventOk(trace + [e], |trace|)
    ensures forall x :: 0 <= x < |trace| + 1 ==> EventOk(trace + [e], x)
  {
    forall x | 0 <= x < |trace| ensures EventOk(trace + [e], x) {
      assert EventOk(trace, x) && (trace + [e])[..x] == trace[..x];
    }
  }

  lemma CallsPush(trace: seq<Event>, e: Event)
    ensures CallsOf(trace + [e]) == CallsOf(trace) + (if e.ToolCall? then [e.id] else [])
    ensures Answered(trace + [e]) == Answered(trace) + (if e.ToolResult? && e.id != Made(|trace|) then [e.id] else [])
  {
    assert (trace + [e])[..|trace|] == trace;
  }

  lemma CallsStay(trace: seq<Event>, e: Event)
    requires forall c :: c in CallsOf(trace) ==> c.Made? && CallAt(trace, c)
    requires e.ToolCall? ==> e.id == Made(|trace|)
    ensures forall c :: c in CallsOf(trace + [e]) ==> c.Made? && CallAt(trace + [e], c)
  {
    CallsPush(trace, e);
    forall c | c in CallsOf(trace + [e]) ensures c.Made? && CallAt(trace + [e], c) {
      if c in CallsOf(trace) { assert CallAt(trace, c); }
    }
  }

  function AfterPush(s: Try, e: Event): Try {
    Try(s.trace + [e], if e.ToolCall? && e.id.Made? then s.pending + [e.id]
                       else if e.ToolResult? && s.pending != [] then s.pending[1..] else s.pending)
  }

  /** An event that fits where the trace stands: a call named after its place, a result for the oldest call waiting. */
  ghost predicate Fits(s: Try, e: Event) {
    && e.t == |s.trace|
    && (e.ToolCall? ==> e.id == Made(|s.trace|))
    && (e.ToolResult? ==> e.parent == e.id == if s.pending == [] then Made(|s.trace|) else s.pending[0])
  }

  /** The calls of a trace are those answered and then those that wait. */
  ghost predicate Queued(s: Try) {
    CallsOf(s.trace) == Answered(s.trace) + s.pending
  }

  lemma CallQueues(s: Try, e: Event)
    requires Queued(s) && e.ToolCall? && e.id == Made(|s.trace|)
    ensures Queued(AfterPush(s, e))
  {
    CallsPush(s.trace, e);
    assert (Answered(s.trace) + s.pending) + [e.id] == Answered(s.trace) + (s.pending + [e.id]);
  }

  lemma ResultQueues(s: Try, e: Event)
    requires Queued(s) && e.ToolResult? && Fits(s, e) && forall p :: p in s.pending ==> p != Made(|s.trace|)
    ensures Queued(AfterPush(s, e))
  {
    CallsPush(s.trace, e);
    if s.pending != [] {
      assert s.pending[0] in s.pending && s.pending == [s.pending[0]] + s.pending[1..];
    }
  }

  lemma WaitingWereCalled(s: Try)
    requires TryInv(s)
    ensures forall p :: p in s.pending ==> p.Made? && CallAt(s.trace, p)
  {
    assert forall p :: p in s.pending ==> p in CallsOf(s.trace);
  }

  lemma PushKeepsQueue(s: Try, e: Event)
    requires TryInv(s) && Fits(s, e)
    ensures Queued(AfterPush(s, e)) && forall p :: p in AfterPush(s, e).pending ==> p != Made(|s.trace| + 1)
  {
    CallsPush(s.trace, e);
    WaitingWereCalled(s);
    if e.ToolCall? {
      CallQueues(s, e);
    } else if e.ToolResult? {
      ResultQueues(s, e);
      assert forall p :: p in AfterPush(s, e).pending ==> p in s.pending;
    }
  }

  lemma PushKeepsInv(s: Try, e: Event)
    requires TryInv(s) && Fits(s, e)
    ensures TryInv(AfterPush(s, e))
  {
    var trace := s.trace + [e];
    assert trace[..|s.trace|] == s.trace;
    PushKeepsQueue(s, e);
    assert forall p :: p in s.pending ==> p in CallsOf(s.trace);
    assert e.ToolResult? && s.pending != [] ==> s.pending[0] in s.pending;
    assert EventOk(trace, |s.trace|);
    PushOk(s.trace, e);
    CallsStay(s.trace, e);
  }

  lemma {:induction false} CallsKeepInv(s: Try, names: seq<string>)
    requires TryInv(s)
    ensures TryInv(DoCalls(s, names))
  {
    if names != [] {
      var n := |names| - 1;
      CallsKeepInv(s, names[..n]);
      var u := DoCalls(s, names[..n]);
      PushKeepsInv(u, ToolCall(|u.trace|, Made(|u.trace|), names[n], None));
    }
  }

  lemma MessageKeepsInv(s: Try, m: TryMessage)
    requires TryInv(s)
    ensures TryInv(DoMessage(s, m))
  {
    var t := |s.trace|;
    match m {
      case Said(text, calls) =>
        if text == "" {
          CallsKeepInv(s, calls);
        } else {
          PushKeepsInv(s, Message(t, Assistant, text));
          CallsKeepInv(s.(trace := s.trace + [Message(t, Assistant, text)]), calls);
        }
      case Result(isError, looksFailed) =>
        var id := if s.pending == [] then Made(t) else s.pending[0];
        PushKeepsInv(s, ToolResult(t, id, Succeeded(isError, looksFailed), id));
    }
  }

  lemma {:induction false} TryKeepsInv(event: string, messages: seq<TryMessage>)
    ensures TryInv(DoTry(event, messages))
  {
    if messages == [] {
      var trace := [Message(0, User, event)];
      assert |trace| == 1 && trace[..0] == [] && trace[0].Message?;
      assert Answered(trace) == Answered(trace[..0]) && CallsOf(trace) == CallsOf(trace[..0]);
    } else {
      TryKeepsInv(event, messages[..|messages| - 1]);
      MessageKeepsInv(DoTry(event, messages[..|messages| - 1]), messages[|messages| - 1]);
    }
  }

  /** In a try trace every event sits at its index, so no two calls share an id; calls are answered first in,
      first out; and a result with nothing to answer gets an id no call has. */
  lemma TryAnswersInOrder(event: string, messages: seq<TryMessage>)
    ensures var trace := DoTry(event, messages).trace;
            && (forall x :: 0 <= x < |trace| ==> trace[x].t == x)
            && (forall x, y :: 0 <= x < y < |trace| && trace[x].ToolCall? && trace[y].ToolCall? ==> trace[x].id != trace[y].id)
            && Answered(trace) <= CallsOf(trace)
            && (forall x, y :: 0 <= x < |trace| && 0 <= y < |trace| && trace[x].ToolResult? && trace[x].id == Made(x) && trace[y].ToolCall? ==>
                  trace[x].id != trace[y].id)
  {
    TryKeepsInv(event, messages);
    var s := DoTry(event, messages);
    forall x | 0 <= x < |s.trace|
      ensures s.trace[x].t == x && (s.trace[x].ToolCall? ==> s.trace[x].id == Made(x))
    {
      assert EventOk(s.trace, x);
    }
  }

  /** And an answer is withheld from no call: a result takes a fresh id only when every earlier call has been
      answered. */
  lemma FreshOnlyWhenAllAnswered(event: string, messages: seq<TryMessage>, x: nat)
    requires var trace := DoTry(event, messages).trace;
             x < |trace| && trace[x].ToolResult? && trace[x].id == Made(x)
    ensures var trace := DoTry(event, messages).trace;
            Answered(trace[..x]) == CallsOf(trace[..x])
  {
    TryKeepsInv(event, messages);
    assert EventOk(DoTry(event, messages).trace, x);
  }

  /** What one message of a try tells, and all of them. */
  function MessageBrief(m: TryMessage): seq<Brief> {
    match m
    case Said(text, calls) =>
      (if text == "" then [] else [Wrote(Assistant, text)]) + Calling(calls)
    case Result(isError, looksFailed) => [Ended(if isError.Some? then !isError.value else !looksFailed)]
  }

  function Calling(names: seq<string>): seq<Brief> {
    if names == [] then [] else Calling(names[..|names| - 1]) + [Called(names[|names| - 1])]
  }

  function TryBriefs(event: string, messages: seq<TryMessage>): seq<Brief> {
    if messages == [] then [Wrote(User, event)]
    else TryBriefs(event, messages[..|messages| - 1]) + MessageBrief(messages[|messages| - 1])
  }

  lemma {:induction false} PickCalls(s: Try, names: seq<string>)
    ensures Pick(DoCalls(s, names).trace, Briefs()) == Pick(s.trace, Briefs()) + Calling(names)
  {
    if names != [] {
      var n := |names| - 1;
      var u := DoCalls(s, names[..n]);
      PickCalls(s, names[..n]);
      PickPush(u.trace, ToolCall(|u.trace|, Made(|u.trace|), names[n], None), Briefs());
    }
  }

  lemma PickSaid(s: Try, text: string, calls: seq<string>)
    ensures Pick(DoMessage(s, Said(text, calls)).trace, Briefs()) == Pick(s.trace, Briefs()) + MessageBrief(Said(text, calls))
  {
    var wrote := Message(|s.trace|, Assistant, text);
    PickPush(s.trace, wrote, Briefs());
    PickCalls(if text == "" then s else s.(trace := s.trace + [wrote]), calls);
  }

  lemma PickResult(s: Try, isError: Option<bool>, looksFailed: bool)
    ensures Pick(DoMessage(s, Result(isError, looksFailed)).trace, Briefs())
         == Pick(s.trace, Briefs()) + MessageBrief(Result(isError, looksFailed))
  {
    var id := if s.pending == [] then Made(|s.trace|) else s.pending[0];
    PickPush(s.trace, ToolResult(|s.trace|, id, Succeeded(isError, looksFailed), id), Briefs());
  }

  lemma PickMessage(s: Try, m: TryMessage)
    ensures Pick(DoMessage(s, m).trace, Briefs()) == Pick(s.trace, Briefs()) + MessageBrief(m)
  {
    match m {
      case Said(text, calls) => PickSaid(s, text, calls);
      case Result(isError, looksFailed) => PickResult(s, isError, looksFailed);
    }
  }

  lemma TryStarts(event: string)
    ensures Pick(DoTry(event, []).trace, Briefs()) == [Wrote(User, event)]
  {
    PickOne(Message(0, User, event), Briefs());
  }

  lemma PickLastMessage(event: string, messages: seq<TryMessage>)
    requires messages != []
    ensures var n := |messages| - 1;
            Pick(DoTry(event, messages).trace, Briefs())
            == Pick(DoTry(event, messages[..n]).trace, Briefs()) + MessageBrief(messages[n])
  {
    PickMessage(DoTry(event, messages[..|messages| - 1]), messages[|messages| - 1]);
  }

  /** Nothing of a try is dropped or invented: its trace tells the event that set it off and then what its messages
      tell, each text, call and result once and in order. */
  lemma {:induction false} TryIsConserved(event: string, messages: seq<TryMessage>)
    ensures Pick(DoTry(event, messages).trace, Briefs()) == TryBriefs(event, messages)
  {
    if messages == [] {
      TryStarts(event);
    } else {
      TryIsConserved(event, messages[..|messages| - 1]);
      PickLastMessage(event, messages);
    }
  }
}
