/** A session's running memory: old records fold, span by span, into a digest, and later turns replay the
    digest followed by the records after it.  The checklist the agent keeps must survive the fold. */
module SessionMemory {

  datatype Option<+T> = None | Some(value: T)

  datatype Role = User | Assistant | Tool

  type NonEmpty = s: string | s != "" witness "x"

  datatype Status = Pending | InProgress | Completed

  /** An item as the reader accepts it: items without content or with another status are skipped. */
  datatype Todo = Todo(content: NonEmpty, activeForm: string, status: Status)

  /** A tool call, with the checklist its arguments parse to (empty when they do not parse). */
  datatype Call = Call(name: string, todos: seq<Todo>)

  datatype Record = Record(seqNo: nat, role: Role, content: string, calls: seq<Call>)

  const WRITE_TODOS := "write_todos"
  const KEEP_RECENT := 20
  const OPEN := "<todo-carryover>"
  const CLOSE := "</todo-carryover>"

  /** The texts the fold depends on: the checklist's text form (the host's JSON printer and its forgiving
      reader), and the fixed headings put before a memory when it seeds a summary or leads a replay. */
  datatype Codec = Codec(show: seq<Todo> -> string, read: string -> seq<Todo>, seedHeading: string, replayHeading: string)

  /** What they are relied on for: reading undoes showing, no shorter piece of a shown checklist reads back as
      that checklist, and no heading holds an angle bracket. */
  ghost predicate Faithful(c: Codec) {
    && (forall ts :: c.read(c.show(ts)) == ts)
    && (forall ts, i, j | 0 <= i <= j <= |c.show(ts)| && j - i < |c.show(ts)| ::
          c.read(c.show(ts)[i..j]) == ts ==> ts == [])
    && '<' !in c.seedHeading && '<' !in c.replayHeading
  }

  // ---------------------------------------------------------------- folding

  datatype Session = Session(records: seq<Record>, memory: Option<string>, covered: Option<nat>)

  /** The records not yet covered by the digest: what a turn replays verbatim. */
  function Tail(records: seq<Record>, covered: Option<nat>): seq<Record> {
    if records == [] then []
    else
      var rest := Tail(records[..|records| - 1], covered);
      var last := records[|records| - 1];
      if covered.None? || last.seqNo > covered.value then rest + [last] else rest
  }

  function Chars(records: seq<Record>): nat {
    if records == [] then 0 else Chars(records[..|records| - 1]) + |records[|records| - 1].content|
  }

  /** The first user record at or after position `from`, or -1. */
  function CutFrom(tail: seq<Record>, from: nat): (cut: int)
    ensures cut == -1 || from <= cut < |tail|
    ensures cut >= 0 ==> tail[cut].role == User && forall i :: from <= i < cut ==> tail[i].role != User
    ensures cut < 0 ==> forall i :: from <= i < |tail| ==> tail[i].role != User
    decreases |tail| - from
  {
    if from >= |tail| then -1
    else if tail[from].role == User then from
    else CutFrom(tail, from + 1)
  }

  function MemoryChars(memory: Option<string>): nat {
    if memory.Some? then |memory.value| else 0
  }

  /** Where this session would be cut, or -1 when it is not due or has no safe boundary. */
  function CutPoint(s: Session, trigger: nat): (cut: int) {
    var tail := Tail(s.records, s.covered);
    if MemoryChars(s.memory) + Chars(tail) < trigger || |tail| <= KEEP_RECENT then -1
    else CutFrom(tail, |tail| - KEEP_RECENT)
  }

  /** The messages a turn is shown, and the ones a summariser is given. */
  datatype Msg = UserMsg(text: string) | AssistantMsg(calls: seq<Call>) | ToolMsg

  function ToMsg(r: Record): Msg {
    match r.role
    case User => UserMsg(r.content)
    case Assistant => AssistantMsg(r.calls)
    case Tool => ToolMsg
  }

  function ToMsgs(records: seq<Record>): (m: seq<Msg>)
    ensures |m| == |records|
  {
    seq(|records|, i requires 0 <= i < |records| => ToMsg(records[i]))
  }

  function Headed(heading: string, memory: Option<string>): seq<Msg> {
    if memory.Some? && memory.value != "" then [UserMsg(heading + memory.value)] else []
  }

  function Seeded(c: Codec, s: Session, cut: nat): seq<Msg>
    requires cut <= |Tail(s.records, s.covered)|
  {
    Headed(c.seedHeading, s.memory) + ToMsgs(Tail(s.records, s.covered)[..cut])
  }

  function Carryover(c: Codec, todos: seq<Todo>): string {
    OPEN + c.show(todos) + CLOSE
  }

  function WithTodos(c: Codec, digest: string, todos: seq<Todo>): string {
    if todos != [] then digest + "\n\n" + Carryover(c, todos) else digest
  }

  /** One maintenance pass.  `digest` is the summariser's trimmed answer; a summariser or store that fails is
      an empty one. */
  function Maintain(c: Codec, s: Session, trigger: nat, digest: string): Session {
    var cut := CutPoint(s, trigger);
    if cut <= 0 || digest == "" then s
    else
      var tail := Tail(s.records, s.covered);
      Session(s.records, Some(WithTodos(c, digest, Extract(c, Seeded(c, s, cut)))), Some(tail[cut - 1].seqNo))
  }

  class SessionStore {
    var records: seq<Record>
    var memory: Option<string>
    var covered: Option<nat>

    ghost function View(): Session reads this { Session(records, memory, covered) }

    constructor ()
      ensures View() == Session([], None, None)
    {
      records, memory, covered := [], None, None;
    }

    method CountChars(tail: seq<Record>) returns (chars: nat)
      ensures chars == MemoryChars(memory) + Chars(tail)
    {
      chars := MemoryChars(memory);
      for i := 0 to |tail|
        invariant chars == MemoryChars(memory) + Chars(tail[..i])
      {
        assert tail[..i + 1][..i] == tail[..i];
        chars := chars + |tail[i].content|;
      }
      assert tail[..|tail|] == tail;
    }

    method FindCut(tail: seq<Record>) returns (cut: int)
      requires |tail| > KEEP_RECENT
      ensures cut == CutFrom(tail, |tail| - KEEP_RECENT)
    {
      cut := -1;
      var i := |tail| - KEEP_RECENT;
      while i < |tail|
        invariant |tail| - KEEP_RECENT <= i <= |tail|
        invariant CutFrom(tail, |tail| - KEEP_RECENT) == CutFrom(tail, i)
      {
        if tail[i].role == User {
          cut := i;
          break;
        }
        i := i + 1;
      }
    }

    method MaintainSessionMemory(c: Codec, trigger: nat, digest: string) returns (folded: bool)
      modifies this
      ensures View() == Maintain(c, old(View()), trigger, digest)
      ensures folded <==> CutPoint(old(View()), trigger) > 0 && digest != ""
    {
      var tail := Tail(records, covered);
      var chars := CountChars(tail);
      if chars < trigger || |tail| <= KEEP_RECENT { return false; }
      var cut := FindCut(tail);
      if cut <= 0 { return false; }
      if digest == "" { return false; }
      var carried := Extract(c, Headed(c.seedHeading, memory) + ToMsgs(tail[..cut]));
      memory := Some(WithTodos(c, digest, carried));
      covered := Some(tail[cut - 1].seqNo);
      return true;
    }
  }

  // ---------------------------------------------------------------- runs: nothing falls off

  datatype Step =
    | Turn(produced: seq<(Role, string, seq<Call>)>)   // a turn appends the records it produced
    | Fold(trigger: nat, digest: string)

  /** A session with every span its folds handed to the summariser, in order. */
  datatype History = History(session: Session, spans: seq<seq<Record>>)

  function NextSeq(records: seq<Record>): nat {
    if records == [] then 0 else records[|records| - 1].seqNo + 1
  }

  function AppendAll(records: seq<Record>, produced: seq<(Role, string, seq<Call>)>): seq<Record> {
    if produced == [] then records
    else
      var before := AppendAll(records, produced[..|produced| - 1]);
      var (role, content, calls) := produced[|produced| - 1];
      before + [Record(NextSeq(before), role, content, calls)]
  }

  function Next(c: Codec, h: History, step: Step): History {
    match step
    case Turn(produced) => h.(session := h.session.(records := AppendAll(h.session.records, produced)))
    case Fold(trigger, digest) =>
      var cut := CutPoint(h.session, trigger);
      if cut <= 0 || digest == "" then h
      else History(Maintain(c, h.session, trigger, digest),
                   h.spans + [Tail(h.session.records, h.session.covered)[..cut]])
  }

  function Run(c: Codec, steps: seq<Step>): History {
    if steps == [] then History(Session([], None, None), [])
    else Next(c, Run(c, steps[..|steps| - 1]), steps[|steps| - 1])
  }

  function Flatten(spans: seq<seq<Record>>): seq<Record> {
    if spans == [] then [] else Flatten(spans[..|spans| - 1]) + spans[|spans| - 1]
  }

  ghost predicate Numbered(records: seq<Record>) {
    forall i, j :: 0 <= i < j < |records| ==> records[i].seqNo < records[j].seqNo
  }

  /** Everything folded so far is a prefix of the transcript, and the digest covers exactly that prefix. */
  ghost predicate Inv(h: History) {
    var folded := Flatten(h.spans);
    && Numbered(h.session.records)
    && |folded| <= |h.session.records| && h.session.records[..|folded|] == folded
    && (h.session.covered.None? ==> folded == [])
    && (h.session.covered.Some? ==> folded != [] && h.session.covered.value == folded[|folded| - 1].seqNo)
  }

  /** With numbered records, the verbatim tail is the transcript from one point on. */
  lemma {:induction false} TailIsSuffix(records: seq<Record>, covered: Option<nat>, k: nat)
    requires Numbered(records) && k <= |records|
    requires covered.None? ==> k == 0
    requires covered.Some? ==> k > 0 && covered.value == records[k - 1].seqNo
    ensures Tail(records, covered) == records[k..]
  {
    var n := |records| - 1;
    if records == [] {
    } else if k == |records| {
      AllCovered(records, covered.value);
    } else {
      assert covered.Some? ==> records[k - 1].seqNo < records[n].seqNo;
      TailIsSuffix(records[..n], covered, k);
      assert records[k..] == records[..n][k..] + [records[n]];
    }
  }

  lemma {:induction false} AllCovered(records: seq<Record>, through: nat)
    requires forall i :: 0 <= i < |records| ==> records[i].seqNo <= through
    ensures Tail(records, Some(through)) == []
  {
    if records != [] { AllCovered(records[..|records| - 1], through); }
  }

  lemma {:induction false} AppendAllKeeps(records: seq<Record>, produced: seq<(Role, string, seq<Call>)>)
    requires Numbered(records)
    ensures Numbered(AppendAll(records, produced)) && records <= AppendAll(records, produced)
    ensures |AppendAll(records, produced)| == |records| + |produced|
    ensures forall i :: 0 <= i < |produced| ==>
              var r := AppendAll(records, produced)[|records| + i];
              (r.role, r.content, r.calls) == produced[i]
  {
    if produced != [] { AppendAllKeeps(records, produced[..|produced| - 1]); }
  }

  lemma FlattenPush(spans: seq<seq<Record>>, span: seq<Record>)
    ensures Flatten(spans + [span]) == Flatten(spans) + span
  {
    assert (spans + [span])[..|spans|] == spans;
  }

  lemma TailOf(h: History)
    requires Inv(h)
    ensures Tail(h.session.records, h.session.covered) == h.session.records[|Flatten(h.spans)|..]
  {
    TailIsSuffix(h.session.records, h.session.covered, |Flatten(h.spans)|);
  }

  /** Where a fold cuts and what it moves. */
  lemma MaintainMoves(c: Codec, s: Session, trigger: nat, digest: string)
    requires CutPoint(s, trigger) > 0 && digest != ""
    ensures var tail, cut, t := Tail(s.records, s.covered), CutPoint(s, trigger), Maintain(c, s, trigger, digest);
            && |tail| - KEEP_RECENT <= cut < |tail| && tail[cut].role == User
            && t.records == s.records && t.covered == Some(tail[cut - 1].seqNo)
  {
  }

  lemma FoldKeepsInv(c: Codec, h: History, trigger: nat, digest: string)
    requires Inv(h) && CutPoint(h.session, trigger) > 0 && digest != ""
    ensures Inv(Next(c, h, Fold(trigger, digest)))
  {
    TailOf(h);
    var records, k, cut := h.session.records, |Flatten(h.spans)|, CutPoint(h.session, trigger);
    var span := Tail(records, h.session.covered)[..cut];
    var t := Next(c, h, Fold(trigger, digest));
    MaintainMoves(c, h.session, trigger, digest);
    assert t.spans == h.spans + [span] && t.session.records == records;
    assert t.session.covered == Some(records[k + cut - 1].seqNo);
    SpanExtends(h, span, k, cut);
  }

  lemma SpanExtends(h: History, span: seq<Record>, k: nat, cut: nat)
    requires k == |Flatten(h.spans)| && k + cut <= |h.session.records| && h.session.records[..k] == Flatten(h.spans)
    requires span == h.session.records[k..][..cut]
    ensures Flatten(h.spans + [span]) == h.session.records[..k + cut]
  {
    FlattenPush(h.spans, span);
    assert h.session.records[..k + cut] == h.session.records[..k] + span;
  }

  lemma KeepsInv(c: Codec, h: History, step: Step)
    requires Inv(h)
    ensures Inv(Next(c, h, step))
  {
    if step.Turn? {
      AppendAllKeeps(h.session.records, step.produced);
    } else if CutPoint(h.session, step.trigger) > 0 && step.digest != "" {
      FoldKeepsInv(c, h, step.trigger, step.digest);
    }
  }

  lemma {:induction false} RunInv(c: Codec, steps: seq<Step>)
    ensures Inv(Run(c, steps))
  {
    if steps != [] {
      RunInv(c, steps[..|steps| - 1]);
      KeepsInv(c, Run(c, steps[..|steps| - 1]), steps[|steps| - 1]);
    }
  }

  /** Nothing falls off and nothing is told twice: after any number of turns and folds, the spans handed to
      the summariser followed by the records replayed verbatim are the whole transcript. */
  lemma EveryRecordOnce(c: Codec, steps: seq<Step>)
    ensures var h := Run(c, steps);
            Flatten(h.spans) + Tail(h.session.records, h.session.covered) == h.session.records
  {
    RunInv(c, steps);
    var h := Run(c, steps);
    TailOf(h);
    assert h.session.records == h.session.records[..|Flatten(h.spans)|] + h.session.records[|Flatten(h.spans)|..];
  }

  /** Every fold strictly advances the covered point, and leaves between one record and twenty, the first of
      them a user record (so no tool call is separated from its results). */
  lemma FoldAdvances(c: Codec, steps: seq<Step>, trigger: nat, digest: string)
    requires CutPoint(Run(c, steps).session, trigger) > 0 && digest != ""
    ensures var s := Run(c, steps).session;
            var t := Maintain(c, s, trigger, digest);
            var kept := Tail(t.records, t.covered);
            && t.covered.Some? && (s.covered.Some? ==> s.covered.value < t.covered.value)
            && 1 <= |kept| <= KEEP_RECENT && kept[0].role == User
            && kept == Tail(s.records, s.covered)[CutPoint(s, trigger)..]
            && t.records == s.records
  {
    var h := Run(c, steps);
    RunInv(c, steps);
    TailOf(h);
    FoldCuts(c, h.session, |Flatten(h.spans)|, trigger, digest);
  }

  lemma FoldCuts(c: Codec, s: Session, k: nat, trigger: nat, digest: string)
    requires Numbered(s.records) && k <= |s.records| && Tail(s.records, s.covered) == s.records[k..]
    requires s.covered.None? ==> k == 0
    requires s.covered.Some? ==> k > 0 && s.covered.value == s.records[k - 1].seqNo
    requires CutPoint(s, trigger) > 0 && digest != ""
    ensures var t := Maintain(c, s, trigger, digest);
            var kept := Tail(t.records, t.covered);
            && t.covered.Some? && (s.covered.Some? ==> s.covered.value < t.covered.value)
            && 1 <= |kept| <= KEEP_RECENT && kept[0].role == User
            && kept == Tail(s.records, s.covered)[CutPoint(s, trigger)..]
            && t.records == s.records
  {
    var tail, cut := Tail(s.records, s.covered), CutPoint(s, trigger);
    MaintainMoves(c, s, trigger, digest);
    CutAdvances(s.records, s.covered, k, cut);
    var kept := tail[cut..];
    assert kept[0] == tail[cut] && |kept| == |tail| - cut;
  }

  /** Moving the covered point to just before position `cut` of the tail leaves the tail from `cut` on. */
  lemma CutAdvances(records: seq<Record>, covered: Option<nat>, k: nat, cut: nat)
    requires Numbered(records) && k <= |records|
    requires covered.None? ==> k == 0
    requires covered.Some? ==> k > 0 && covered.value == records[k - 1].seqNo
    requires Tail(records, covered) == records[k..] && 0 < cut < |records| - k
    ensures Tail(records, Some(Tail(records, covered)[cut - 1].seqNo)) == Tail(records, covered)[cut..]
    ensures covered.Some? ==> covered.value < Tail(records, covered)[cut - 1].seqNo
  {
    var through := Some(records[k + cut - 1].seqNo);
    TailIsSuffix(records, through, k + cut);
    assert records[k..][cut..] == records[k + cut..];
  }

  /** All a session has said, in one text. */
  function AllText(records: seq<Record>): string {
    if records == [] then "" else AllText(records[..|records| - 1]) + records[|records| - 1].content
  }

  lemma {:induction false} CharsAreAll(records: seq<Record>)
    ensures Chars(records) == |AllText(records)|
  {
    if records != [] { CharsAreAll(records[..|records| - 1]); }
  }

  /** The pass keeps its hands off exactly when the session is not due (the digest and everything said since
      it are together too short, or there are too few records) or no user record lies in the last twenty. */
  lemma SkipsWhen(c: Codec, s: Session, trigger: nat)
    ensures CutPoint(s, trigger) <= 0 <==>
              var tail := Tail(s.records, s.covered);
              || (if s.memory.Some? then |s.memory.value + AllText(tail)| else |AllText(tail)|) < trigger
              || |tail| <= KEEP_RECENT
              || (forall i :: |tail| - KEEP_RECENT <= i < |tail| ==> tail[i].role != User)
  {
    CharsAreAll(Tail(s.records, s.covered));
  }

  // ---------------------------------------------------------------- text search

  predicate Occurs(text: string, pat: string, i: int) {
    0 <= i && i + |pat| <= |text| && forall j :: i <= j < i + |pat| ==> text[j] == pat[j - i]
  }

  /** The greatest position at or below `from` where the pattern occurs, or -1. */
  function LastIndexFrom(text: string, pat: string, from: int): int
    requires from >= -1
    decreases from + 1
  {
    if from < 0 then -1 else if Occurs(text, pat, from) then from else LastIndexFrom(text, pat, from - 1)
  }

  function LastIndexOf(text: string, pat: string): int {
    LastIndexFrom(text, pat, |text|)
  }

  /** The least position at or above `from` where the pattern occurs, or -1. */
  function IndexOf(text: string, pat: string, from: nat): (r: int)
    ensures -1 <= r <= |text|
    decreases |text| - from
  {
    if from > |text| then -1 else if Occurs(text, pat, from) then from else IndexOf(text, pat, from + 1)
  }

  lemma {:induction false} LastIndexFromSpec(text: string, pat: string, from: int)
    requires from >= -1
    ensures var r := LastIndexFrom(text, pat, from);
            (r == -1 || (0 <= r <= from && Occurs(text, pat, r))) && forall i :: r < i <= from ==> !Occurs(text, pat, i)
    decreases from + 1
  {
    if from >= 0 && !Occurs(text, pat, from) { LastIndexFromSpec(text, pat, from - 1); }
  }

  lemma LastIndexSpec(text: string, pat: string)
    ensures var r := LastIndexOf(text, pat);
            (r == -1 || Occurs(text, pat, r)) && forall i :: r < i ==> !Occurs(text, pat, i)
  {
    LastIndexFromSpec(text, pat, |text|);
  }

  lemma {:induction false} IndexSpec(text: string, pat: string, from: nat)
    ensures var r := IndexOf(text, pat, from);
            (r == -1 || (from <= r && Occurs(text, pat, r)))
            && forall i | from <= i && Occurs(text, pat, i) :: r != -1 && r <= i
    decreases |text| - from
  {
    if from <= |text| && !Occurs(text, pat, from) { IndexSpec(text, pat, from + 1); }
  }

  predicate Contains(text: string, pat: string) {
    exists i :: 0 <= i <= |text| && Occurs(text, pat, i)
  }

  // ---------------------------------------------------------------- the checklist

  /** What stands between the last opener of a text and the first closer after it. */
  function Between(text: string, o: string, cl: string): Option<string> {
    var start := LastIndexOf(text, o);
    Inner(text, start, if start < 0 then -1 else IndexOf(text, cl, start), |o|)
  }

  function Inner(text: string, start: int, end: int, width: nat): Option<string>
    requires end <= |text|
  {
    if start < 0 || end < 0 then None else Some(if start + width <= end then text[start + width..end] else "")
  }

  /** The checklist a text carries, if it carries a marker. */
  function Carried(c: Codec, text: string): Option<seq<Todo>> {
    var inside := Between(text, OPEN, CLOSE);
    if inside.Some? then Some(c.read(inside.value)) else None
  }

  /** The first checklist call of one message. */
  function FirstTodos(calls: seq<Call>): Option<seq<Todo>> {
    if calls == [] then None
    else if calls[0].name == WRITE_TODOS then Some(calls[0].todos)
    else FirstTodos(calls[1..])
  }

  function Stated(c: Codec, m: Msg): Option<seq<Todo>> {
    match m
    case UserMsg(text) => Carried(c, text)
    case AssistantMsg(calls) => FirstTodos(calls)
    case ToolMsg => None
  }

  /** The backward scan: the latest message that states a checklist decides. */
  function Found(c: Codec, msgs: seq<Msg>): Option<seq<Todo>> {
    if msgs == [] then None
    else
      var last := Stated(c, msgs[|msgs| - 1]);
      if last.Some? then last else Found(c, msgs[..|msgs| - 1])
  }

  function Extract(c: Codec, msgs: seq<Msg>): seq<Todo> {
    if Found(c, msgs).Some? then Found(c, msgs).value else []
  }

  /** What a turn replays: the digest, then the records after it. */
  function Replay(c: Codec, s: Session): seq<Msg> {
    Headed(c.replayHeading, s.memory) + ToMsgs(Tail(s.records, s.covered))
  }

  lemma {:induction false} FoundConcat(c: Codec, a: seq<Msg>, b: seq<Msg>)
    ensures Found(c, a + b) == if Found(c, b).Some? then Found(c, b) else Found(c, a)
  {
    if b == [] {
      assert a + b == a;
    } else {
      assert (a + b)[..|a + b| - 1] == a + b[..|b| - 1];
      FoundConcat(c, a, b[..|b| - 1]);
    }
  }

  lemma FoundOne(c: Codec, m: Msg)
    ensures Found(c, [m]) == Stated(c, m)
  {
    assert [m][..0] == [];
  }

  /** A marker: its first character opens it and occurs nowhere else in it, so markers never overlap. */
  ghost predicate Marker(m: string) {
    |m| > 1 && m[0] == '<' && forall i :: 0 < i < |m| ==> m[i] != '<'
  }

  lemma MarkersAre()
    ensures Marker(OPEN) && Marker(CLOSE) && OPEN[1] != CLOSE[1]
  {
  }

  /** A heading without '<' in front of a text shifts every marker in it and adds none. */
  lemma OccursAfterHeading(heading: string, text: string, m: string, i: int)
    requires '<' !in heading && Marker(m)
    ensures Occurs(heading + text, m, i) <==> Occurs(text, m, i - |heading|)
  {
    var whole := heading + text;
    if Occurs(whole, m, i) {
      assert whole[i] == m[0];
      assert i >= |heading|;
      forall j | i - |heading| <= j < i - |heading| + |m| ensures text[j] == m[j - (i - |heading|)] {
        assert text[j] == whole[j + |heading|];
      }
    }
  }

  function Shifted(r: int, offset: nat): int {
    if r < 0 then -1 else r + offset
  }

  lemma LastAfterHeading(heading: string, text: string, o: string)
    requires '<' !in heading && Marker(o)
    ensures LastIndexOf(heading + text, o) == Shifted(LastIndexOf(text, o), |heading|)
  {
    var whole, n := heading + text, |heading|;
    var s, t := LastIndexOf(whole, o), LastIndexOf(text, o);
    LastIndexSpec(whole, o);
    LastIndexSpec(text, o);
    OccursAfterHeading(heading, text, o, s);
    OccursAfterHeading(heading, text, o, t + n);
  }

  lemma FirstAfterHeading(heading: string, text: string, cl: string, from: nat)
    requires '<' !in heading && Marker(cl)
    ensures IndexOf(heading + text, cl, |heading| + from) == Shifted(IndexOf(text, cl, from), |heading|)
  {
    var whole, n := heading + text, |heading|;
    var e, f := IndexOf(whole, cl, n + from), IndexOf(text, cl, from);
    IndexSpec(whole, cl, n + from);
    IndexSpec(text, cl, from);
    OccursAfterHeading(heading, text, cl, e);
    OccursAfterHeading(heading, text, cl, f + n);
  }

  lemma InnerAfterHeading(heading: string, text: string, start: int, end: int, width: nat)
    requires 0 <= start && end <= |text|
    ensures Inner(heading + text, |heading| + start, Shifted(end, |heading|), width) == Inner(text, start, end, width)
  {
    if start + width <= end {
      assert (heading + text)[|heading| + start + width..|heading| + end] == text[start + width..end];
    }
  }

  lemma BetweenAfterHeading(heading: string, text: string, o: string, cl: string)
    requires '<' !in heading && Marker(o) && Marker(cl)
    ensures Between(heading + text, o, cl) == Between(text, o, cl)
  {
    LastAfterHeading(heading, text, o);
    var start := LastIndexOf(text, o);
    if start >= 0 {
      FirstAfterHeading(heading, text, cl, start);
      InnerAfterHeading(heading, text, start, IndexOf(text, cl, start), |o|);
    }
  }

  lemma HeadingIsTransparent(c: Codec, heading: string, text: string)
    requires '<' !in heading
    ensures Carried(c, heading + text) == Carried(c, text)
  {
    MarkersAre();
    BetweenAfterHeading(heading, text, OPEN, CLOSE);
  }

  ghost predicate Clean(shown: string) {
    !Contains(shown, OPEN) && !Contains(shown, CLOSE)
  }

  /** A text between two markers, behind anything. */
  function Wrapped(before: string, o: string, shown: string, cl: string): string {
    before + o + shown + cl
  }

  lemma OccursChar(text: string, m: string, i: int, j: int)
    requires Occurs(text, m, i) && i <= j < i + |m|
    ensures text[j] == m[j - i]
  {
  }

  lemma WrappedChars(before: string, o: string, shown: string, cl: string)
    ensures var text := Wrapped(before, o, shown, cl);
            var at := |before| + |o|;
            && |text| == at + |shown| + |cl|
            && (forall i :: |before| <= i < at ==> text[i] == o[i - |before|])
            && (forall i :: at <= i < at + |shown| ==> text[i] == shown[i - at])
            && (forall i :: at + |shown| <= i < |text| ==> text[i] == cl[i - at - |shown|])
  {
  }

  /** A marker that starts after the wrapping opener lies inside the wrapped text or is the closer itself. */
  lemma MarkerInside(before: string, o: string, shown: string, cl: string, m: string, i: int)
    requires Marker(o) && Marker(cl) && Marker(m)
    requires i > |before| && Occurs(Wrapped(before, o, shown, cl), m, i)
    ensures Occurs(shown, m, i - |before| - |o|) || (i == |before| + |o| + |shown| && m[1] == cl[1])
  {
    var text := Wrapped(before, o, shown, cl);
    var at := |before| + |o|;
    WrappedChars(before, o, shown, cl);
    assert text[i] == m[0] && text[i + 1] == m[1];
    assert i >= at;
    if i < at + |shown| < i + |m| {
      OccursChar(text, m, i, at + |shown|);
      assert false;
    }
    if i < at + |shown| {
      forall j | i - at <= j < i - at + |m| ensures shown[j] == m[j - (i - at)] {
        assert shown[j] == text[j + at];
      }
    }
  }

  lemma MarkerOutside(before: string, o: string, shown: string, cl: string, m: string, i: int)
    requires Occurs(shown, m, i)
    ensures Occurs(Wrapped(before, o, shown, cl), m, |before| + |o| + i)
  {
    WrappedChars(before, o, shown, cl);
  }

  /** Where the two searches land in a wrapped text: at its own ends if and only if neither marker occurs
      inside; otherwise strictly inside. */
  lemma SearchWrapped(before: string, o: string, shown: string, cl: string)
    requires Marker(o) && Marker(cl) && o[1] != cl[1]
    ensures var text := Wrapped(before, o, shown, cl);
            var start := LastIndexOf(text, o);
            var at := |before| + |o|;
            && start >= |before|
            && var end := IndexOf(text, cl, start);
            && end <= at + |shown|
            && (start == |before| || start >= at)
            && (start == |before| && end == at + |shown| <==> !Contains(shown, o) && !Contains(shown, cl))
            && end > |before|
            && (start == |before| ==> end >= at)
  {
    var text := Wrapped(before, o, shown, cl);
    var at := |before| + |o|;
    WrappedChars(before, o, shown, cl);
    assert Occurs(text, o, |before|);
    assert Occurs(text, cl, at + |shown|);
    var start := LastIndexOf(text, o);
    LastIndexSpec(text, o);
    if start > |before| { MarkerInside(before, o, shown, cl, o, start); }
    var end := IndexOf(text, cl, start);
    IndexSpec(text, cl, start);
    if end > |before| {
      MarkerInside(before, o, shown, cl, cl, end);
    } else {
      OccursChar(text, cl, end, end + 1);
      assert false;
    }
    forall i | 0 <= i <= |shown|
      ensures Occurs(shown, o, i) ==> start >= at + i
      ensures Occurs(shown, cl, i) && start <= at + i ==> end <= at + i
    {
      if Occurs(shown, o, i) { MarkerOutside(before, o, shown, cl, o, i); }
      if Occurs(shown, cl, i) { MarkerOutside(before, o, shown, cl, cl, i); }
    }
  }

  ghost predicate ShorterPiece(piece: string, whole: string) {
    exists i, j :: 0 <= i <= j <= |whole| && j - i < |whole| && piece == whole[i..j]
  }

  /** A wrapped text is found again exactly when it holds neither marker; otherwise a shorter piece is. */
  lemma BetweenWrapped(before: string, o: string, shown: string, cl: string)
    requires Marker(o) && Marker(cl) && o[1] != cl[1]
    ensures var found := Between(Wrapped(before, o, shown, cl), o, cl);
            && found.Some?
            && (!Contains(shown, o) && !Contains(shown, cl) ==> found.value == shown)
            && (Contains(shown, o) || Contains(shown, cl) ==> ShorterPiece(found.value, shown))
  {
    var text := Wrapped(before, o, shown, cl);
    var at := |before| + |o|;
    WrappedChars(before, o, shown, cl);
    SearchWrapped(before, o, shown, cl);
    var start := LastIndexOf(text, o);
    var end := IndexOf(text, cl, start);
    var from := start + |o|;
    if from <= end {
      assert text[from..end] == shown[from - at..end - at];
    } else {
      assert shown[0..0] == "";
    }
  }

  lemma ShorterReadsElse(c: Codec, todos: seq<Todo>)
    requires Faithful(c) && todos != []
    ensures forall piece :: ShorterPiece(piece, c.show(todos)) ==> c.read(piece) != todos
  {
  }

  /** The carryover round trip, exactly: a checklist written behind a digest reads back as itself if and only
      if its text form contains neither marker. */
  lemma CarryoverRoundTrip(c: Codec, before: string, todos: seq<Todo>)
    requires Faithful(c) && todos != []
    ensures Carried(c, before + Carryover(c, todos)) == Some(todos) <==> Clean(c.show(todos))
  {
    MarkersAre();
    BetweenWrapped(before, OPEN, c.show(todos), CLOSE);
    ShorterReadsElse(c, todos);
    assert before + Carryover(c, todos) == Wrapped(before, OPEN, c.show(todos), CLOSE);
  }

  // ---------------------------------------------------------------- a printer, and a checklist it loses

  /** A printer that, like the host's, writes every item's content as it stands, here behind its length. */
  function Unary(n: nat): string {
    if n == 0 then "0" else "1" + Unary(n - 1)
  }

  function Field(text: string): string {
    Unary(|text|) + text
  }

  function ShowStatus(status: Status): string {
    match status
    case Pending => "p"
    case InProgress => "i"
    case Completed => "c"
  }

  function ShowOne(t: Todo): string {
    Field(t.content) + (Field(t.activeForm) + ShowStatus(t.status))
  }

  function ShowAll(todos: seq<Todo>): string {
    if todos == [] then "0" else "1" + (ShowOne(todos[0]) + ShowAll(todos[1..]))
  }

  /** The reader that undoes it. */
  ghost function ReadAll(text: string): seq<Todo> {
    if todos :| ShowAll(todos) == text then todos else []
  }

  lemma {:induction false} UnaryUnique(m: nat, n: nat, x: string, y: string)
    requires Unary(m) + x == Unary(n) + y
    ensures m == n && x == y
  {
    var a, b := Unary(m) + x, Unary(n) + y;
    if m == 0 || n == 0 {
      assert a[0] == (if m == 0 then '0' else '1') && b[0] == (if n == 0 then '0' else '1');
      assert m == 0 && n == 0;
      assert a[1..] == x && b[1..] == y;
    } else {
      assert a[1..] == Unary(m - 1) + x && b[1..] == Unary(n - 1) + y;
      UnaryUnique(m - 1, n - 1, x, y);
    }
  }

  lemma FieldUnique(a: string, b: string, x: string, y: string)
    requires Field(a) + x == Field(b) + y
    ensures a == b && x == y
  {
    assert Field(a) + x == Unary(|a|) + (a + x) && Field(b) + y == Unary(|b|) + (b + y);
    UnaryUnique(|a|, |b|, a + x, b + y);
    assert (a + x)[..|a|] == a && (b + y)[..|a|] == b;
    assert (a + x)[|a|..] == x && (b + y)[|a|..] == y;
  }

  lemma OneUnique(t: Todo, u: Todo, x: string, y: string)
    requires ShowOne(t) + x == ShowOne(u) + y
    ensures t == u && x == y
  {
    var a, b := ShowStatus(t.status) + x, ShowStatus(u.status) + y;
    assert ShowOne(t) + x == Field(t.content) + (Field(t.activeForm) + a);
    assert ShowOne(u) + y == Field(u.content) + (Field(u.activeForm) + b);
    FieldUnique(t.content, u.content, Field(t.activeForm) + a, Field(u.activeForm) + b);
    FieldUnique(t.activeForm, u.activeForm, a, b);
    assert a[0] == ShowStatus(t.status)[0] && b[0] == ShowStatus(u.status)[0];
    assert a[1..] == x && b[1..] == y;
  }

  lemma {:induction false} ShowUnique(todos: seq<Todo>, others: seq<Todo>)
    requires ShowAll(todos) == ShowAll(others)
    ensures todos == others
  {
    var a, b := ShowAll(todos), ShowAll(others);
    assert a[0] == (if todos == [] then '0' else '1') && b[0] == (if others == [] then '0' else '1');
    if todos != [] {
      assert a[1..] == ShowOne(todos[0]) + ShowAll(todos[1..]) && b[1..] == ShowOne(others[0]) + ShowAll(others[1..]);
      OneUnique(todos[0], others[0], ShowAll(todos[1..]), ShowAll(others[1..]));
      ShowUnique(todos[1..], others[1..]);
      assert todos == [todos[0]] + todos[1..] && others == [others[0]] + others[1..];
    }
  }

  ghost function PlainCodec(): Codec {
    Codec(ShowAll, ReadAll, "[Previous conversation memory]", "[Conversation memory]")
  }

  lemma ReadShown(todos: seq<Todo>)
    ensures ReadAll(ShowAll(todos)) == todos
  {
    ShowUnique(ReadAll(ShowAll(todos)), todos);
  }

  lemma ReadGives(text: string)
    ensures ReadAll(text) == [] || ShowAll(ReadAll(text)) == text
  {
  }

  lemma ReadsWhole(todos: seq<Todo>, i: nat, j: nat)
    requires i <= j <= |ShowAll(todos)| && j - i < |ShowAll(todos)| && ReadAll(ShowAll(todos)[i..j]) == todos
    ensures todos == []
  {
    ReadGives(ShowAll(todos)[i..j]);
  }

  lemma PlainIsFaithful()
    ensures Faithful(PlainCodec())
  {
    var c := PlainCodec();
    forall todos ensures c.read(c.show(todos)) == todos {
      ReadShown(todos);
    }
    forall todos, i, j | 0 <= i <= j <= |c.show(todos)| && j - i < |c.show(todos)|
      ensures c.read(c.show(todos)[i..j]) == todos ==> todos == []
    {
      if c.read(c.show(todos)[i..j]) == todos { ReadsWhole(todos, i, j); }
    }
    assert '<' !in c.seedHeading && '<' !in c.replayHeading;
  }

  /** Such printers exist, and with this one a checklist is lost: one whose only item speaks of the marker itself
      does not come back from behind any digest. */
  lemma MarkerItemIsLost(before: string)
    ensures var c, todos := PlainCodec(), [Todo(OPEN, "", Pending)];
            Faithful(c) && Carried(c, before + Carryover(c, todos)) != Some(todos)
  {
    var c, todos := PlainCodec(), [Todo(OPEN, "", Pending)];
    var shown, width := ShowAll(todos), |Unary(|OPEN|)|;
    PlainIsFaithful();
    assert todos[1..] == [];
    assert shown == ("1" + Unary(|OPEN|)) + OPEN + (Field("") + "p" + "0");
    assert Occurs(shown, OPEN, 1 + width);
    CarryoverRoundTrip(c, before, todos);
  }

  /** The digest of a fold, read alone, states the checklist that was carried into it. */
  ghost predicate DigestKeeps(c: Codec, digest: string, todos: seq<Todo>) {
    if todos != [] then Clean(c.show(todos))
    else Carried(c, digest).None? || Carried(c, digest).value == []
  }

  /** The memory message alone: what the next turn finds in the digest, against what was carried. */
  lemma DigestStates(c: Codec, digest: string, todos: seq<Todo>)
    requires Faithful(c) && digest != ""
    ensures Extract(c, Headed(c.replayHeading, Some(WithTodos(c, digest, todos)))) == todos
            <==> DigestKeeps(c, digest, todos)
  {
    var memory := WithTodos(c, digest, todos);
    var msgs := Headed(c.replayHeading, Some(memory));
    assert msgs == [UserMsg(c.replayHeading + memory)];
    FoundOne(c, msgs[0]);
    HeadingIsTransparent(c, c.replayHeading, memory);
    if todos != [] {
      assert memory == (digest + "\n\n") + Carryover(c, todos);
      CarryoverRoundTrip(c, digest + "\n\n", todos);
    }
  }

  lemma SameMemoryStated(c: Codec, memory: Option<string>)
    requires Faithful(c)
    ensures Found(c, Headed(c.seedHeading, memory)) == Found(c, Headed(c.replayHeading, memory))
  {
    if memory.Some? && memory.value != "" {
      HeadingIsTransparent(c, c.seedHeading, memory.value);
      HeadingIsTransparent(c, c.replayHeading, memory.value);
      FoundOne(c, UserMsg(c.seedHeading + memory.value));
      FoundOne(c, UserMsg(c.replayHeading + memory.value));
    }
  }

  lemma ToMsgsSplit(records: seq<Record>, cut: nat)
    requires cut <= |records|
    ensures ToMsgs(records) == ToMsgs(records[..cut]) + ToMsgs(records[cut..])
  {
  }

  /** The checklist survives a fold: for every later continuation of the conversation, a turn after the fold
      extracts the checklist a turn without it would have, provided the digest keeps what was carried into it;
      and where the messages after the fold state no checklist of their own, that proviso is exact. */
  lemma FoldKeepsChecklist(c: Codec, steps: seq<Step>, trigger: nat, digest: string, later: seq<Msg>)
    requires Faithful(c) && CutPoint(Run(c, steps).session, trigger) > 0 && digest != ""
    ensures var s := Run(c, steps).session;
            var cut := CutPoint(s, trigger);
            var kept := ToMsgs(Tail(s.records, s.covered)[cut..]) + later;
            var before, after := Replay(c, s) + later, Replay(c, Maintain(c, s, trigger, digest)) + later;
            && (DigestKeeps(c, digest, Extract(c, Seeded(c, s, cut))) ==> Extract(c, after) == Extract(c, before))
            && (Found(c, kept).None? && Extract(c, after) == Extract(c, before) ==>
                  DigestKeeps(c, digest, Extract(c, Seeded(c, s, cut))))
            && (Found(c, kept).Some? ==> Extract(c, after) == Extract(c, before))
  {
    var s := Run(c, steps).session;
    var cut := CutPoint(s, trigger);
    FoldAdvances(c, steps, trigger, digest);
    BeforeFold(c, s, cut, later);
    AfterFold(c, Maintain(c, s, trigger, digest), later);
    DigestStates(c, digest, Extract(c, Seeded(c, s, cut)));
  }

  /** Before the fold, a turn finds the checklist of the kept part, or else the one the seed states. */
  lemma BeforeFold(c: Codec, s: Session, cut: nat, later: seq<Msg>)
    requires Faithful(c) && cut <= |Tail(s.records, s.covered)|
    ensures var kept := ToMsgs(Tail(s.records, s.covered)[cut..]) + later;
            Extract(c, Replay(c, s) + later)
            == if Found(c, kept).Some? then Found(c, kept).value else Extract(c, Seeded(c, s, cut))
  {
    var tail := Tail(s.records, s.covered);
    var gone := ToMsgs(tail[..cut]);
    var kept := ToMsgs(tail[cut..]) + later;
    ToMsgsSplit(tail, cut);
    assert Replay(c, s) + later == (Headed(c.replayHeading, s.memory) + gone) + kept;
    FoundConcat(c, Headed(c.replayHeading, s.memory) + gone, kept);
    FoundConcat(c, Headed(c.replayHeading, s.memory), gone);
    FoundConcat(c, Headed(c.seedHeading, s.memory), gone);
    SameMemoryStated(c, s.memory);
  }

  /** After it, the kept part's, or else the one the digest states. */
  lemma AfterFold(c: Codec, t: Session, later: seq<Msg>)
    ensures var kept := ToMsgs(Tail(t.records, t.covered)) + later;
            Extract(c, Replay(c, t) + later)
            == if Found(c, kept).Some? then Found(c, kept).value else Extract(c, Headed(c.replayHeading, t.memory))
  {
    var kept := ToMsgs(Tail(t.records, t.covered)) + later;
    assert Replay(c, t) + later == Headed(c.replayHeading, t.memory) + kept;
    FoundConcat(c, Headed(c.replayHeading, t.memory), kept);
  }

  // ---------------------------------------------------------------- what the scan finds

  /** The first checklist call among the calls, in the order the message makes them. */
  ghost predicate CallsState(calls: seq<Call>, todos: seq<Todo>) {
    exists i :: 0 <= i < |calls| && calls[i].name == WRITE_TODOS && calls[i].todos == todos
                && forall j :: 0 <= j < i ==> calls[j].name != WRITE_TODOS
  }

  /** The last opener of a text is at `i`, and the first closer behind it at `j`. */
  ghost predicate MarkedAt(text: string, i: int, j: int) {
    && Occurs(text, OPEN, i) && (forall k | i < k :: !Occurs(text, OPEN, k))
    && i + |OPEN| <= j && Occurs(text, CLOSE, j) && (forall k | i < k < j :: !Occurs(text, CLOSE, k))
  }

  ghost predicate TextStates(c: Codec, text: string, todos: seq<Todo>) {
    exists i, j :: MarkedAt(text, i, j) && c.read(text[i + |OPEN|..j]) == todos
  }

  /** A member's text states what stands between its markers; an assistant's message what its first checklist
      call carries. */
  ghost predicate States(c: Codec, m: Msg, todos: seq<Todo>) {
    || (m.UserMsg? && TextStates(c, m.text, todos))
    || (m.AssistantMsg? && CallsState(m.calls, todos))
  }

  ghost predicate Silent(m: Msg) {
    match m
    case UserMsg(text) => forall i, j :: !MarkedAt(text, i, j)
    case AssistantMsg(calls) => forall i :: 0 <= i < |calls| ==> calls[i].name != WRITE_TODOS
    case ToolMsg => true
  }

  ghost predicate SilentFrom(msgs: seq<Msg>, from: int) {
    forall i :: 0 <= from <= i < |msgs| ==> Silent(msgs[i])
  }

  lemma {:induction false} FirstTodosFinds(calls: seq<Call>)
    ensures FirstTodos(calls).None? <==> forall i :: 0 <= i < |calls| ==> calls[i].name != WRITE_TODOS
    ensures forall todos | CallsState(calls, todos) :: FirstTodos(calls) == Some(todos)
  {
    if calls != [] && calls[0].name != WRITE_TODOS {
      var rest := calls[1..];
      FirstTodosFinds(rest);
      assert forall i :: 0 < i < |calls| ==> calls[i] == rest[i - 1];
      forall todos | CallsState(calls, todos) ensures FirstTodos(calls) == Some(todos) {
        var i :| 0 <= i < |calls| && calls[i].name == WRITE_TODOS && calls[i].todos == todos
                 && forall j :: 0 <= j < i ==> calls[j].name != WRITE_TODOS;
        assert rest[i - 1].name == WRITE_TODOS && forall j :: 0 <= j < i - 1 ==> rest[j].name != WRITE_TODOS;
        assert CallsState(rest, todos);
      }
    }
  }

  lemma OpenerIsNoCloser(text: string, i: int)
    requires Occurs(text, OPEN, i)
    ensures !Occurs(text, CLOSE, i)
  {
    assert text[i + 1] == OPEN[1] != CLOSE[1];
  }

  lemma OpenerFound(text: string, i: int)
    requires Occurs(text, OPEN, i) && forall k | i < k :: !Occurs(text, OPEN, k)
    ensures LastIndexOf(text, OPEN) == i
  {
    LastIndexSpec(text, OPEN);
  }

  lemma CloserFound(text: string, i: nat, j: int)
    requires i < j && !Occurs(text, CLOSE, i) && Occurs(text, CLOSE, j) && forall k | i < k < j :: !Occurs(text, CLOSE, k)
    ensures IndexOf(text, CLOSE, i) == j
  {
    IndexSpec(text, CLOSE, i);
  }

  lemma MarkersFound(text: string, i: int, j: int)
    requires MarkedAt(text, i, j)
    ensures Between(text, OPEN, CLOSE) == Some(text[i + |OPEN|..j])
  {
    OpenerIsNoCloser(text, i);
    OpenerFound(text, i);
    CloserFound(text, i, j);
  }

  lemma FoundMarkers(text: string)
    requires Between(text, OPEN, CLOSE).Some?
    ensures MarkedAt(text, LastIndexOf(text, OPEN), IndexOf(text, CLOSE, LastIndexOf(text, OPEN)))
  {
    MarkersAre();
    LastIndexSpec(text, OPEN);
    var i := LastIndexOf(text, OPEN);
    IndexSpec(text, CLOSE, i);
    var j := IndexOf(text, CLOSE, i);
    OpenerIsNoCloser(text, i);
    if i < j < i + |OPEN| { OccursChar(text, OPEN, i, j); }
  }

  lemma StatedFinds(c: Codec, m: Msg)
    ensures Stated(c, m).None? <==> Silent(m)
    ensures forall todos | States(c, m, todos) :: Stated(c, m) == Some(todos)
  {
    if m.AssistantMsg? {
      FirstTodosFinds(m.calls);
    } else if m.UserMsg? {
      if Between(m.text, OPEN, CLOSE).Some? { FoundMarkers(m.text); }
      forall i, j | MarkedAt(m.text, i, j) ensures Carried(c, m.text) == Some(c.read(m.text[i + |OPEN|..j])) {
        MarkersFound(m.text, i, j);
      }
    }
  }

  /** The latest message that states a checklist decides, be it an assistant's checklist call or a carryover
      in a member's text. */
  lemma {:induction false} LatestStatementWins(c: Codec, msgs: seq<Msg>, k: nat, todos: seq<Todo>)
    requires k < |msgs| && States(c, msgs[k], todos) && SilentFrom(msgs, k + 1)
    ensures Extract(c, msgs) == todos && Found(c, msgs).Some?
  {
    var n := |msgs| - 1;
    StatedFinds(c, msgs[n]);
    if k < n {
      assert msgs[..n][k] == msgs[k] && SilentFrom(msgs[..n], k + 1);
      LatestStatementWins(c, msgs[..n], k, todos);
    }
  }

  /** Where no message states one, the checklist starts empty. */
  lemma {:induction false} NothingStatedIsEmpty(c: Codec, msgs: seq<Msg>)
    requires SilentFrom(msgs, 0)
    ensures Extract(c, msgs) == [] && Found(c, msgs).None?
  {
    if msgs != [] {
      StatedFinds(c, msgs[|msgs| - 1]);
      NothingStatedIsEmpty(c, msgs[..|msgs| - 1]);
    }
  }

  /** In particular the first checklist call of the latest assistant message that makes one. */
  lemma LatestCallWins(c: Codec, msgs: seq<Msg>, k: nat, i: nat)
    requires k < |msgs| && msgs[k].AssistantMsg? && i < |msgs[k].calls| && msgs[k].calls[i].name == WRITE_TODOS
    requires forall j :: 0 <= j < i ==> msgs[k].calls[j].name != WRITE_TODOS
    requires SilentFrom(msgs, k + 1)
    ensures Extract(c, msgs) == msgs[k].calls[i].todos
  {
    LatestStatementWins(c, msgs, k, msgs[k].calls[i].todos);
  }

  /** And a checklist carried behind any text, exactly when its own text holds no marker. */
  lemma LatestCarryoverWins(c: Codec, msgs: seq<Msg>, k: nat, before: string, todos: seq<Todo>)
    requires Faithful(c) && todos != []
    requires k < |msgs| && msgs[k] == UserMsg(before + OPEN + c.show(todos) + CLOSE) && SilentFrom(msgs, k + 1)
    ensures Extract(c, msgs) == todos <==> Clean(c.show(todos))
  {
    var m := msgs[k];
    assert m.text == before + Carryover(c, todos);
    CarryoverRoundTrip(c, before, todos);
    assert m.text == Wrapped(before, OPEN, c.show(todos), CLOSE);
    MarkersAre();
    BetweenWrapped(before, OPEN, c.show(todos), CLOSE);
    FoundMarkers(m.text);
    var carried := Carried(c, m.text).value;
    assert States(c, m, carried);
    LatestStatementWins(c, msgs, k, carried);
  }

  /** A record that makes a checklist call states its first one; every other message of the folded span after
      it, and every message replayed or said after the fold, states none. */
  ghost predicate LastWord(tail: seq<Record>, k: nat, later: seq<Msg>, todos: seq<Todo>) {
    && k < |tail| && tail[k].role == Assistant && CallsState(tail[k].calls, todos)
    && SilentFrom(ToMsgs(tail) + later, k + 1)
  }

  lemma RecordStates(c: Codec, tail: seq<Record>, k: nat, cut: nat, later: seq<Msg>, todos: seq<Todo>)
    requires LastWord(tail, k, later, todos) && k < cut <= |tail|
    ensures forall memory ::
              var seeded := Headed(c.seedHeading, memory) + ToMsgs(tail[..cut]);
              Extract(c, seeded) == todos
    ensures Found(c, ToMsgs(tail[cut..]) + later).None?
  {
    var all := ToMsgs(tail) + later;
    var kept := ToMsgs(tail[cut..]) + later;
    assert forall i :: 0 <= i < |kept| ==> kept[i] == all[cut + i];
    NothingStatedIsEmpty(c, kept);
    forall memory ensures Extract(c, Headed(c.seedHeading, memory) + ToMsgs(tail[..cut])) == todos {
      var head := Headed(c.seedHeading, memory);
      var seeded := head + ToMsgs(tail[..cut]);
      assert forall i :: 0 <= i < cut ==> seeded[|head| + i] == all[i];
      assert seeded[|head| + k] == AssistantMsg(tail[k].calls);
      assert forall i :: |head| + k + 1 <= i < |seeded| ==> seeded[i] == all[i - |head|];
      LatestStatementWins(c, seeded, |head| + k, todos);
    }
  }

  /** A checklist that is folded away comes back: when the span a fold moves into the digest holds the latest
      checklist call, the memory is the digest with that checklist behind it, and every later turn that says
      nothing else finds that checklist again, exactly when its text holds no marker. */
  lemma FoldedChecklistComesBack(c: Codec, steps: seq<Step>, trigger: nat, digest: string, k: nat, later: seq<Msg>,
                                 todos: seq<Todo>)
    requires Faithful(c) && CutPoint(Run(c, steps).session, trigger) > 0 && digest != "" && todos != []
    requires k < CutPoint(Run(c, steps).session, trigger)
    requires LastWord(Tail(Run(c, steps).session.records, Run(c, steps).session.covered), k, later, todos)
    ensures var t := Maintain(c, Run(c, steps).session, trigger, digest);
            && t.memory == Some(digest + "\n\n" + OPEN + c.show(todos) + CLOSE)
            && (Extract(c, Replay(c, t) + later) == todos <==> Clean(c.show(todos)))
  {
    var s := Run(c, steps).session;
    var tail, cut, t := Tail(s.records, s.covered), CutPoint(s, trigger), Maintain(c, s, trigger, digest);
    RecordStates(c, tail, k, cut, later, todos);
    assert Extract(c, Seeded(c, s, cut)) == todos;
    FoldAdvances(c, steps, trigger, digest);
    MemoryComesBack(c, t, digest, later, todos);
  }

  lemma MemoryComesBack(c: Codec, t: Session, digest: string, later: seq<Msg>, todos: seq<Todo>)
    requires Faithful(c) && digest != "" && todos != [] && t.memory == Some(WithTodos(c, digest, todos))
    requires Found(c, ToMsgs(Tail(t.records, t.covered)) + later).None?
    ensures t.memory == Some(digest + "\n\n" + OPEN + c.show(todos) + CLOSE)
    ensures Extract(c, Replay(c, t) + later) == todos <==> Clean(c.show(todos))
  {
    AfterFold(c, t, later);
    DigestStates(c, digest, todos);
    assert digest + "\n\n" + Carryover(c, todos) == digest + "\n\n" + OPEN + c.show(todos) + CLOSE;
  }
}
