/** The durable steering log: an ordered log of addressed messages whose rows are appended as queued and
    later ENDED, either delivered (a turn claimed them) or discarded (a stop took them back).  Every claim
    takes everything queued for one address at once.

    An address stands for the (tenant, session) pair the store scopes each row by; it is only ever compared. */
module Mailbox {

  type Address = nat

  datatype Option<+T> = None | Some(value: T)

  datatype Source = FromUser | FromAgent | FromEvent

  datatype Disposition = Queued | Delivered | Discarded

  datatype Entry = Entry(
    address: Address, seqNo: nat, from: Source, sender: Option<string>, content: string,
    disposition: Disposition)

  datatype Envelope = Envelope(from: Source, sender: Option<string>, content: string)

  /** The three-valued read: an unreadable log is not an empty one. */
  datatype ReadResult<+T> = Read(value: T) | Unknown

  datatype Log = Log(rows: seq<Entry>, lastSeq: nat)

  const EMPTY_LOG := Log([], 0)

  // ---------------------------------------------------------------- what the store does, on values

  function ToEnvelope(e: Entry): Envelope {
    Envelope(e.from, e.sender, e.content)
  }

  function Envelopes(entries: seq<Entry>): (r: seq<Envelope>)
    ensures |r| == |entries|
  {
    seq(|entries|, i requires 0 <= i < |entries| => ToEnvelope(entries[i]))
  }

  /** The text a turn is shown for one message: a member speaks verbatim, everyone else is attributed. */
  function Render(e: Envelope): string {
    match e.from
    case FromUser => e.content
    case FromAgent =>
      "[Message from teammate " + (if e.sender.Some? then e.sender.value else "another agent") + "]\n" + e.content
    case FromEvent =>
      // an absent or empty sender leaves the attribution bare
      "[Everdict event" + (if e.sender.Some? && e.sender.value != "" then " — " + e.sender.value else "") + "]\n" + e.content
  }

  function RenderAll(entries: seq<Entry>): (r: seq<string>)
    ensures |r| == |entries|
  {
    seq(|entries|, i requires 0 <= i < |entries| => Render(ToEnvelope(entries[i])))
  }

  ghost predicate Within(part: string, text: string) {
    exists i, j :: 0 <= i <= j <= |text| && text[i..j] == part
  }

  /** What a text owes its reader: a member's words and no others; anybody else's words as its last lines, behind
      a line that tells a teammate from an event and names the sender there is. */
  ghost predicate Tells(text: string, from: Source, sender: Option<string>, content: string) {
    if from.FromUser? then text == content
    else exists line: string ::
           && text == line + "\n" + content
           && (if from.FromAgent? then "[Message from teammate" else "[Everdict event") <= line
           && (sender.Some? ==> Within(sender.value, line))
           && (from.FromAgent? && sender.None? ==> Within("another agent", line))
  }

  /** One text for each row, in order. */
  ghost predicate TellRows(texts: seq<string>, rows: seq<Entry>) {
    |texts| == |rows| && forall k :: 0 <= k < |rows| ==> Tells(texts[k], rows[k].from, rows[k].sender, rows[k].content)
  }

  lemma HeadNames(head: string, name: string, tail: string)
    ensures Within(name, head + name + tail)
  {
    var line := head + name + tail;
    assert line[|head|..|head| + |name|] == name;
  }

  lemma AgentTells(line: string, name: string, sender: Option<string>, content: string)
    requires line == "[Message from teammate " + name + "]"
    requires name == if sender.Some? then sender.value else "another agent"
    ensures Tells(line + "\n" + content, FromAgent, sender, content)
  {
    HeadNames("[Message from teammate ", name, "]");
    assert "[Message from teammate" <= line;
  }

  lemma EventTells(line: string, sender: Option<string>, content: string)
    requires "[Everdict event" <= line && (sender.Some? ==> Within(sender.value, line))
    ensures Tells(line + "\n" + content, FromEvent, sender, content)
  {
  }

  lemma EventLine(sender: Option<string>, line: string)
    requires line == "[Everdict event" + (if sender.Some? && sender.value != "" then " — " + sender.value else "") + "]"
    ensures "[Everdict event" <= line && (sender.Some? ==> Within(sender.value, line))
  {
    if sender.Some? && sender.value != "" {
      HeadNames("[Everdict event — ", sender.value, "]");
      assert line == "[Everdict event — " + sender.value + "]";
    } else if sender.Some? {
      assert line[0..0] == sender.value;
    }
  }

  lemma RenderTells(e: Envelope)
    ensures Tells(Render(e), e.from, e.sender, e.content)
  {
    if e.from.FromAgent? {
      var name := if e.sender.Some? then e.sender.value else "another agent";
      AgentTells("[Message from teammate " + name + "]", name, e.sender, e.content);
      assert Render(e) == "[Message from teammate " + name + "]" + "\n" + e.content;
    } else if e.from.FromEvent? {
      var line := "[Everdict event" + (if e.sender.Some? && e.sender.value != "" then " — " + e.sender.value else "") + "]";
      EventLine(e.sender, line);
      EventTells(line, e.sender, e.content);
      assert Render(e) == line + "\n" + e.content;
    }
  }

  /** What a drain hands over tells what its rows say. */
  lemma RenderAllTells(rows: seq<Entry>)
    ensures TellRows(RenderAll(rows), rows)
  {
    forall k | 0 <= k < |rows| ensures Tells(RenderAll(rows)[k], rows[k].from, rows[k].sender, rows[k].content) {
      RenderTells(ToEnvelope(rows[k]));
    }
  }

  function Append(log: Log, a: Address, e: Envelope): Log {
    Log(log.rows + [Entry(a, log.lastSeq + 1, e.from, e.sender, e.content, Queued)], log.lastSeq + 1)
  }

  predicate IsQueued(e: Entry, a: Address) {
    e.address == a && e.disposition == Queued
  }

  /** The rows of one address in a given disposition, in log order. */
  function Select(rows: seq<Entry>, a: Address, d: Disposition): seq<Entry> {
    if rows == [] then []
    else
      var rest := Select(rows[..|rows| - 1], a, d);
      var last := rows[|rows| - 1];
      if last.address == a && last.disposition == d then rest + [last] else rest
  }

  function QueuedFor(log: Log, a: Address): seq<Entry> {
    Select(log.rows, a, Queued)
  }

  function EndRow(e: Entry, a: Address, d: Disposition): Entry {
    if IsQueued(e, a) then e.(disposition := d) else e
  }

  function EndRows(rows: seq<Entry>, a: Address, d: Disposition): (r: seq<Entry>)
    ensures |r| == |rows|
    ensures forall i :: 0 <= i < |rows| ==> r[i] == EndRow(rows[i], a, d)
  {
    seq(|rows|, i requires 0 <= i < |rows| => EndRow(rows[i], a, d))
  }

  function Settle(log: Log, a: Address, d: Disposition): Log {
    log.(rows := EndRows(log.rows, a, d))
  }

  function SeqNos(entries: seq<Entry>): (r: seq<nat>)
    ensures |r| == |entries|
    ensures forall i :: 0 <= i < |r| ==> r[i] == entries[i].seqNo
  {
    seq(|entries|, i requires 0 <= i < |entries| => entries[i].seqNo)
  }

  // ---------------------------------------------------------------- the store and the mailbox over it

  class InboxStore {
    var inbox: seq<Entry>
    var inboxSeq: nat

    ghost function View(): Log reads this { Log(inbox, inboxSeq) }

    constructor ()
      ensures View() == EMPTY_LOG
    {
      inbox, inboxSeq := [], 0;
    }

    method AppendInbox(a: Address, e: Envelope) returns (stored: Entry)
      modifies this
      ensures View() == Append(old(View()), a, e)
      ensures stored == inbox[|inbox| - 1] && stored.seqNo == inboxSeq
    {
      inboxSeq := inboxSeq + 1;
      stored := Entry(a, inboxSeq, e.from, e.sender, e.content, Queued);
      inbox := inbox + [stored];
    }

    /** One operation with two endings: take everything queued for the address, in log order, and end it. */
    method SettleInbox(a: Address, d: Disposition) returns (taken: seq<Entry>)
      requires d != Queued
      modifies this
      ensures View() == Settle(old(View()), a, d)
      ensures taken == Select(old(inbox), a, Queued)
      ensures Select(inbox, a, Queued) == []
    {
      taken := [];
      var next: seq<Entry> := [];
      ghost var was := inbox;
      for i := 0 to |inbox|
        invariant |next| == i && inbox == was && inboxSeq == old(inboxSeq)
        invariant taken == Select(was[..i], a, Queued)
        invariant forall k :: 0 <= k < i ==> next[k] == EndRow(was[k], a, d)
      {
        assert was[..i + 1][..i] == was[..i];
        if IsQueued(inbox[i], a) {
          taken := taken + [inbox[i]];
        }
        next := next + [EndRow(inbox[i], a, d)];
      }
      assert was[..|was|] == was;
      assert next == EndRows(was, a, d);
      inbox := next;
      NoneQueuedAfterSettle(old(View()), a, d);
    }
  }

  class AgentMailbox {
    const store: InboxStore

    constructor (s: InboxStore)
      ensures store == s
    {
      store := s;
    }

    /** `accepted` is whether the store took the row; a refused append leaves the log alone and yields no
        receipt, so nobody can be told "queued". */
    method Enqueue(a: Address, e: Envelope, accepted: bool) returns (receipt: Option<nat>)
      modifies store
      ensures accepted ==> store.View() == Append(old(store.View()), a, e)
      ensures accepted ==> receipt == Some(store.inboxSeq)
      ensures !accepted ==> receipt == None && store.View() == old(store.View())
    {
      receipt := None;
      if accepted {
        var stored := store.AppendInbox(a, e);
        receipt := Some(stored.seqNo);
      }
    }

    /** Claim and render everything queued; a log that cannot be read answers Unknown and consumes nothing. */
    method Drain(a: Address, readable: bool) returns (r: ReadResult<seq<string>>)
      modifies store
      ensures readable ==> store.View() == Settle(old(store.View()), a, Delivered)
      ensures readable ==> r == Read(RenderAll(QueuedFor(old(store.View()), a)))
      ensures readable ==> TellRows(r.value, QueuedFor(old(store.View()), a))
      ensures !readable ==> r == Unknown && store.View() == old(store.View())
    {
      r := Unknown;
      if readable {
        var taken := store.SettleInbox(a, Delivered);
        RenderAllTells(taken);
        r := Read(RenderAll(taken));
      }
    }

    /** Take whatever is queued WITHOUT delivering it, handing the envelopes back. */
    method Clear(a: Address, readable: bool) returns (r: ReadResult<seq<Envelope>>)
      modifies store
      ensures readable ==> store.View() == Settle(old(store.View()), a, Discarded)
      ensures readable ==> r == Read(Envelopes(QueuedFor(old(store.View()), a)))
      ensures !readable ==> r == Unknown && store.View() == old(store.View())
    {
      r := Unknown;
      if readable {
        var taken := store.SettleInbox(a, Discarded);
        r := Read(Envelopes(taken));
      }
    }

    /** The loop's boundary drain: an unreadable log aborts the turn instead of reading as silence. */
    method DrainInput(a: Address, readable: bool) returns (messages: seq<string>, aborted: bool)
      modifies store
      ensures aborted <==> !readable
      ensures readable ==> messages == RenderAll(QueuedFor(old(store.View()), a))
      ensures readable ==> TellRows(messages, QueuedFor(old(store.View()), a))
      ensures aborted ==> messages == [] && QueuedFor(store.View(), a) == QueuedFor(old(store.View()), a)
    {
      var drained := Drain(a, readable);
      match drained
      case Read(value) => messages, aborted := value, false;
      case Unknown => messages, aborted := [], true;
    }
  }

  // ---------------------------------------------------------------- runs of the log

  datatype Op =
    | AppendOp(a: Address, e: Envelope)
    | ClaimOp(a: Address)
    | DiscardOp(a: Address)
    | UnreadableOp(a: Address)

  function Do(log: Log, op: Op): Log {
    match op
    case AppendOp(a, e) => Append(log, a, e)
    case ClaimOp(a) => Settle(log, a, Delivered)
    case DiscardOp(a) => Settle(log, a, Discarded)
    case UnreadableOp(_) => log
  }

  function RunLog(ops: seq<Op>): Log {
    if ops == [] then EMPTY_LOG else Do(RunLog(ops[..|ops| - 1]), ops[|ops| - 1])
  }

  /** Everything the drains of one address handed to a turn over a run, concatenated in drain order. */
  function Absorbed(ops: seq<Op>, a: Address): seq<nat> {
    if ops == [] then []
    else
      var before := ops[..|ops| - 1];
      var op := ops[|ops| - 1];
      Absorbed(before, a) + (if op == ClaimOp(a) then SeqNos(QueuedFor(RunLog(before), a)) else [])
  }

  ghost predicate Increasing(s: seq<nat>) {
    forall i, j :: 0 <= i < j < |s| ==> s[i] < s[j]
  }

  /** Rows are numbered upwards, and within one address everything ended lies before everything queued. */
  ghost predicate LogInv(log: Log) {
    && (forall i :: 0 <= i < |log.rows| ==> log.rows[i].seqNo <= log.lastSeq)
    && (forall i, j :: 0 <= i < j < |log.rows| ==> log.rows[i].seqNo < log.rows[j].seqNo)
    && EndedFirst(log.rows)
  }

  ghost predicate EndedFirst(rows: seq<Entry>) {
    forall i, j | 0 <= i < j < |rows| && rows[i].address == rows[j].address ::
      rows[i].disposition == Queued ==> rows[j].disposition == Queued
  }

  lemma {:induction false} RunLogInv(ops: seq<Op>)
    ensures LogInv(RunLog(ops))
  {
    if ops != [] {
      RunLogInv(ops[..|ops| - 1]);
    }
  }

  lemma {:induction false} SelectMember(rows: seq<Entry>, a: Address, d: Disposition, k: nat)
    requires k < |Select(rows, a, d)|
    ensures Select(rows, a, d)[k] in rows
    ensures Select(rows, a, d)[k].address == a && Select(rows, a, d)[k].disposition == d
  {
    var n := |rows| - 1;
    if k < |Select(rows[..n], a, d)| {
      SelectMember(rows[..n], a, d, k);
    }
  }

  lemma {:induction false} SelectFinds(rows: seq<Entry>, a: Address, d: Disposition, i: nat)
    requires i < |rows| && rows[i].address == a && rows[i].disposition == d
    ensures rows[i] in Select(rows, a, d)
  {
    if i < |rows| - 1 {
      SelectFinds(rows[..|rows| - 1], a, d, i);
    }
  }

  /** Right after any claim or discard nothing is queued for that address. */
  lemma NoneQueuedAfterSettle(log: Log, a: Address, d: Disposition)
    requires d != Queued
    ensures QueuedFor(Settle(log, a, d), a) == []
  {
    var after := Settle(log, a, d);
    if QueuedFor(after, a) != [] {
      SelectMember(after.rows, a, Queued, 0);
    }
  }

  lemma {:induction false} SelectOther(rows: seq<Entry>, a: Address, b: Address, d: Disposition, e: Disposition)
    requires a != b
    ensures Select(EndRows(rows, a, d), b, e) == Select(rows, b, e)
  {
    if rows != [] {
      var n := |rows| - 1;
      assert EndRows(rows, a, d)[..n] == EndRows(rows[..n], a, d);
      SelectOther(rows[..n], a, b, d, e);
    }
  }

  /** A settle leaves the rows of every other address exactly as they were. */
  lemma SettleIsLocal(log: Log, a: Address, b: Address, d: Disposition, e: Disposition)
    requires a != b
    ensures Select(Settle(log, a, d).rows, b, e) == Select(log.rows, b, e)
  {
    SelectOther(log.rows, a, b, d, e);
  }

  lemma AppendSelects(log: Log, a: Address, env: Envelope, b: Address, d: Disposition)
    ensures Select(Append(log, a, env).rows, b, d)
         == Select(log.rows, b, d) + (if a == b && d == Queued then [Append(log, a, env).rows[|log.rows|]] else [])
  {
    assert Append(log, a, env).rows[..|log.rows|] == log.rows;
  }

  /** Ending the queued rows of an address as delivered puts them right behind those delivered before. */
  lemma {:induction false} ClaimExtendsDelivered(rows: seq<Entry>, a: Address)
    requires EndedFirst(rows)
    ensures SeqNos(Select(EndRows(rows, a, Delivered), a, Delivered))
         == SeqNos(Select(rows, a, Delivered)) + SeqNos(Select(rows, a, Queued))
  {
    if rows != [] {
      var n := |rows| - 1;
      var last := rows[n];
      var ended := EndRows(rows, a, Delivered);
      assert ended[..n] == EndRows(rows[..n], a, Delivered);
      ClaimExtendsDelivered(rows[..n], a);
      if last.address == a && last.disposition == Delivered {
        if Select(rows[..n], a, Queued) != [] {
          SelectMember(rows[..n], a, Queued, 0);
        }
      }
    }
  }

  lemma {:induction false} DiscardKeepsDelivered(rows: seq<Entry>, a: Address)
    ensures Select(EndRows(rows, a, Discarded), a, Delivered) == Select(rows, a, Delivered)
  {
    if rows != [] {
      var n := |rows| - 1;
      assert EndRows(rows, a, Discarded)[..n] == EndRows(rows[..n], a, Discarded);
      DiscardKeepsDelivered(rows[..n], a);
    }
  }

  lemma OpDelivers(log: Log, op: Op, a: Address)
    requires LogInv(log)
    ensures SeqNos(Select(Do(log, op).rows, a, Delivered))
         == SeqNos(Select(log.rows, a, Delivered)) + (if op == ClaimOp(a) then SeqNos(QueuedFor(log, a)) else [])
  {
    match op
    case AppendOp(b, e) => AppendSelects(log, b, e, a, Delivered);
    case ClaimOp(b) =>
      if a == b { ClaimExtendsDelivered(log.rows, a); } else { SettleIsLocal(log, b, a, Delivered, Delivered); }
    case DiscardOp(b) =>
      if a == b { DiscardKeepsDelivered(log.rows, a); } else { SettleIsLocal(log, b, a, Discarded, Delivered); }
    case UnreadableOp(_) =>
  }

  /** What an address's turns absorbed, drain after drain, is exactly the log's delivered rows in log order:
      nothing twice, nothing missing, nothing out of order. */
  lemma {:induction false} AbsorbedIsDelivered(ops: seq<Op>, a: Address)
    ensures Absorbed(ops, a) == SeqNos(Select(RunLog(ops).rows, a, Delivered))
  {
    if ops != [] {
      var before := ops[..|ops| - 1];
      AbsorbedIsDelivered(before, a);
      RunLogInv(before);
      OpDelivers(RunLog(before), ops[|ops| - 1], a);
    }
  }

  lemma {:induction false} SelectIncreasing(rows: seq<Entry>, a: Address, d: Disposition)
    requires forall i, j :: 0 <= i < j < |rows| ==> rows[i].seqNo < rows[j].seqNo
    ensures Increasing(SeqNos(Select(rows, a, d)))
  {
    if rows != [] {
      var n := |rows| - 1;
      SelectIncreasing(rows[..n], a, d);
      forall k | 0 <= k < |Select(rows[..n], a, d)|
        ensures Select(rows[..n], a, d)[k].seqNo < rows[n].seqNo
      {
        SelectMember(rows[..n], a, d, k);
      }
    }
  }

  /** Over every run, what an address absorbed is strictly increasing in seq: in order, and never twice. */
  lemma AbsorbedInOrder(ops: seq<Op>, a: Address)
    ensures Increasing(Absorbed(ops, a))
  {
    AbsorbedIsDelivered(ops, a);
    RunLogInv(ops);
    SelectIncreasing(RunLog(ops).rows, a, Delivered);
  }

  /** Conservation: a message, once appended, is in the log forever with the same content, moves at most
      once out of the queue, and an ended row never changes again. */
  lemma {:induction false} RowsAreForever(ops: seq<Op>, more: seq<Op>, i: nat)
    requires i < |RunLog(ops).rows|
    ensures i < |RunLog(ops + more).rows|
    ensures RunLog(ops + more).rows[i].(disposition := Queued) == RunLog(ops).rows[i].(disposition := Queued)
    ensures RunLog(ops).rows[i].disposition != Queued ==> RunLog(ops + more).rows[i] == RunLog(ops).rows[i]
  {
    if more == [] {
      assert ops + more == ops;
    } else {
      var n := |more| - 1;
      assert (ops + more)[..|ops + more| - 1] == ops + more[..n];
      RowsAreForever(ops, more[..n], i);
    }
  }

  /** At every moment of every run a message is in exactly one place: among its address's queued rows, its
      delivered ones or its discarded ones, as its own row says. */
  lemma ExactlyOnePlace(ops: seq<Op>, i: nat, d: Disposition)
    requires i < |RunLog(ops).rows|
    ensures var row := RunLog(ops).rows[i];
            row in Select(RunLog(ops).rows, row.address, d) <==> row.disposition == d
  {
    var rows := RunLog(ops).rows;
    var row := rows[i];
    if row.disposition == d {
      SelectFinds(rows, row.address, d, i);
    } else if row in Select(rows, row.address, d) {
      var k :| 0 <= k < |Select(rows, row.address, d)| && Select(rows, row.address, d)[k] == row;
      SelectMember(rows, row.address, d, k);
    }
  }

  /** What was sent over a run, in order, and to whom. */
  function Sent(ops: seq<Op>): seq<(Address, Envelope)> {
    if ops == [] then []
    else
      var op := ops[|ops| - 1];
      Sent(ops[..|ops| - 1]) + (if op.AppendOp? then [(op.a, op.e)] else [])
  }

  /** Nothing is ever dropped, invented or altered: the log holds one row for each message sent, in order, numbered
      from 1, with its address, its source, its sender and its words. */
  lemma {:induction false} OneRowPerAppend(ops: seq<Op>)
    ensures |RunLog(ops).rows| == |Sent(ops)| == RunLog(ops).lastSeq
    ensures forall i :: 0 <= i < |Sent(ops)| ==>
              var (a, e) := Sent(ops)[i];
              RunLog(ops).rows[i].(disposition := Queued) == Entry(a, i + 1, e.from, e.sender, e.content, Queued)
  {
    if ops != [] {
      OneRowPerAppend(ops[..|ops| - 1]);
    }
  }
}
