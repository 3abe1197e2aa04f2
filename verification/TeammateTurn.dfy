/** One request-less turn of a teammate: its opening drain, the drains at the boundaries of its loop, and how it
    settles.  Each drain may find the log unreadable, and authentication and the loop may throw. */
module TeammateTurn {
  import opened Mailbox

  /** A boundary of the turn's loop: what arrived since the last one, and whether the log can be read now. */
  datatype Boundary = Boundary(arrivals: seq<Envelope>, readable: bool)

  /** How a turn settles: resolved, with its opening prompt (none when nothing ran to its end) and what it absorbed
      at its boundaries; or rejected. */
  datatype Settled = Resolved(prompt: Option<seq<string>>, absorbed: seq<string>) | Rejected

  function AppendEach(log: Log, x: Address, es: seq<Envelope>): Log {
    if es == [] then log else Append(AppendEach(log, x, es[..|es| - 1]), x, es[|es| - 1])
  }

  /** What the boundaries do to the log and hand to the turn; an unreadable one aborts it. */
  function AtBoundaries(log: Log, x: Address, bs: seq<Boundary>): (Log, seq<string>)
    decreases |bs|
  {
    if bs == [] then (log, [])
    else
      var arrived := AppendEach(log, x, bs[0].arrivals);
      if !bs[0].readable then (arrived, [])
      else
        var rest := AtBoundaries(Mailbox.Settle(arrived, x, Delivered), x, bs[1..]);
        (rest.0, RenderAll(QueuedFor(arrived, x)) + rest.1)
  }

  method Arrive(mailbox: AgentMailbox, x: Address, es: seq<Envelope>)
    modifies mailbox.store
    ensures mailbox.store.View() == AppendEach(old(mailbox.store.View()), x, es)
  {
    for i := 0 to |es|
      invariant mailbox.store.View() == AppendEach(old(mailbox.store.View()), x, es[..i])
    {
      assert es[..i + 1][..i] == es[..i];
      var _ := mailbox.Enqueue(x, es[i], true);
    }
    assert es[..|es|] == es;
  }

  /** The loop's drains, mid-turn. */
  method Boundaries(mailbox: AgentMailbox, x: Address, bs: seq<Boundary>) returns (absorbed: seq<string>)
    modifies mailbox.store
    ensures (mailbox.store.View(), absorbed) == AtBoundaries(old(mailbox.store.View()), x, bs)
  {
    absorbed := [];
    ghost var all := AtBoundaries(mailbox.store.View(), x, bs);
    assert bs[0..] == bs && forall s: seq<string> :: absorbed + s == s;
    for i := 0 to |bs|
      invariant var rest := AtBoundaries(mailbox.store.View(), x, bs[i..]); all == (rest.0, absorbed + rest.1)
    {
      assert bs[i..][1..] == bs[i + 1..] && bs[i..][0] == bs[i];
      ghost var so := absorbed;
      Arrive(mailbox, x, bs[i].arrivals);
      var drained := mailbox.Drain(x, bs[i].readable);
      if drained.Unknown? {
        assert so + [] == so;
        return;
      }
      absorbed := absorbed + drained.value;
      ghost var rest := AtBoundaries(mailbox.store.View(), x, bs[i + 1..]);
      assert so + (drained.value + rest.1) == absorbed + rest.1;
    }
    assert absorbed + [] == absorbed;
  }

  /** The turn inside its try: authentication and the loop may throw. */
  method TurnBody(mailbox: AgentMailbox, x: Address, authenticates: bool, readable: bool, bs: seq<Boundary>, loopThrows: bool)
    returns (end: Settled)
    modifies mailbox.store
    ensures mailbox.store.View() == AfterTurn(old(mailbox.store.View()), x, authenticates, readable, bs)
    ensures end == if !authenticates then Rejected
                   else if !readable || QueuedFor(old(mailbox.store.View()), x) == [] then Resolved(None, [])
                   else if loopThrows then Rejected
                   else Resolved(Some(RenderAll(QueuedFor(old(mailbox.store.View()), x))),
                                 AtBoundaries(Mailbox.Settle(old(mailbox.store.View()), x, Delivered), x, bs).1)
  {
    if !authenticates { return Rejected; }
    var drained := mailbox.Drain(x, readable);
    if drained.Unknown? { return Resolved(None, []); }
    var incoming := drained.value;
    if |incoming| == 0 { return Resolved(None, []); }
    var absorbed := Boundaries(mailbox, x, bs);
    return if loopThrows then Rejected else Resolved(Some(incoming), absorbed);
  }

  /** What a turn leaves of the log: untouched unless it authenticated and could read it. */
  function AfterTurn(log: Log, x: Address, authenticates: bool, readable: bool, bs: seq<Boundary>): Log {
    if !authenticates || !readable then log
    else if QueuedFor(log, x) == [] then Mailbox.Settle(log, x, Delivered)
    else AtBoundaries(Mailbox.Settle(log, x, Delivered), x, bs).0
  }

  /** One request-less turn.  Whatever throws inside it, it resolves; it consumes the log exactly when it both
      authenticated and could read; and it reports a prompt only when a turn actually ran to its end. */
  method RunTeammateTurn(mailbox: AgentMailbox, x: Address, authenticates: bool, readable: bool, bs: seq<Boundary>, loopThrows: bool)
    returns (end: Settled)
    modifies mailbox.store
    ensures end.Resolved?
    ensures mailbox.store.View() == AfterTurn(old(mailbox.store.View()), x, authenticates, readable, bs)
    ensures end.prompt.Some? <==> authenticates && readable && !loopThrows && QueuedFor(old(mailbox.store.View()), x) != []
    ensures end.prompt.Some? ==>
              && end.prompt.value == RenderAll(QueuedFor(old(mailbox.store.View()), x))
              && TellRows(end.prompt.value, QueuedFor(old(mailbox.store.View()), x))
              && end.absorbed == AtBoundaries(Mailbox.Settle(old(mailbox.store.View()), x, Delivered), x, bs).1
  {
    RenderAllTells(QueuedFor(mailbox.store.View(), x));
    end := TurnBody(mailbox, x, authenticates, readable, bs, loopThrows);
    if end.Rejected? { end := Resolved(None, []); }
  }

  function Rendered(es: seq<Envelope>): (r: seq<string>)
    ensures |r| == |es|
  {
    seq(|es|, i requires 0 <= i < |es| => Render(es[i]))
  }

  function AllRendered(bs: seq<Boundary>): seq<string> {
    if bs == [] then [] else Rendered(bs[0].arrivals) + AllRendered(bs[1..])
  }

  lemma {:induction false} QueueAfterAppends(log: Log, x: Address, es: seq<Envelope>)
    ensures RenderAll(QueuedFor(AppendEach(log, x, es), x)) == RenderAll(QueuedFor(log, x)) + Rendered(es)
  {
    if es != [] {
      var n := |es| - 1;
      var before := AppendEach(log, x, es[..n]);
      QueueAfterAppends(log, x, es[..n]);
      AppendSelects(before, x, es[n], x, Queued);
      assert ToEnvelope(Append(before, x, es[n]).rows[|before.rows|]) == es[n];
      assert RenderAll(QueuedFor(AppendEach(log, x, es), x)) == RenderAll(QueuedFor(before, x)) + [Render(es[n])];
      assert Rendered(es) == Rendered(es[..n]) + [Render(es[n])];
    } else {
      assert RenderAll(QueuedFor(log, x)) + [] == RenderAll(QueuedFor(log, x));
    }
  }

  function Arrivals(bs: seq<Boundary>): seq<Envelope> {
    if bs == [] then [] else bs[0].arrivals + Arrivals(bs[1..])
  }

  lemma {:induction false} AllRenderedTells(bs: seq<Boundary>)
    ensures AllRendered(bs) == Rendered(Arrivals(bs))
  {
    if bs != [] {
      AllRenderedTells(bs[1..]);
      assert Rendered(bs[0].arrivals + Arrivals(bs[1..])) == Rendered(bs[0].arrivals) + Rendered(Arrivals(bs[1..]));
    }
  }

  /** The first `n` boundaries can read the log, and the next one, if there is one, cannot. */
  ghost predicate ReadableUpTo(bs: seq<Boundary>, n: int) {
    0 <= n <= |bs| && (forall i :: 0 <= i < n ==> bs[i].readable) && (n < |bs| ==> !bs[n].readable)
  }

  /** As long as the log can be read, a running turn misses nothing: what it absorbs at its boundaries is one text
      for each message that arrived, in order, telling what it says, and nothing is left queued behind it.  The
      first boundary that cannot read ends the turn, and leaves queued just what arrived there. */
  lemma BoundariesAbsorbWhatArrives(log: Log, x: Address, bs: seq<Boundary>, n: nat)
    requires QueuedFor(log, x) == [] && ReadableUpTo(bs, n)
    ensures var (after, absorbed) := AtBoundaries(log, x, bs);
            && Envelopes(QueuedFor(after, x)) == (if n < |bs| then bs[n].arrivals else [])
            && |absorbed| == |Arrivals(bs[..n])|
            && forall k :: 0 <= k < |absorbed| ==>
                 var e := Arrivals(bs[..n])[k];
                 Tells(absorbed[k], e.from, e.sender, e.content)
  {
    BoundariesRender(log, x, bs, n);
    AllRenderedTells(bs[..n]);
    var es := Arrivals(bs[..n]);
    forall k | 0 <= k < |es| ensures Tells(Rendered(es)[k], es[k].from, es[k].sender, es[k].content) {
      RenderTells(es[k]);
    }
  }

  lemma {:induction false} EnvelopesAfterAppends(log: Log, x: Address, es: seq<Envelope>)
    ensures Envelopes(QueuedFor(AppendEach(log, x, es), x)) == Envelopes(QueuedFor(log, x)) + es
  {
    if es != [] {
      var n := |es| - 1;
      var before := AppendEach(log, x, es[..n]);
      EnvelopesAfterAppends(log, x, es[..n]);
      AppendSelects(before, x, es[n], x, Queued);
      assert Envelopes(QueuedFor(AppendEach(log, x, es), x)) == Envelopes(QueuedFor(before, x)) + [es[n]];
      assert es == es[..n] + [es[n]];
    }
  }

  lemma {:induction false} BoundariesRender(log: Log, x: Address, bs: seq<Boundary>, n: nat)
    requires QueuedFor(log, x) == [] && ReadableUpTo(bs, n)
    ensures AtBoundaries(log, x, bs).1 == AllRendered(bs[..n])
    ensures Envelopes(QueuedFor(AtBoundaries(log, x, bs).0, x)) == if n < |bs| then bs[n].arrivals else []
    decreases |bs|
  {
    if bs != [] {
      var arrived := AppendEach(log, x, bs[0].arrivals);
      if n == 0 {
        EnvelopesAfterAppends(log, x, bs[0].arrivals);
        assert Envelopes(QueuedFor(log, x)) == [];
      } else {
        QueueAfterAppends(log, x, bs[0].arrivals);
        assert RenderAll(QueuedFor(log, x)) == [];
        assert RenderAll(QueuedFor(arrived, x)) == Rendered(bs[0].arrivals);
        NoneQueuedAfterSettle(arrived, x, Delivered);
        BoundariesRender(Mailbox.Settle(arrived, x, Delivered), x, bs[1..], n - 1);
        assert bs[..n][1..] == bs[1..][..n - 1] && bs[..n][0] == bs[0];
      }
    }
  }
}
