/** Calling tools through a session that may die: concurrently failing calls share one reconnect, a read is
    retried once on the fresh session, and a mutating call never is. */
module McpSession {

  datatype Option<+T> = None | Some(value: T)

  type Client = nat

  /** A tool result, "connection dropped, outcome unknown", or a throw for the caller to turn into an error. */
  datatype Answer = Result | Unknown | Thrown

  /** `Sent` and `Retried` await the server, `Joined` awaits a reconnect. */
  datatype Phase = Sent(client: Client) | Joined(reconnect: nat) | Retried(client: Client) | Over(answer: Answer)

  /** One invocation.  `first` is the client of its first attempt, `sends` how often it was put on the wire. */
  datatype Call = Call(retryable: bool, first: Client, sends: nat, phase: Phase)

  datatype Progress = Closing | Connecting | Fresh(client: Client) | Gone

  /** One reconnect: the call whose failure started it, the client it discards, and how far it is. */
  datatype Reconnect = Reconnect(cause: nat, discards: Client, progress: Progress)

  /** The client slot, with everything that went through it.  Clients are numbered as they are made. */
  datatype State = State(current: Client, made: nat, refresh: Option<nat>, calls: seq<Call>, reconnects: seq<Reconnect>)

  const START := State(0, 1, None, [], [])

  // ---------------------------------------------------------------- the atomic pieces, on values

  function DoInvoke(s: State, retryable: bool): State {
    s.(calls := s.calls + [Call(retryable, s.current, 1, Sent(s.current))])
  }

  function SetPhase(s: State, c: nat, p: Phase): State
    requires c < |s.calls|
  {
    s.(calls := s.calls[c := s.calls[c].(phase := p)])
  }

  /** The first attempt threw: join the reconnect under way, or start one on the current client. */
  function DoFail(s: State, c: nat): State
    requires c < |s.calls|
  {
    if s.refresh.Some? then SetPhase(s, c, Joined(s.refresh.value))
    else
      SetPhase(s, c, Joined(|s.reconnects|)).(
        refresh := Some(|s.reconnects|), reconnects := s.reconnects + [Reconnect(c, s.current, Closing)])
  }

  /** What call `c` awaits at the server ends. */
  function DoReply(s: State, c: nat, ok: bool): State
    requires c < |s.calls|
  {
    match s.calls[c].phase
    case Sent(_) => if ok then SetPhase(s, c, Over(Result)) else DoFail(s, c)
    case Retried(_) => SetPhase(s, c, Over(if ok then Result else Thrown))
    case Joined(_) => s
    case Over(_) => s
  }

  /** The next await of a reconnect ends.  Closing never fails it; connecting settles it and empties the slot. */
  function DoReconnect(s: State, r: nat, ok: bool): State
    requires r < |s.reconnects|
  {
    var rec := s.reconnects[r];
    match rec.progress
    case Closing => s.(reconnects := s.reconnects[r := rec.(progress := Connecting)])
    case Connecting =>
      if ok then
        s.(reconnects := s.reconnects[r := rec.(progress := Fresh(s.made))], current := s.made, made := s.made + 1, refresh := None)
      else s.(reconnects := s.reconnects[r := rec.(progress := Gone)], refresh := None)
    case Fresh(_) => s
    case Gone => s
  }

  /** A call resumes from the reconnect it joined. */
  function DoResume(s: State, c: nat): State
    requires c < |s.calls|
  {
    var call := s.calls[c];
    if !call.phase.Joined? || call.phase.reconnect >= |s.reconnects| then s
    else
      match s.reconnects[call.phase.reconnect].progress
      case Fresh(client) =>
        if call.retryable then s.(calls := s.calls[c := call.(sends := call.sends + 1, phase := Retried(client))])
        else SetPhase(s, c, Over(Unknown))
      case Gone => SetPhase(s, c, Over(Thrown))
      case Closing => s
      case Connecting => s
  }

  // ---------------------------------------------------------------- runs of the machine

  datatype Step = Invoke(retryable: bool) | Reply(call: nat, ok: bool) | Refresh(reconnect: nat, ok: bool) | Resume(call: nat)

  function Next(s: State, step: Step): State {
    match step
    case Invoke(retryable) => DoInvoke(s, retryable)
    case Reply(c, ok) => if c < |s.calls| then DoReply(s, c, ok) else s
    case Refresh(r, ok) => if r < |s.reconnects| then DoReconnect(s, r, ok) else s
    case Resume(c) => if c < |s.calls| then DoResume(s, c) else s
  }

  function Reach(steps: seq<Step>): State {
    if steps == [] then START else Next(Reach(steps[..|steps| - 1]), steps[|steps| - 1])
  }

  predicate Settled(p: Progress) {
    p.Fresh? || p.Gone?
  }

  /** What a call has sent by the phase it is in. */
  ghost predicate CallInv(s: State, c: int)
    requires 0 <= c < |s.calls|
  {
    var call := s.calls[c];
    && (call.phase.Sent? ==> call.sends == 1 && call.phase.client == call.first)
    && call.first <= s.current
    && (call.phase.Joined? ==> call.sends == 1 && call.phase.reconnect < |s.reconnects|)
    && (call.phase.Retried? ==> call.sends == 2 && call.retryable)
    && (call.phase.Over? ==> 1 <= call.sends <= 2)
    && (!call.retryable ==> call.sends == 1)
    && (call.phase == Over(Unknown) ==> !call.retryable)
  }

  /** One reconnect at a time, the slot naming it; and every reconnect started from a failure of its own. */
  ghost predicate SlotInv(s: State) {
    && s.made == s.current + 1
    && (s.refresh.Some? ==> s.refresh.value < |s.reconnects| && !Settled(s.reconnects[s.refresh.value].progress))
    && (forall r :: 0 <= r < |s.reconnects| && !Settled(s.reconnects[r].progress) ==>
          s.refresh == Some(r) && r == |s.reconnects| - 1 && s.reconnects[r].discards == s.current)
    && (forall r :: 0 <= r < |s.reconnects| ==>
          && s.reconnects[r].cause < |s.calls| && !s.calls[s.reconnects[r].cause].phase.Sent?
          && s.calls[s.reconnects[r].cause].first <= s.reconnects[r].discards <= s.current)
    && (forall q, r :: 0 <= q < r < |s.reconnects| ==> s.reconnects[q].cause != s.reconnects[r].cause)
  }

  /** How many of these reconnects succeeded. */
  function Successes(recs: seq<Reconnect>): nat {
    if recs == [] then 0 else Successes(recs[..|recs| - 1]) + if recs[|recs| - 1].progress.Fresh? then 1 else 0
  }

  /** A reconnect discards the client the successes before it made, and makes the next one. */
  ghost predicate InLine(recs: seq<Reconnect>, r: int)
    requires 0 <= r < |recs|
  {
    && recs[r].discards == Successes(recs[..r])
    && (recs[r].progress.Fresh? ==> recs[r].progress.client == Successes(recs[..r]) + 1)
  }

  ghost predicate LineInv(s: State) {
    s.current == Successes(s.reconnects) && forall r :: 0 <= r < |s.reconnects| ==> InLine(s.reconnects, r)
  }

  ghost predicate Inv(s: State) {
    SlotInv(s) && forall c :: 0 <= c < |s.calls| ==> CallInv(s, c)
  }

  lemma FailKeepsLine(s: State, c: nat)
    requires LineInv(s) && c < |s.calls|
    ensures LineInv(DoFail(s, c))
  {
    if s.refresh.None? {
      var recs, n := DoFail(s, c).reconnects, |s.reconnects|;
      assert recs[..n] == s.reconnects;
      forall r | 0 <= r < |recs| ensures InLine(recs, r) {
        assert recs[..r] == s.reconnects[..r];
        if r < n { assert InLine(s.reconnects, r); }
      }
    }
  }

  lemma RefreshKeepsLine(s: State, r: nat, ok: bool)
    requires LineInv(s) && s.made == s.current + 1 && r < |s.reconnects|
    requires !Settled(s.reconnects[r].progress) ==> r == |s.reconnects| - 1
    ensures LineInv(DoReconnect(s, r, ok))
  {
    if !Settled(s.reconnects[r].progress) {
      var recs := DoReconnect(s, r, ok).reconnects;
      assert recs[..r] == s.reconnects[..r];
      forall q | 0 <= q < |recs| ensures InLine(recs, q) {
        assert recs[..q] == s.reconnects[..q];
        assert InLine(s.reconnects, q);
      }
    }
  }

  lemma {:induction false} ReachLine(steps: seq<Step>)
    ensures LineInv(Reach(steps))
  {
    if steps != [] {
      var n := |steps| - 1;
      var s := Reach(steps[..n]);
      ReachLine(steps[..n]);
      ReachInv(steps[..n]);
      match steps[n] {
        case Invoke(_) =>
        case Reply(c, ok) => if c < |s.calls| && s.calls[c].phase.Sent? && !ok { FailKeepsLine(s, c); }
        case Refresh(r, ok) => if r < |s.reconnects| { RefreshKeepsLine(s, r, ok); }
        case Resume(_) =>
      }
    }
  }

  /** Some reconnect among the first r made a client beyond `first` exactly when more than `first` succeeded. */
  lemma {:induction false} ReplacedIff(recs: seq<Reconnect>, r: nat, first: nat)
    requires r <= |recs| && forall q :: 0 <= q < |recs| ==> InLine(recs, q)
    ensures Successes(recs[..r]) <= first
            <==> forall q :: 0 <= q < r && recs[q].progress.Fresh? ==> recs[q].progress.client <= first
  {
    if r > 0 {
      ReplacedIff(recs, r - 1, first);
      assert recs[..r][..r - 1] == recs[..r - 1];
      assert InLine(recs, r - 1);
    }
  }

  lemma FailKeepsSlot(s: State, c: nat)
    requires SlotInv(s) && c < |s.calls| && s.calls[c].phase.Sent? && s.calls[c].first <= s.current
    ensures SlotInv(DoFail(s, c))
  {
    var t := DoFail(s, c);
    assert forall r :: 0 <= r < |s.reconnects| ==> s.reconnects[r].cause != c && t.reconnects[r] == s.reconnects[r];
    assert forall b :: 0 <= b < |s.calls| ==> t.calls[b].first == s.calls[b].first;
  }

  lemma FailKeepsInv(s: State, c: nat)
    requires Inv(s) && c < |s.calls| && s.calls[c].phase.Sent?
    ensures Inv(DoFail(s, c))
  {
    var t := DoFail(s, c);
    assert CallInv(s, c);
    FailKeepsSlot(s, c);
    forall b | 0 <= b < |t.calls| ensures CallInv(t, b) {
      assert CallInv(s, b);
    }
  }

  lemma ReplyKeepsInv(s: State, c: nat, ok: bool)
    requires Inv(s) && c < |s.calls|
    ensures Inv(DoReply(s, c, ok))
  {
    if s.calls[c].phase.Sent? && !ok {
      FailKeepsInv(s, c);
    } else {
      var t := DoReply(s, c, ok);
      forall b | 0 <= b < |t.calls| ensures CallInv(t, b) {
        assert CallInv(s, b);
      }
    }
  }

  lemma RefreshKeepsInv(s: State, r: nat, ok: bool)
    requires Inv(s) && r < |s.reconnects|
    ensures Inv(DoReconnect(s, r, ok))
  {
    var t := DoReconnect(s, r, ok);
    forall b | 0 <= b < |t.calls| ensures CallInv(t, b) {
      assert CallInv(s, b);
    }
  }

  lemma ResumeKeepsInv(s: State, c: nat)
    requires Inv(s) && c < |s.calls|
    ensures Inv(DoResume(s, c))
  {
    var t := DoResume(s, c);
    forall b | 0 <= b < |t.calls| ensures CallInv(t, b) {
      assert CallInv(s, b);
    }
  }

  lemma InvokeKeepsInv(s: State, retryable: bool)
    requires Inv(s)
    ensures Inv(DoInvoke(s, retryable))
  {
    var t := DoInvoke(s, retryable);
    forall b | 0 <= b < |t.calls| ensures CallInv(t, b) {
      assert b < |s.calls| ==> CallInv(s, b);
    }
  }

  lemma {:induction false} ReachInv(steps: seq<Step>)
    ensures Inv(Reach(steps))
  {
    if steps != [] {
      var n := |steps| - 1;
      var s := Reach(steps[..n]);
      ReachInv(steps[..n]);
      match steps[n] {
        case Invoke(retryable) => InvokeKeepsInv(s, retryable);
        case Reply(c, ok) => if c < |s.calls| { ReplyKeepsInv(s, c, ok); }
        case Refresh(r, ok) => if r < |s.reconnects| { RefreshKeepsInv(s, r, ok); }
        case Resume(c) => if c < |s.calls| { ResumeKeepsInv(s, c); }
      }
    }
  }

  /** A call that may not be retried is put on the wire exactly once whatever fails around it, any other call at
      most twice, and only a call that may not be retried is ever told its outcome is unknown. */
  lemma MutationsAreSentOnce(steps: seq<Step>, c: nat)
    requires c < |Reach(steps).calls|
    ensures var call := Reach(steps).calls[c];
            && 1 <= call.sends <= (if call.retryable then 2 else 1)
            && (call.phase == Over(Unknown) ==> !call.retryable)
  {
    ReachInv(steps);
    assert CallInv(Reach(steps), c);
  }

  /** However many calls fail at once, at most one reconnect is under way; and each reconnect was started by a
      failure of a different call, so there are never more of them than failed calls. */
  lemma ReconnectsAreShared(steps: seq<Step>, q: nat, r: nat)
    requires q < r < |Reach(steps).reconnects|
    ensures var s := Reach(steps);
            && (Settled(s.reconnects[q].progress) || Settled(s.reconnects[r].progress))
            && s.reconnects[q].cause != s.reconnects[r].cause
            && s.reconnects[q].cause < |s.calls| && !s.calls[s.reconnects[q].cause].phase.Sent?
  {
    ReachInv(steps);
  }

  /** A failure says nothing about which client it came from, and the reconnect it starts discards the current one.
      Over every run, that is the client the failing call had used if and only if no reconnect has replaced that
      client since; otherwise the call failed late, and a client it never used is discarded for it. */
  lemma DiscardsItsOwnClientIff(steps: seq<Step>, r: nat)
    requires r < |Reach(steps).reconnects|
    ensures var s := Reach(steps);
            && s.reconnects[r].cause < |s.calls|
            && var first := s.calls[s.reconnects[r].cause].first;
            && first <= s.reconnects[r].discards
            && (s.reconnects[r].discards == first
                <==> forall q :: 0 <= q < r && s.reconnects[q].progress.Fresh? ==> s.reconnects[q].progress.client <= first)
  {
    ReachInv(steps);
    ReachLine(steps);
    var s := Reach(steps);
    assert InLine(s.reconnects, r);
    ReplacedIff(s.reconnects, r, s.calls[s.reconnects[r].cause].first);
  }

  lemma ReachPush(steps: seq<Step>, step: Step)
    ensures Reach(steps + [step]) == Next(Reach(steps), step)
  {
    assert (steps + [step])[..|steps|] == steps;
  }

  /** It happens: two calls go out on client 0, the first fails and its reconnect makes client 1, then the second
      fails too, and client 1 is discarded although no call ever used it. */
  lemma LateFailureDiscardsTheFreshClient()
    ensures var s := Reach([Invoke(true)] + [Invoke(true)] + [Reply(0, false)] + [Refresh(0, true)] + [Refresh(0, true)] + [Reply(1, false)]);
            && s.current == 1 && |s.calls| == 2 && s.calls[1].first == 0
            && |s.reconnects| == 2 && s.reconnects[1].cause == 1 && s.reconnects[1].discards == 1
  {
    var s1 := [Invoke(true)];
    var s2 := s1 + [Invoke(true)];
    var s3 := s2 + [Reply(0, false)];
    var s4 := s3 + [Refresh(0, true)];
    var s5 := s4 + [Refresh(0, true)];
    assert [] + [Invoke(true)] == s1;
    ReachPush([], Invoke(true));
    ReachPush(s1, Invoke(true));
    ReachPush(s2, Reply(0, false));
    ReachPush(s3, Refresh(0, true));
    ReachPush(s4, Refresh(0, true));
    ReachPush(s5, Reply(1, false));
  }

  // ---------------------------------------------------------------- what becomes of one call

  /** What a call lives through: its replies, and how the reconnect it waits for ends for it. */
  datatype News = FirstReply(ok: bool) | Renewed(client: Client) | NoSession | SecondReply(ok: bool)

  function NewsOf(s: State, step: Step, c: nat): seq<News> {
    if c >= |s.calls| then []
    else
      match step
      case Reply(b, ok) =>
        if b != c then []
        else if s.calls[c].phase.Sent? then [FirstReply(ok)]
        else if s.calls[c].phase.Retried? then [SecondReply(ok)]
        else []
      case Resume(b) => if b == c then Ended(s, s.calls[c].phase) else []
      case _ => []
  }

  function Ended(s: State, p: Phase): seq<News> {
    if !p.Joined? || p.reconnect >= |s.reconnects| then []
    else
      match s.reconnects[p.reconnect].progress
      case Fresh(client) => [Renewed(client)]
      case Gone => [NoSession]
      case _ => []
  }

  function Story(steps: seq<Step>, c: nat): seq<News> {
    if steps == [] then []
    else Story(steps[..|steps| - 1], c) + NewsOf(Reach(steps[..|steps| - 1]), steps[|steps| - 1], c)
  }

  /** The call has been put on the wire this often and stands like this. */
  predicate Stands(call: Call, sends: nat, p: Phase) {
    call.sends == sends && call.phase == p
  }

  /** The only stories there are, and what each makes of a call.  The client it is sent on again is newer than the
      one it failed on. */
  ghost predicate StoryFits(call: Call, story: seq<News>) {
    if story == [] then Stands(call, 1, Sent(call.first))
    else if story == [FirstReply(true)] then Stands(call, 1, Over(Result))
    else
      && story[0] == FirstReply(false)
      && if |story| == 1 then call.sends == 1 && call.phase.Joined?
         else if story[1] == NoSession then |story| == 2 && Stands(call, 1, Over(Thrown))
         else
           && story[1].Renewed? && story[1].client > call.first
           && if !call.retryable then |story| == 2 && Stands(call, 1, Over(Unknown))
              else if |story| == 2 then Stands(call, 2, Retried(story[1].client))
              else |story| == 3 && story[2].SecondReply? && Stands(call, 2, Over(if story[2].ok then Result else Thrown))
  }

  /** A call that waits for a reconnect failed on the client that reconnect discards, or on an older one. */
  ghost predicate WaitsForNewer(s: State, c: int)
    requires 0 <= c < |s.calls|
  {
    var p := s.calls[c].phase;
    p.Joined? ==> p.reconnect < |s.reconnects| && s.calls[c].first <= s.reconnects[p.reconnect].discards
  }

  lemma StepKeepsWaiting(s: State, step: Step, c: nat)
    requires Inv(s) && c < |Next(s, step).calls| && (c < |s.calls| ==> WaitsForNewer(s, c))
    ensures WaitsForNewer(Next(s, step), c)
  {
    if c < |s.calls| { assert CallInv(s, c); }
  }

  lemma {:induction false} ReachWaits(steps: seq<Step>, c: nat)
    requires c < |Reach(steps).calls|
    ensures WaitsForNewer(Reach(steps), c)
  {
    if steps != [] {
      var n := |steps| - 1;
      ReachInv(steps[..n]);
      if c < |Reach(steps[..n]).calls| { ReachWaits(steps[..n], c); }
      StepKeepsWaiting(Reach(steps[..n]), steps[n], c);
    }
  }

  lemma ReplyFits(s: State, c: nat, ok: bool, story: seq<News>)
    requires c < |s.calls| && StoryFits(s.calls[c], story)
    ensures StoryFits(DoReply(s, c, ok).calls[c], story + NewsOf(s, Reply(c, ok), c))
  {
    if s.calls[c].phase.Sent? {
      assert story == [] && [] + [FirstReply(ok)] == [FirstReply(ok)];
    } else if s.calls[c].phase.Retried? {
      assert |story| == 2 && (story + [SecondReply(ok)])[..2] == story;
    } else {
      assert story + [] == story;
    }
  }

  lemma ResumeFits(s: State, c: nat, story: seq<News>)
    requires c < |s.calls| && StoryFits(s.calls[c], story) && LineInv(s) && WaitsForNewer(s, c)
    ensures StoryFits(DoResume(s, c).calls[c], story + NewsOf(s, Resume(c), c))
  {
    var p := s.calls[c].phase;
    if Ended(s, p) == [] { assert story + [] == story; }
    if p.Joined? { assert InLine(s.reconnects, p.reconnect); }
  }

  lemma OthersFit(s: State, step: Step, c: nat, story: seq<News>)
    requires c < |s.calls| && NewsOf(s, step, c) == [] && step != Reply(c, true) && step != Reply(c, false) && step != Resume(c)
    ensures c < |Next(s, step).calls| && Next(s, step).calls[c] == s.calls[c] && story + NewsOf(s, step, c) == story
  {
  }

  lemma StepFits(s: State, step: Step, c: nat, story: seq<News>)
    requires c < |s.calls| && StoryFits(s.calls[c], story) && LineInv(s) && WaitsForNewer(s, c)
    ensures c < |Next(s, step).calls| && StoryFits(Next(s, step).calls[c], story + NewsOf(s, step, c))
  {
    if step == Resume(c) {
      ResumeFits(s, c, story);
    } else if step.Reply? && step.call == c {
      ReplyFits(s, c, step.ok, story);
    } else {
      OthersFit(s, step, c, story);
    }
  }

  lemma NewCallFits(s: State, step: Step, c: nat)
    requires |s.calls| <= c
    ensures NewsOf(s, step, c) == [] && (c < |Next(s, step).calls| ==> StoryFits(Next(s, step).calls[c], []))
  {
  }

  /** Over every run what became of a call is told by its own story alone: a reply to its first attempt answers it;
      one whose reconnect found no session throws; one whose reconnect did is sent again, once, on that fresh
      client, and answered by what the second attempt brings, if it may be retried, and is told that its outcome
      is unknown if it may not. */
  lemma {:induction false} StoryDecides(steps: seq<Step>, c: nat)
    ensures if c < |Reach(steps).calls| then StoryFits(Reach(steps).calls[c], Story(steps, c)) else Story(steps, c) == []
  {
    if steps != [] {
      var n := |steps| - 1;
      var s := Reach(steps[..n]);
      StoryDecides(steps[..n], c);
      if c < |s.calls| {
        ReachLine(steps[..n]);
        ReachWaits(steps[..n], c);
        StepFits(s, steps[n], c, Story(steps[..n], c));
      } else {
        NewCallFits(s, steps[n], c);
      }
    }
  }

  // ---------------------------------------------------------------- the client slot

  class McpClientBox {
    var current: Client
    var made: nat
    var refresh: Option<nat>
    var calls: seq<Call>
    var reconnects: seq<Reconnect>

    ghost function View(): State reads this { State(current, made, refresh, calls, reconnects) }

    constructor ()
      ensures View() == START
    {
      current, made, refresh, calls, reconnects := 0, 1, None, [], [];
    }

    method CallTool(retryable: bool)
      modifies this`calls
      ensures View() == DoInvoke(old(View()), retryable)
      ensures Inv(old(View())) ==> Inv(View())
    {
      if Inv(View()) { InvokeKeepsInv(View(), retryable); }
      calls := calls + [Call(retryable, current, 1, Sent(current))];
    }

    method JoinReconnect(c: nat)
      requires c < |calls|
      modifies this`calls, this`refresh, this`reconnects
      ensures View() == DoFail(old(View()), c)
    {
      if refresh.None? {
        refresh := Some(|reconnects|);
        reconnects := reconnects + [Reconnect(c, current, Closing)];
      }
      calls := calls[c := calls[c].(phase := Joined(refresh.value))];
    }

    method Replied(c: nat, ok: bool)
      requires c < |calls| && (calls[c].phase.Sent? || calls[c].phase.Retried?)
      modifies this`calls, this`refresh, this`reconnects
      ensures View() == DoReply(old(View()), c, ok)
      ensures Inv(old(View())) ==> Inv(View())
    {
      if Inv(View()) { ReplyKeepsInv(View(), c, ok); }
      if !ok && calls[c].phase.Sent? {
        JoinReconnect(c);
      } else {
        calls := calls[c := calls[c].(phase := Over(if ok then Result else Thrown))];
      }
    }

    method Reconnected(r: nat, ok: bool)
      requires r < |reconnects| && !Settled(reconnects[r].progress)
      modifies this`current, this`made, this`refresh, this`reconnects
      ensures View() == DoReconnect(old(View()), r, ok)
      ensures Inv(old(View())) ==> Inv(View())
    {
      if Inv(View()) { RefreshKeepsInv(View(), r, ok); }
      var rec := reconnects[r];
      if rec.progress.Closing? {
        reconnects := reconnects[r := rec.(progress := Connecting)];
        return;
      }
      if ok {
        reconnects := reconnects[r := rec.(progress := Fresh(made))];
        current := made;
        made := made + 1;
      } else {
        reconnects := reconnects[r := rec.(progress := Gone)];
      }
      refresh := None;
    }

    method Resumed(c: nat)
      requires c < |calls| && calls[c].phase.Joined? && calls[c].phase.reconnect < |reconnects|
      requires Settled(reconnects[calls[c].phase.reconnect].progress)
      modifies this`calls
      ensures View() == DoResume(old(View()), c)
      ensures Inv(old(View())) ==> Inv(View())
    {
      if Inv(View()) { ResumeKeepsInv(View(), c); }
      var call, progress := calls[c], reconnects[calls[c].phase.reconnect].progress;
      if progress.Gone? {
        call := call.(phase := Over(Thrown));
      } else if call.retryable {
        call := call.(sends := call.sends + 1, phase := Retried(progress.client));
      } else {
        call := call.(phase := Over(Unknown));
      }
      calls := calls[c := call];
    }
  }
}
