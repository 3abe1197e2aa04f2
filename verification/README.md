# Everdict agent service: the control protocol, verified

This project models the concurrent control protocol of the agent service (`apps/agent/src`) and proves the
promises its components make to each other: which message reaches which turn, which run goes when, who may claim
what, and what survives a restart.  Beside the protocol it models the data transformations the service relies on:
the span recorder, the two trace projections, and the fold of a session's memory.

`dafny verify dfyconfig.toml` checks everything.

## How the service is modelled

The service is single-threaded and asynchronous, so `await` cuts its code into atomic pieces.  A component that
updates fields is a class with the same fields, whose methods are those pieces (or whole loops where the source
has loops).  Each method is proved against a function on values (`DoWake`, `Advance`, `DoClaim` and the like) that
gives the whole new state.  A component's module then closes these functions into a transition system: `Next` takes
one step of any participant, `Reach` (or `Run`) a whole sequence of steps, and the main lemmas hold for every
sequence, hence for every interleaving, every outcome of the stores and the turns, and, where the step exists, every
crash or restart.  A step whose moment has not come changes nothing.

Stores, clocks, token issuing, the language model and the network appear as parameters: an answer, a refusal, a
failure, a time.  The stores' own promises (an atomic claim, an append-only log) are modelled as the in-memory and
Postgres stores implement them.

| module | what it is about |
|---|---|
| `Mailbox` | the durable steering log and the mailbox over it |
| `Supervisor` | when a teammate's turn runs: the running and dirty flags |
| `TeammateTurn` | one turn: its drains, and that it always resolves |
| `Teammates` | deliveries, wakes, turns, dismissals and restarts over both: no message is lost |
| `Activator` | per-agent chains, the life of a run, and a member's stop |
| `LaunchGuards` | cooldown, durable dedup, backpressure and once-per-pass in front of a launch |
| `LaunchRaces` | when those guards still hold for passes that interleave |
| `LaunchSystem` | the guards in front of the activator |
| `Reconcile` | the event cursor |
| `WakeResume` | claiming a wake intent across events, sweeps and replicas |
| `OrphanSweep` | claiming stranded runs, and what becomes of them |
| `LiveTurns` | replay buffers of a live turn, and late attachment |
| `Approvals` | parked asks, and the permit of headless runs |
| `PermissionRules` | standing rules: a cache over a durable record, across restarts |
| `McpSession` | reconnecting a dead tool session |
| `TurnSpans` | the span recorder |
| `SpanStories` | what each span says, from the events alone |
| `Traces` | transcripts and try messages projected onto traces |
| `SessionMemory` | folding old records into a digest |
| `Agents`, `Counting` | agent keys and their counter; counting elements of a sequence |

## Where the code does less than it may seem to

Each of these is a lemma below, stated for all inputs, with the exact condition where there is one.

- A rejecting turn drops the wake it was marked dirty with (`Supervisor.FollowUpIffResolved`); teammate turns never
  reject.
- A session registered afresh while one of its turns is in flight gets a second concurrent turn on its next wake
  (`Supervisor.FreshRegistrationOverlaps`).
- A run whose credential cannot be minted is reported started and never reported ended, because minting sits outside
  the `try` (`Activator.MintFailureIsSilent`).
- A stop that arrives after the verdict was read is accepted and changes nothing (`Activator.LateStopIsIgnored`);
  `Activator.CancelledIffStopped` is the exact rule.
- A launch is recorded without looking at its guards again, so passes that interleave can launch an agent twice at
  once and fill one slot twice (`LaunchRaces.InterleavedPassesDouble`); the cooldown and the queue bound hold exactly
  when they still hold at each record (`LaunchRaces.SpacedIffStillCool`, `LaunchRaces.FitsIffStillRoom`).  A run that
  is still queued is not deduplicated: the row decides (`LaunchGuards.DedupIffRowStored`).
- An event whose `onEvent` rejects is never handed on again, although the comment in the loop says the next tick
  retries from the same cursor (`Reconcile.RejectedIsLost`).
- A wake intent is claimed without checking which arm it is (`WakeResume.ClaimTakesTheSeenArmIff`), and the claim is no
  lock across processes: armed again, a session can be woken beside its running turn
  (`WakeResume.ReplicasOverlapIffArmedAgain`).
- A process that boots after a session's last write claims its run, also when another process is running it
  (`OrphanSweep.ClaimsIffBootedAfterTheLastWrite`).
- Rule writes are not ordered against each other, and one that lands after a later change was acknowledged undoes it
  (`PermissionRules.NeverGoesBackIffNoneLandsLate`, `PermissionRules.OutOfOrderLosesADecision`).
- A tool call that fails late, on a client already replaced, discards the healthy client
  (`McpSession.DiscardsItsOwnClientIff`, `McpSession.LateFailureDiscardsTheFreshClient`).
- Reusing the key of a tool call or subagent that is still open loses one span per reuse
  (`TurnSpans.SealConservesWork`).
- A checklist whose text contains a carryover marker does not survive a fold (`SessionMemory.CarryoverRoundTrip`,
  `SessionMemory.MarkerItemIsLost`, `SessionMemory.FoldedChecklistComesBack`).

## Model

| member | source | states |
|---|---|---|
| `Mailbox.InboxStore.AppendInbox` | packages/db/src/activity/agent-session-store.ts:246-261 | An append adds one queued row with the next seq and returns that row |
| `Mailbox.InboxStore.SettleInbox` | packages/db/src/activity/agent-session-store.ts:289-300 | Takes everything queued for one address, in log order, ends exactly those rows, and leaves nothing a second caller could take |
| `Mailbox.AgentMailbox.Enqueue` | apps/agent/src/agent-mailbox.ts:83-95 | The receipt carries the seq the store assigned; a refused append gives no receipt and leaves the log alone |
| `Mailbox.AgentMailbox.Drain` | apps/agent/src/agent-mailbox.ts:49-61 | A readable drain delivers all that was queued and hands over one text for each row: a member's words and no others, anybody else's behind a line that names the sender; an unreadable one answers unknown and consumes nothing |
| `Mailbox.AgentMailbox.Clear` | apps/agent/src/agent-mailbox.ts:118-125 | Hands back what was queued and ends it as discarded, not delivered |
| `Mailbox.AgentMailbox.DrainInput` | apps/agent/src/agent-mailbox.ts:140-158 | The boundary drain hands the loop the texts of all that was queued; it aborts the turn exactly when the log is unreadable, leaving the queue as it was |
| `Mailbox.RenderAllTells` | apps/agent/src/agent-mailbox.ts:49-61 | For any rows, each rendered text tells its own row: verbatim for a member, otherwise ending in the content behind an attribution that tells a teammate from an event and names the sender |
| `Mailbox.NoneQueuedAfterSettle` | apps/agent/src/agent-mailbox.ts:102-111 | After a claim or a discard nothing is queued for that address, so no instruction is absorbed twice |
| `Mailbox.SettleIsLocal` | packages/db/src/activity/agent-session-store.ts:285-300 | A claim or discard leaves every other address's rows as they were |
| `Mailbox.AbsorbedIsDelivered` | apps/agent/src/agent-mailbox.ts:102-111 | Over every run, what an address's drains handed on, concatenated, is exactly its delivered rows |
| `Mailbox.AbsorbedInOrder` | apps/agent/src/agent-mailbox.ts:102-111 | Those seqs are strictly increasing: in order and never twice |
| `Mailbox.RowsAreForever` | apps/agent/src/agent-mailbox.ts:113-117 | A row stays for ever with its content, leaves the queue at most once, and an ended row never changes |
| `Mailbox.ExactlyOnePlace` | apps/agent/src/agent-mailbox.ts:102-117 | At every moment a message is in exactly one of its address's queued, delivered and discarded rows |
| `Mailbox.OneRowPerAppend` | packages/db/src/activity/agent-session-store.ts:246-261 | Over every run the log holds one row for each message sent, in order, numbered from 1, with its address, source, sender and words: nothing dropped, invented or altered |
| `Supervisor.TeammateSupervisor.Register` | apps/agent/src/teammate-supervisor.ts:20-27 | Registering keeps the state of a known teammate and gives a new one an idle record |
| `Supervisor.TeammateSupervisor.Unregister` | apps/agent/src/teammate-supervisor.ts:30-32 | Unregistering forgets the session and leaves its driver running |
| `Supervisor.TeammateSupervisor.Wake` | apps/agent/src/teammate-supervisor.ts:44-52 | A wake marks a running teammate dirty and starts an idle one |
| `Supervisor.TeammateSupervisor.TurnSettled` | apps/agent/src/teammate-supervisor.ts:58-66 | A settled turn is followed by another exactly when it resolved, a wake came, and the session is still registered |
| `Supervisor.OneTurnPerEntry` | apps/agent/src/teammate-supervisor.ts:54-67 | In every reachable state a registration has one turn in flight while running and none otherwise |
| `Supervisor.NoLostWake` | apps/agent/src/teammate-supervisor.ts:42-67 | While turns resolve, a wake newer than the last turn start means running and dirty |
| `Supervisor.FollowUpIffResolved` | apps/agent/src/teammate-supervisor.ts:58-66 | A dirty turn's follow-up starts if and only if the turn resolved |
| `Supervisor.RejectedTurnLosesWake` | apps/agent/src/teammate-supervisor.ts:58-66 | A run in which a rejected turn loses a wake |
| `Supervisor.TurnsNeverExceedWakes` | apps/agent/src/teammate-supervisor.ts:42-63 | A registration starts no more turns than it got wakes, counting the one it owes |
| `Supervisor.OneTurnPerSession` | apps/agent/src/teammate-supervisor.ts:20-32 | Turns are serialized per session when no session is registered afresh under a turn in flight |
| `Supervisor.FreshRegistrationOverlaps` | apps/agent/src/teammate-supervisor.ts:20-32 | Otherwise the next wake puts a second turn of that session in flight |
| `TeammateTurn.RunTeammateTurn` | apps/agent/src/teammate-turn.ts:34-108 | Whatever throws inside it a turn resolves; it consumes the log exactly when it authenticated and could read it, at its opening and at each boundary until one is unreadable; it has a prompt exactly when it ran to its end |
| `TeammateTurn.TurnBody` | apps/agent/src/teammate-turn.ts:35-104 | Inside the try: authentication and the loop may throw, an unreadable or empty log ends the turn quietly |
| `TeammateTurn.Boundaries` | apps/agent/src/teammate-turn.ts:75-80 | The mid-turn drains absorb what is queued at each boundary and stop at the first unreadable one |
| `TeammateTurn.BoundariesAbsorbWhatArrives` | apps/agent/src/teammate-turn.ts:51-80 | Up to its first unreadable boundary a running turn absorbs one text for each message that arrives, in order and telling what it says; what arrives at that boundary, and nothing else, stays queued |
| `Teammates.NoLostMessage` | apps/agent/src/server.ts:259-271 | Over every interleaving and restart, a registered teammate with no turn, delivery or boot restore under way, and no failed latest read, has an empty queue |
| `Teammates.NextWakeReadsEverything` | apps/agent/src/teammate-turn.ts:39-48 | After a failed read the next delivery leaves the teammate with a turn that drains, or one owed |
| `Teammates.CompleteBootReadMissesNobody` | apps/agent/src/server.ts:334-390 | A boot read naming every session with something queued excuses nobody |
| `Teammates.FailedReadLeavesQueue` | apps/agent/src/teammate-turn.ts:44-48 | A turn that could not read, not woken again, returns to an idle teammate with its queue untouched |
| `Teammates.AbsorbedOnceInOrder` | apps/agent/src/server.ts:252-271 | Through all of it each absorbed message was absorbed once, in seq order, and is recorded delivered |
| `Activator.AgentActivator.EnqueueRun` | apps/agent/src/agent-activation.ts:605-624 | An activation is counted pending and put behind the agent's chain |
| `Activator.AgentActivator.EnqueueContinuation` | apps/agent/src/agent-activation.ts:418-430 | A continuation goes behind the same chain, uncounted |
| `Activator.AgentActivator.Stop` | apps/agent/src/agent-activation.ts:529-535 | A stop finds a run if and only if it is live and of that workspace, and then marks and aborts it |
| `Activator.AgentActivator.Resume` | apps/agent/src/agent-activation.ts:626-750 | Each await of a run, activation or continuation, moves it and every map exactly as the source's next piece does; what the run is then reported as is `Activator.OutcomeIffTurn` |
| `Activator.AgentActivator.ReportAndRelease` | apps/agent/src/agent-activation.ts:714-749 | Terminal report, removal from the live map and the stopped set, and the request to revoke are one piece |
| `Activator.StoredSessionsContinue` | apps/agent/src/agent-activation.ts:315-395 | A session an earlier process stored keeps its agent, and a continuation of it is queued behind that agent's chain whenever it is asked for |
| `Activator.StartedRunsAreStored` | apps/agent/src/agent-activation.ts:632-658 | The store holds exactly the sessions it held before and those of the activations that reported their start |
| `Activator.RunsGoInOrder` | apps/agent/src/agent-activation.ts:418-430 | Whatever sessions were stored before, runs of one agent go one at a time in enqueue order, activations and continuations alike |
| `Activator.ChainDrains` | apps/agent/src/agent-activation.ts:614-624 | From any reachable state, whatever every turn and store replies, all runs of an agent settle: a failing run blocks nobody |
| `Activator.PendingIsExact` | apps/agent/src/agent-activation.ts:613-622 | The pending counter equals the number of the agent's unsettled activations |
| `Activator.ClampNeverFires` | apps/agent/src/agent-activation.ts:620-622 | The clamp at zero never fires |
| `Activator.LiveMapIsExact` | apps/agent/src/agent-activation.ts:164-177 | The live map lists exactly the live runs, one for a session, each with its workspace; only live runs are stopped |
| `Activator.OneReportOneRevocation` | apps/agent/src/agent-activation.ts:669-749 | A settled run that got its credential made exactly one terminal report and one revocation request and is out of the live map; no run makes a second |
| `Activator.MintFailureIsSilent` | apps/agent/src/agent-activation.ts:666-676 | A run whose credential was not minted is reported started and never ended |
| `Activator.StopIsIsolated` | apps/agent/src/agent-activation.ts:525-535 | A stop touches at most the one live run of that session and workspace; any other stop changes nothing |
| `Activator.NoLeftoverStop` | apps/agent/src/agent-activation.ts:744-749 | A run about to go live is neither marked stopped nor aborted: no stop leaks into a later run |
| `Activator.CancelledIffStopped` | apps/agent/src/agent-activation.ts:706-738 | A run is reported cancelled if and only if a stop of its own workspace reached it before it last looked |
| `Activator.LateStopIsIgnored` | apps/agent/src/agent-activation.ts:706-713 | A stop after the verdict is accepted and the run settles as it would have |
| `Activator.OutcomeIffTurn` | apps/agent/src/agent-activation.ts:700-738 | A run reported with no stop in time is completed if and only if its turn returned by itself and its status could be written, suspended if and only if the turn returned on an armed wait or at its budget and the status could be written, failed if and only if the turn or that write threw; a turn ends once |
| `Activator.SettledRunsRan` | apps/agent/src/agent-activation.ts:626-750 | A settled run reported its start, got its credential, reported its end and gave the credential back, unless its session row could not be written (then none of these) or its credential could not be minted (then only the start) |
| `LaunchGuards.Guards.OnEvent` | apps/agent/src/agent-activation.ts:186-239 | One pass over the entries and then the subscriptions, counting its launches; who is launched is given exactly by `LaunchGuards.EntryLaunchedIff` and `LaunchGuards.SubLaunchedIff` |
| `LaunchGuards.Guards.OnSubscriptions` | apps/agent/src/agent-activation.ts:245-305 | The subscription half of the pass, from the agents its triggers woke, counting its launches |
| `LaunchGuards.LaunchesAreSpaced` | apps/agent/src/agent-activation.ts:212-216 | Over any passes and any clock, launches of one agent and kind are at least the cooldown apart |
| `LaunchGuards.WindowIsBounded` | apps/agent/src/agent-activation.ts:212-216 | A window of length L holds at most floor(L / cooldown) + 1 of them |
| `LaunchGuards.RedeliveryNeverRelaunches` | apps/agent/src/agent-activation.ts:217-224 | Once the session row of an (agent, event) exists, no later pass launches it again |
| `LaunchGuards.NoSelfReaction` | apps/agent/src/agent-activation.ts:204-205 | No agent is launched by a fact its own run caused |
| `LaunchGuards.QueueIsBounded` | apps/agent/src/agent-activation.ts:225-230 | No agent ever has more than the maximum of runs queued |
| `LaunchGuards.OncePerPass` | apps/agent/src/agent-activation.ts:194-237 | No pass wakes an agent twice, triggers and subscriptions together |
| `LaunchGuards.LaunchesQualify` | apps/agent/src/agent-activation.ts:196-236 | Every launch is of an enabled, admitted agent with a creator, woken by its own trigger or by a subscription that selects the event |
| `LaunchGuards.EntryLaunchedIff` | apps/agent/src/agent-activation.ts:195-236 | A pass launches an agent by its trigger if and only if, as the pass begins, it is enabled, triggered, admitted, has a creator, did not cause the event, has let the cooldown pass, has no stored session for the event and has room: neither the order of the agents nor what the pass launches on the way matters |
| `LaunchGuards.SubLaunchedIff` | apps/agent/src/agent-activation.ts:245-305 | A subscription is launched if and only if, as the pass begins, it selects the event, its agent is enabled, admitted, has a creator, did not cause the event, has no stored session for it and has room, and its own cooldown in seconds (or the service's) has passed, and neither its agent's trigger nor an earlier subscription to that agent is due; nothing else is launched for it |
| `LaunchGuards.DedupIffRowStored` | apps/agent/src/agent-activation.ts:217-224 | In every reachable state an agent that passes its other guards is launched if and only if the store holds no session of it for the event |
| `LaunchRaces.PiecesAreAnEntry` | apps/agent/src/agent-activation.ts:212-235 | The check, the lookup and the record of a launch, with nothing in between, are one entry of a pass |
| `LaunchRaces.SpacedIffStillCool` | apps/agent/src/agent-activation.ts:212-232 | Over every interleaving of passes, launches keep their cooldown if and only if each is recorded while the cooldown it checked still holds |
| `LaunchRaces.FitsIffStillRoom` | apps/agent/src/agent-activation.ts:225-235 | Over every interleaving, no agent ever has more than the maximum queued if and only if each launch is recorded while there is still room |
| `LaunchRaces.RowStopsEveryLaterLookup` | apps/agent/src/agent-activation.ts:217-224 | Over every interleaving, once the session of an (agent, event) is stored the only launches still coming for it had looked before |
| `LaunchRaces.InterleavedPassesDouble` | apps/agent/src/agent-activation.ts:212-235 | In every reachable state two passes through their guards before either records launch the agent twice at once and fill one slot twice |
| `LaunchSystem.UnsettledRunsAreBounded` | apps/agent/src/agent-activation.ts:225-230 | Guards and activator together: whatever the runs do, an agent never has more unsettled activations than the maximum |
| `Reconcile.EventReconcile.HandleNext` | apps/agent/src/agent-activation.ts:984-997 | The cursor moves past an event before it is skipped as stale or handed on |
| `Reconcile.EventReconcile.Tick` | apps/agent/src/agent-activation.ts:971-1005 | An undisturbed tick terminates at the end of the log; one that finds another running does nothing |
| `Reconcile.WalkIsExact` | apps/agent/src/agent-activation.ts:969-1004 | Over any ticks, failures and growth, the events walked are exactly the log's up to the cursor, once each and in order, and one was handed on if and only if it was inside the window when walked |
| `Reconcile.HandlesTheNextEvent` | apps/agent/src/agent-activation.ts:984-998 | Wherever a run has got to, the event handled next is the first of the log beyond the cursor; the cursor moves to it and it is handed on exactly when it is no older than the window |
| `Reconcile.HandedIncreases` | apps/agent/src/agent-activation.ts:985-998 | Events are handed on in log order, each at most once |
| `Reconcile.RejectedIsLost` | apps/agent/src/agent-activation.ts:985-1002 | An event whose handling rejects is never handed on again |
| `WakeResume.WakeResumer.Begin` | apps/agent/src/wake-resume.ts:105-112 | A resume begins exactly when this process is not resuming the session and it is not live |
| `WakeResume.WakeResumer.Continue` | apps/agent/src/wake-resume.ts:113-138 | Claim, mint, turn and revocation follow one another as in the source, whatever fails |
| `WakeResume.WakeResumer.ResumeOne` | apps/agent/src/wake-resume.ts:105-139 | An undisturbed resume succeeds exactly when claim, mint and turn do, and consumes the intent exactly when the claim reached the store |
| `WakeResume.WakeResumer.ResumeEach` | apps/agent/src/wake-resume.ts:141-160 | After an undisturbed event or sweep a listed session is still armed exactly when it was skipped as live or in flight or its claim never reached the store, and no more were resumed than intents consumed |
| `WakeResume.EveryTurnHasItsArm` | apps/agent/src/wake-resume.ts:114-118 | Across events, sweeps, replicas and crashes every woken turn is owed to an arm of its own session |
| `WakeResume.NoArmIsClaimedTwice` | apps/agent/src/wake-resume.ts:114-118 | No two calls ever claim the same arm |
| `WakeResume.TurnsNeverExceedArms` | apps/agent/src/wake-resume.ts:114-118 | A session's woken turns never exceed the times its intent was armed |
| `WakeResume.EveryTokenIsRevoked` | apps/agent/src/wake-resume.ts:119-126 | A call that ended asked to revoke exactly the tokens it minted, at most one |
| `WakeResume.OneResumePerProcess` | apps/agent/src/wake-resume.ts:102-112 | A process never resumes a session twice at once, and its in-flight set is exact |
| `WakeResume.ClaimTakesTheSeenArmIff` | apps/agent/src/wake-resume.ts:114-118 | A resume chosen for one arm claims that arm if and only if the session still holds an intent and was not armed again since; otherwise it claims the newer one |
| `WakeResume.NextClaimNeedsANewArm` | apps/agent/src/wake-resume.ts:114-118 | After a claim left a session without an intent, whoever claims next claims an arm made since |
| `WakeResume.ReplicasOverlapIffArmedAgain` | apps/agent/src/wake-resume.ts:114-118 | Beside a running turn another process gets a turn of the session if and only if it holds an intent again, a later one than the running turn's |
| `OrphanSweep.OrphanSweeper.ClaimOrphanedRun` | packages/db/src/activity/agent-session-store.ts:192-200 | The claim wins exactly on a running row staler than the boot, and settles it failed |
| `OrphanSweep.OrphanSweeper.Continue` | apps/agent/src/orphan-sweep.ts:34-68 | Each await of the loop body moves the orphan as in the source |
| `OrphanSweep.OrphanSweeper.Sweep` | apps/agent/src/orphan-sweep.ts:30-71 | After an undisturbed sweep nothing listed is stranded, nothing else was touched, and the count is the claims won |
| `OrphanSweep.ClaimsAreStale` | apps/agent/src/orphan-sweep.ts:8-22 | No claim ever takes a run written at or after the claimer's boot |
| `OrphanSweep.SecondClaimNeedsALaterBoot` | apps/agent/src/orphan-sweep.ts:8-10 | Whoever claims a session again booted after the earlier claim |
| `OrphanSweep.OneBootClaimsOnce` | apps/agent/src/orphan-sweep.ts:8-13 | Sweepers sharing a boot instant claim each stranded run at most once |
| `OrphanSweep.OneWinnerPerClaim` | apps/agent/src/orphan-sweep.ts:35-37 | As many sweepers go on as claims were won |
| `OrphanSweep.ClaimsIffBootedAfterTheLastWrite` | apps/agent/src/orphan-sweep.ts:18-22 | In every reachable state a sweeper claims a running session if and only if it booted after the session was last written, live or not |
| `OrphanSweep.ResumedXorReported` | apps/agent/src/orphan-sweep.ts:37-68 | A claimed agent run is resumed or reported failed once, never both; an unclaimed one neither |
| `OrphanSweep.ResumedIffItsResumeSucceeds` | apps/agent/src/orphan-sweep.ts:38-52 | A run is resumed if and only if its resume was asked for and succeeded, and that is asked for exactly for claimed runs of a trigger where a resumer is wired |
| `OrphanSweep.OrphanSweeper.SweepOne` | apps/agent/src/orphan-sweep.ts:34-68 | One undisturbed orphan: claimed exactly when stale, resumed exactly when claimed, of a trigger, with a resumer whose resume succeeds, and otherwise reported once if it names an agent |
| `LiveTurns.ReplayRebuilds` | apps/agent/src/server.ts:1013-1019 | Replaying the buffers rebuilds exactly the view they hold |
| `LiveTurns.LateAttachEqualsEarly` | apps/agent/src/live-turns.ts:75-143 | For every past and future a late attacher ends with the view of one present since the start, which `LiveTurns.BuffersHold` spells out |
| `LiveTurns.RetryMustComeLast` | apps/agent/src/server.ts:1013-1019 | Replayed first instead of last, a retry wait survives exactly when there is nothing else to replay |
| `LiveTurns.Buffer` | apps/agent/src/live-turns.ts:103-135 | The branches of a broadcast update the four buffers; what they then hold is `LiveTurns.BuffersHold` |
| `LiveTurns.BuffersHold` | apps/agent/src/live-turns.ts:96-135 | For every feed the buffers hold: the text streamed since the assistant last said anything but white space, the reasoning streamed since its last message, the last well-formed plan ask unless a plan was presented since, and the last well-formed retry wait unless anything was streamed, said or fallen back to since |
| `LiveTurns.LiveTurnRegistry.ViewHoldsFeed` | apps/agent/src/live-turns.ts:75-143 | The buffers of a live turn, and what every viewer attached to it shows, hold just that of everything broadcast since it began |
| `LiveTurns.FanOut` | apps/agent/src/live-turns.ts:136-142 | A throwing listener is dropped and every other one receives the event |
| `LiveTurns.LiveTurnRegistry.Begin` | apps/agent/src/live-turns.ts:55-69 | A slot is claimed exactly when no turn is live there |
| `LiveTurns.LiveTurnRegistry.AttachStream` | apps/agent/src/server.ts:999-1033 | A new viewer shows what the registry has buffered; everybody else is untouched |
| `LiveTurns.LiveTurnRegistry.Broadcast` | apps/agent/src/live-turns.ts:100-143 | The event joins the turn's feed, every viewer keeps showing the buffers, and the dead are dropped |
| `LiveTurns.LiveTurnRegistry.Detach` | apps/agent/src/live-turns.ts:89-94 | Detaching removes one viewer and never touches the turn |
| `Approvals.PermissionRegistry.Park` | apps/agent/src/permission-registry.ts:30-56 | An ask parks unsettled under its request id |
| `Approvals.PermissionRegistry.Finish` | apps/agent/src/permission-registry.ts:38-45 | Whoever settles first wins; later settlements change nothing |
| `Approvals.PermissionRegistry.Respond` | apps/agent/src/permission-registry.ts:60-65 | An answer lands exactly when the request is parked for that session |
| `Approvals.PermissionRegistry.ResolveWhere` | apps/agent/src/permission-registry.ts:77-90 | Exactly the session's asks the relaxed mode would not have asked are allowed, and counted |
| `Approvals.PermissionRegistry.PendingFor` | apps/agent/src/permission-registry.ts:68-72 | Lists exactly the asks an answer could still reach |
| `Approvals.AllowHits` | apps/agent/src/server.ts:607-612 | Allowing ask by ask equals relaxing the session in one go |
| `Approvals.RelaxSettlesIff` | apps/agent/src/server.ts:607-612 | In every reachable state relaxing a session to bypass allows its parked asks, relaxing it to auto those of a named tool that is not guarded, and never a guarded or nameless one, one of another session, or one already settled |
| `Approvals.SettledForGood` | apps/agent/src/permission-registry.ts:38-45 | A settled ask keeps its decision for ever |
| `Approvals.OneAnswerOneAsk` | apps/agent/src/permission-registry.ts:60-65 | One answer settles at most one ask, of its own request and session |
| `Approvals.SettledHasCause` | apps/agent/src/permission-registry.ts:38-65 | Every settled ask was settled by one step that justifies its decision |
| `Approvals.EveryAllowAccounted` | apps/agent/src/agent-activation.ts:850-885 | Every allowed gated call is the pre-approved re-ask, or its own ask was allowed by a member or by a relaxed mode |
| `Approvals.EveryDenyAccounted` | apps/agent/src/permission-registry.ts:46-47 | A denial means nobody to ask, a member's deny, an abort or a timeout |
| `Approvals.NoChannelFailsClosed` | apps/agent/src/agent-activation.ts:862-863 | With nobody to ask no gated call is allowed, pre-approval apart |
| `Approvals.AskedIff` | apps/agent/src/agent-activation.ts:850-863 | A call is put to a member exactly when its run's mode gates it, it is not the one re-ask its resume approved, and there is a channel; without a channel just those are refused |
| `Approvals.PreApprovalIsOneShot` | apps/agent/src/agent-activation.ts:331-359 | A call is pre-approved if and only if it is the first re-ask of the approved tool in a gating mode |
| `PermissionRules.RuleBook.Hydrate` | apps/agent/src/permission-rules.ts:25-29 | Hydration never clobbers, and an empty record still marks the session hydrated |
| `PermissionRules.RuleBook.Set` | apps/agent/src/permission-rules.ts:32-37 | Sets one tool's rule in one session |
| `PermissionRules.RuleBook.Clear` | apps/agent/src/permission-rules.ts:45-47 | Removes one tool's rule, and does not hydrate an unseen session |
| `PermissionRules.RuleBook.List` | apps/agent/src/permission-rules.ts:50-53 | Lists exactly the session's rules, none when it is not in memory |
| `PermissionRules.NeverGoesBackIffNoneLandsLate` | apps/agent/src/server.ts:230-235 | Over every run, writes landing or failing in any order, the record never goes back on an acknowledged change of a tool if and only if no write lands after a later change of it was acknowledged |
| `PermissionRules.InOrderIsNeverLate` | apps/agent/src/server.ts:230-235 | Writes landing in the order they were sent never land late |
| `PermissionRules.AcknowledgedIsKept` | apps/agent/src/server.ts:230-235 | Then, over reads, hydrations, changes, failures and restarts, nothing older ever undoes an acknowledged change, in the record or in memory |
| `PermissionRules.LastAcknowledgedRules` | apps/agent/src/server.ts:1719-1749 | The last decision on a tool, once acknowledged, is what both hold |
| `PermissionRules.UndecidedKeepsItsRule` | apps/agent/src/server.ts:1727-1729 | A tool nobody decided on keeps its rule through every write-through |
| `PermissionRules.LateHydrationNeverClobbers` | apps/agent/src/permission-rules.ts:22-29 | In its own process a decision counts at once, and no late hydration undoes it |
| `PermissionRules.OutOfOrderLosesADecision` | apps/agent/src/server.ts:1729-1734 | In every reachable state, two changes whose writes land the wrong way round leave the acknowledged later one undone |
| `McpSession.McpClientBox.Replied` | apps/agent/src/mcp-tools.ts:248-253 | A reply ends a call; a first failure joins the reconnect under way or starts one |
| `McpSession.McpClientBox.JoinReconnect` | apps/agent/src/mcp-tools.ts:231-243 | Concurrent failures share one reconnect of the current client |
| `McpSession.McpClientBox.Reconnected` | apps/agent/src/mcp-tools.ts:233-240 | A reconnect closes, connects, swaps the client and empties the slot, also when it fails |
| `McpSession.McpClientBox.Resumed` | apps/agent/src/mcp-tools.ts:251-259 | After a reconnect a read is re-sent and any other call is told its outcome is unknown |
| `McpSession.MutationsAreSentOnce` | apps/agent/src/mcp-tools.ts:214-223 | A call that may not be retried is sent exactly once whatever fails, any other at most twice |
| `McpSession.StoryDecides` | apps/agent/src/mcp-tools.ts:244-262 | Over every run, a call's first reply answers it; failing that, a lost session throws, and a renewed one re-sends a call that may be retried, once, on a client newer than the one it failed on, and tells any other that its outcome is unknown |
| `McpSession.ReconnectsAreShared` | apps/agent/src/mcp-tools.ts:193-199 | At most one reconnect is under way, and each was started by a failure of its own |
| `McpSession.DiscardsItsOwnClientIff` | apps/agent/src/mcp-tools.ts:231-251 | Over every run a reconnect discards the client its failing call had used if and only if no reconnect has replaced that client since |
| `McpSession.LateFailureDiscardsTheFreshClient` | apps/agent/src/mcp-tools.ts:231-251 | A run in which a late failure discards a client no call ever used |
| `TurnSpans.TurnSpanRecorder.Observe` | apps/agent/src/turn-spans.ts:81-213 | Each event opens, closes or annotates spans as in the source |
| `TurnSpans.TurnSpanRecorder.Seal` | apps/agent/src/turn-spans.ts:221-278 | Sealing closes everything open at the end and returns the root and all closed spans |
| `TurnSpans.SealConservesWork` | apps/agent/src/turn-spans.ts:81-301 | One root and one child per turn start, tool call and launched subagent, except one lost per reuse of an open key; complete if and only if there was none |
| `TurnSpans.StartedIdsAreDistinct` | apps/agent/src/turn-spans.ts:91-172 | Span ids never repeat |
| `TurnSpans.SealConservesPoints` | apps/agent/src/turn-spans.ts:303-309 | Every point event lies on exactly one sealed span; a failure adds its own |
| `TurnSpans.SealRecordsEndings` | apps/agent/src/turn-spans.ts:149-179 | As many spans carry each ending as events closed one with it; tools and subagents still open at the seal are written down as never having returned |
| `TurnSpans.SealNests` | apps/agent/src/turn-spans.ts:280-309 | Under a monotone clock children hang under and inside the root, points inside their span, and model calls do not overlap |
| `SpanStories.SpanEndsWhereClosed` | apps/agent/src/turn-spans.ts:83-179 | The model call, tool call or subagent an event starts is sealed with its own id, name, input, spend and points, and ends at the time of the first event that closes it (never before its start), with that event's output and error |
| `SpanStories.SpanLeftOpenEndsWithTurn` | apps/agent/src/turn-spans.ts:221-226 | One that nothing closes ends with the turn, a tool call or subagent as never having returned |
| `SpanStories.RootSaysHowTheTurnEnded` | apps/agent/src/turn-spans.ts:229-277 | The root span carries the last stop reason and the failure, if there was one, and ends with the seal |
| `Traces.TranscriptToTrace` | apps/agent/src/run-trace.ts:33-123 | The projection is the rows' events in order, each at its row's time, and the model spend last |
| `Traces.ReadStamps` | apps/agent/src/run-trace.ts:48-64 | The first pass finds the first and last datable time and when each call was last answered |
| `Traces.ProjectCalls` | apps/agent/src/run-trace.ts:71-90 | One event per call of the row, with its duration |
| `Traces.TraceIsOrdered` | apps/agent/src/run-trace.ts:50-58 | With stamps that never go back the stream never does, and the closing model spend has the greatest time |
| `Traces.ClosingSpansTheTurn` | apps/agent/src/run-trace.ts:109-121 | The model spend closes the stream at the last dated row's time and spans the turn from the first dated row; with no dated row it sits past the last row and has no length |
| `Traces.CallEndsAtItsAnswer` | apps/agent/src/run-trace.ts:59-89 | A tool call's time plus duration is the time of its last answer; without a later answer it has none |
| `Traces.ProjectRow` | apps/agent/src/run-trace.ts:66-107 | One row's events: its text unless empty, its calls, or the result it carries |
| `Traces.TranscriptIsConserved` | apps/agent/src/run-trace.ts:66-107 | The trace tells what the transcript tells, each message, call and result once and in one order; calls keep their ids and names, a result hangs under its call and succeeded exactly when the kernel's record, or failing that the text, says so |
| `Traces.EventsSitWithTheirRow` | apps/agent/src/run-trace.ts:48-58 | Every event is one of a row's and sits at that row's own time since the first dated row, at the last dated row's when it has none, and at its index when no row is dated |
| `Traces.TryMessagesToTrace` | apps/agent/src/agent-try.ts:175-199 | The try projection with its counter and queue computes the fold over the messages |
| `Traces.TryIsConserved` | apps/agent/src/agent-try.ts:175-199 | A try's trace tells the event that set it off and then what its messages tell, each text, call and result once, in order, with its outcome |
| `Traces.TryAnswersInOrder` | apps/agent/src/agent-try.ts:175-199 | Event i has time i, call ids are unique, answers go first in first out, and unmatched results get ids no call has |
| `Traces.FreshOnlyWhenAllAnswered` | apps/agent/src/agent-try.ts:194-195 | A result takes a fresh id only when every earlier call has been answered |
| `SessionMemory.SessionStore.MaintainSessionMemory` | apps/agent/src/chat.ts:833-876 | A pass folds exactly when due, with a boundary and a digest, and then moves digest and covered point together |
| `SessionMemory.SessionStore.FindCut` | apps/agent/src/chat.ts:848-855 | The cut is the first user record in the last twenty |
| `SessionMemory.SessionStore.CountChars` | apps/agent/src/chat.ts:845-846 | The size compared with the trigger is the digest plus every record of the tail |
| `SessionMemory.EveryRecordOnce` | apps/agent/src/chat.ts:974-989 | After any turns and folds, the folded spans followed by the verbatim tail are the whole transcript |
| `SessionMemory.FoldAdvances` | apps/agent/src/chat.ts:846-876 | A fold strictly advances the covered seq and keeps 1 to 20 records starting at a user record |
| `SessionMemory.SkipsWhen` | apps/agent/src/chat.ts:845-856 | A pass skips exactly when the digest and everything said since it are together shorter than the trigger, there are at most twenty records, or no user record lies in the last twenty |
| `SessionMemory.CarryoverRoundTrip` | packages/agent-runtime/src/tools/todo-tool.ts:118-147 | A carried checklist reads back as itself if and only if its text holds neither marker |
| `SessionMemory.MarkerItemIsLost` | packages/agent-runtime/src/tools/todo-tool.ts:118-147 | With a printer that writes contents as they stand, a checklist whose item is the marker does not come back |
| `SessionMemory.LatestStatementWins` | packages/agent-runtime/src/tools/todo-tool.ts:152-171 | The checklist a history yields is the one its latest message that states any states: an assistant's first checklist call, or what stands between the last opener of a member's text and the first closer behind it |
| `SessionMemory.LatestCallWins` | packages/agent-runtime/src/tools/todo-tool.ts:155-160 | In particular the first checklist call of the latest assistant message that makes one, when nothing later states any |
| `SessionMemory.LatestCarryoverWins` | packages/agent-runtime/src/tools/todo-tool.ts:136-171 | And a carryover behind any text, if and only if the checklist's own text holds no marker |
| `SessionMemory.NothingStatedIsEmpty` | packages/agent-runtime/src/tools/todo-tool.ts:152-171 | A history that states no checklist yields an empty one |
| `SessionMemory.FoldKeepsChecklist` | apps/agent/src/chat.ts:869-875 | For every continuation the turn after a fold finds the checklist a turn without it would have, if and only if the digest keeps it where nothing later states one |
| `SessionMemory.FoldedChecklistComesBack` | apps/agent/src/chat.ts:869-876 | When a fold moves the latest checklist call into the digest, the memory is the digest with that checklist behind it, and a later turn that states nothing else finds it again if and only if its text holds no marker |

## Left out

- HTTP routes, request parsing, server-sent-event framing, heartbeats and authentication: plumbing around the pieces above.
- The agent loop, model transports, token issuing and the SQL of the stores: they appear as answers, failures and the stores' stated promises. In particular the steering log's rows are taken to become visible in seq order.
- `idle`, `report` delivery, `publishHalt`'s payload and the envelope of a run: they do not feed back into the protocol.
- `activateDirect`'s own answers (existing session, permanent skip, throw when busy): its launch is the `Launch` step of `Activator`, its guards those of `LaunchGuards`.
- `prepareContinuation`'s check that a run is not live: it is awaited past before the continuation is queued, so the chain, not the check, is what serializes; the model queues a continuation of any session in the store, an earlier process's included.
- `triggerMatches` and `eventSelectorMatches`, the budget gate, the registry and the session lookup: their answers are inputs of a pass.
- Composite string keys (`workspace:agent:kind` and the like): modelled as structured keys, so two different keys never collide; ids are numbers that are only compared.
- Sessions of several workspaces in one log, supervisor or rule book: an address or key stands for the pair the code scopes by.
- Deletion of sessions: rows, once written, stay.
- The boot restore's limits on how many queued sessions and teammates it lists: a session it does not name is one of the excuses in `Teammates.NoLostMessage`.
- The soft interrupt of a live turn, and plan approval's own flow beyond the rules it mints.
- The parsed arguments of tool calls, span attributes and ISO time strings: carried through unchanged and not read by anything modelled.
- `capIndex` and the memory index: a size cap with no bearing on the protocol.
- The tool-name classifiers, tool catalogues and result rendering of the tool bridge: lookups.
- Recording of approvals with the control plane's approval bridge: best-effort and not awaited by the decision.
- Real time: clocks are integers that are given, timeouts are steps that may happen at any time.
- Mailbox.InboxStore.SettleInbox: takes the rows in log order, which is seq order because appends number them; the store's own sort is therefore not modelled.
- TeammateTurn.RunTeammateTurn: says which prompt the turn ran with, what it absorbed and whether it ran to its end, not what it spent.
- Traces.TryMessagesToTrace: a try's results carry no parent in the source; the model's event has one field for both projections and fills it with the call's id.
- SessionMemory.CarryoverRoundTrip: relies on a checklist printer that reads back what it prints and whose shorter pieces do not; the printer itself is a parameter.
