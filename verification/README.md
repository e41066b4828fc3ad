# Verification of the durable-state protocol

This project models the backend's durable-state protocol and proves what it keeps. A
message becomes a case, a graph run writes a draft reply, a landlord or the trust
ladder approves it, and a ticker sends it by SMS. All of that happens in short SQL
transactions that act as compare-and-swap steps, with irreversible Twilio calls and
crashes in between.

**How the model is built.** `Vocabulary`, `Tables`, `CaseLifecycle`, `TrustLadder` and
`Transactions` give the rows and every transaction as a function from the tables before
it to the tables after. `Protocol` makes them the steps of one state machine: any number
of sender coroutines, graph runs and resumes, the web tier, both sweeps, a clock that
never goes back, and a crash that may fall between any two transactions. A run is any
sequence of events. `LifeCycle`, `SendSafety`, `Histories`, `LockSafety`, `DecisionSeam`,
`Interrupts`, `AutoSendCap` and `SweepSafety` prove inductive invariants and theorems
about all runs; `TrustHistory` and `SentMessages` tie the trust counters and the recorded
conversation to what was sent, and `SenderProgress` bounds how long a due draft waits
behind others. `Outcomes` and `Deliveries` spell out, in seconds and column values, what
each transaction and each delivery leaves behind.
`Interleavings` and `Backend` are the same system as a mutable object:
each method updates the fields in place, other coroutines run wherever it awaits, and it
is proved to leave exactly the state its schedule leads to, so the theorems about runs
hold of it. `SmsReplies` says what the confirmations sent to a landlord are worth.

The other machines are separate: the case lock's keys, loop and connection pools
(`CaseLock`, `LockPools`), the emergency chain and its SMS drain (`EscalationSchedule`,
`EmergencyChain`, `SmsDrain`, `SmsOutbox`), the degraded-mode retry (`DegradedRetry`), the
evaluation harness's token limiter (`TokenBudget`), the E.164 canonicaliser (`Phone`),
keyset pagination (`Pagination`), and number provisioning and release (`Provisioning`,
`NumberRelease`).

**What comes from outside.** Model calls, Twilio's answers, clock readings, whether a
recipient resolves, and what other coroutines do are parameters or events, free to take
any value. `claims`, `sends`, the trust log, and the like are history variables of the
model; the source keeps no such logs. Conditions on reachable states, such as "a resolved
row has no pending resolution", are proved and not assumed. The one-pending index of the
schema is enforced where the source relies on it: an undo that would break it writes
nothing. That no other statement can break it is proved.

**Where the code and its documentation differ** the model follows the code. Each item has
a concrete run and, where there is one, the exact condition:

- Undo keeps `auto_send`, so a draft the landlord approved on the dashboard can be
  cancelled by the guard that is documented never to touch one
  (`Findings.DashboardApprovalRefusedIff`, `Findings.DashboardApprovalIsCancelled`).
- A resume can consume a pause raised for another draft; it is an undo on a case paused
  for another draft that makes this possible, and in every reachable state where the
  case's lock is free it does (`Interrupts.PausesMatchIffNoForeignUndo`,
  `Interrupts.ForeignUndoMisleadsResume`, `Findings.ForeignPauseIsConsumed`). The row written is the right one even then.
- Three writes do not look at `resolved`, so a run already under way can take a resolved
  case back to `awaiting_approval` (`SweepSafety.LeavesResolvedIff`,
  `Findings.ResolvedCaseIsDraggedOut`).
- An unrecognised action on a live interrupt consumes the pause and returns normally
  (`BackendObject.DecisionAlone`, which `ResolveDraftDecision` promises).
- The drain's final marks are unguarded, so a delivered row can become `failed` again
  (`SmsDrain.SentRegressesIff`, `SmsDrain.SentCanRegress`).
- Advisory keys use the low 64 bits of an id, so different ids can share one
  (`CaseLock.KeysMeet`, `CaseLock.DifferentIdsCanMeet`).
- A purchase whose acknowledgement is lost, and a process that dies at one of a few
  points, lose a bought number without an alert (`Provisioning.ConservedIff`).

## Model

| member | source | states |
|---|---|---|
| SendSafety.AtMostOneSend | apps/api/app/agent/draft_sender.py:422-430 | Over every interleaving of ticks, approvals, undos, resolves, sweeps, graph runs and crashes, no two messages handed to Twilio belong to the same draft |
| SendSafety.ClaimIsExclusive | apps/api/app/agent/draft_sender.py:581-627 | Two live coroutines never hold the same draft, and a held row is in `sending` |
| SendSafety.ClaimedForever | apps/api/app/agent/draft_sender.py:422-430 | A row that was ever claimed is `sending` or `sent` at every later state of every run |
| SendSafety.EverySendIsJustified | apps/api/app/agent/draft_sender.py:388-452 | Every message sent has a claim at whose instant the draft was approved and due, its case unresolved, an auto-sent draft had no newer inbound, an SMS-approved one no newer tenant inbound since approval; the text is the landlord's edit exactly when the row is marked edited |
| SendSafety.ClaimOutcome | apps/api/app/agent/draft_sender.py:581-627 | After the claim transaction the row is the caller's, or cancelled with its audit row, or was not an approved, due draft of an unresolved case |
| Outcomes.ClaimDecides | apps/api/app/agent/draft_sender.py:388-452 | A claim wins exactly an approved row whose time has come, on a case not resolved, that no message overtook (an unattended one by any inbound message since it was drafted, one approved by SMS by a tenant message since the approval); it cancels exactly the approved rows one did, with the audit entry, and touches nothing else |
| SendSafety.StepKeepsSendInv | apps/api/app/agent/draft_sender.py:673-956 | The send invariant (claims justified and distinct, each claimed row owned and remembered exactly by one coroutine, sends backed by claims) is kept by every step of every actor |
| Deliveries.DeliveryLeaves | apps/api/app/agent/draft_sender.py:673-956 | With anything interleaved, a claimed draft goes out exactly when it can be sent (recipient and case there, an edited row has a text) and Twilio takes it, with the landlord's text if edited and its own if not; it ends `sent` exactly when the final write went through and stays `sending` otherwise |
| Deliveries.LoadGoesOnIff | apps/api/app/agent/draft_sender.py:685-704 | The load goes on exactly when the row can be sent, and carries that text; nothing else changes |
| Deliveries.DecidedReplyReachesTenant | apps/api/app/agent/nodes/finalize_draft_decision.py:225-262 | A reply the landlord approved or edited, once its window of 5 seconds or 5 minutes is over, on an open case and not overtaken, is sent with exactly the text decided on, recorded as an outbound message to the tenant, and leaves the case waiting for them |
| SentMessages.MessagesAreSends | apps/api/app/agent/draft_sender.py:468-541 | Over every run each sent draft has its own outbound message to the tenant on its case, with the very text handed to Twilio for it, and each outbound message is that of exactly one sent draft |
| Histories.LogsOnlyGrow | apps/api/app/agent/draft_sender.py:468-541 | Along every run the clock never goes back, `messages` and `audit_log` only grow, and each draft keeps its case, landlord and text |
| Histories.RunOnePending | docs/03-engineering/schema-v1.md:1503 | Every run keeps at most one pending draft per case |
| Histories.TrustIsEarned | apps/api/app/agent/draft_sender.py:502-530 | Over every run: threshold x unlocks, plus the current run of clean sends while locked, never exceeds the clean routine sends of the log; unlocks and effective revokes alternate; only a routine, unrevoked row is unlocked, and the eligibility read says exactly that. `TrustHistory` says what the log counts |
| TrustHistory.CountersAreSends | apps/api/app/agent/draft_sender.py:502-530 | Over every run a property's counters are exactly the final writes of unedited drafts, of edited ones, and the rejections the run recorded for it |
| TrustHistory.AutonomyIsEarned | apps/api/app/trust.py:113-136 | Every unlock, and the run towards the next, is paid for by routine drafts of the property that were recorded as sent and that nobody had edited; without threshold of them it is not unlocked |
| TrustLadder.SendIsCounted | apps/api/app/agent/draft_sender.py:505-530 | An edited send counts as edited, ends the run and keeps the lock; a clean one prolongs the run and unlocks exactly when a routine, locked row reaches the threshold; on an unclassified case nothing is counted |
| TrustLadder.RejectionIsCounted | apps/api/app/agent/nodes/finalize_draft_decision.py:195-207 | A rejection is counted under the case's property and severity and ends the run without locking |
| TrustLadder.UnlocksArePaidFor | apps/api/app/agent/draft_sender.py:839-892 | The amortised bound and the alternation for any history of sends, rejections and revokes |
| TrustLadder.EveryUnlockNeedsNewCleanSends | apps/api/app/trust.py:113-136 | Every unlock, first or repeated, is preceded by a stretch with threshold clean routine sends and no edit, rejection or revoke of the property |
| DueQuery.DueBatchAnswers | apps/api/app/agent/draft_sender.py:363-370 | The candidate query returns only eligible rows, none twice, oldest first; a missing one is younger than all returned and missing only because the batch is full |
| DueQuery.EligibleWhen | apps/api/app/agent/draft_sender.py:363-370 | A candidate is a row that is approved, whose time has come and whose case is not resolved |
| SenderProgress.EveryDraftComesUp | apps/api/app/agent/draft_sender.py:354-370 | With n due drafts in front of it and r revivals meanwhile (a resolved case coming alive with a due, approved draft on it), at most (n + r) / limit ticks that meet no deadline pass a draft over; the next one attempts it, or finds it no longer waiting; whatever else goes on |
| SenderProgress.AttemptMakesRoom | apps/api/app/agent/draft_sender.py:155-168 | Whatever comes of an attempt, and whatever happens around it, the row no longer waits when it is over unless it is revived: no row keeps a batch slot |
| BackendObject.Backend.HasNewerInbound | apps/api/app/agent/draft_sender.py:388-417 | The scan answers exactly the EXISTS subquery |
| BackendObject.Backend.ClaimDraft | apps/api/app/agent/draft_sender.py:581-627 | It is the claim step; it returns a row if and only if the guards held, in the columns of the row, and otherwise leaves no approved, due draft of an unresolved case |
| BackendObject.Backend.ProcessClaimedDraft | apps/api/app/agent/draft_sender.py:673-956 | With anything interleaved it is load, send and record: the draft's text, the landlord's if edited, goes out exactly when the row can be sent and Twilio takes it; the draft ends `sent` exactly when the final write commits, whose failure is the one error |
| BackendObject.Backend.WriteSent | apps/api/app/agent/draft_sender.py:468-541 | The final transaction: the message, the draft, the case unless resolved, the audit log, and the trust row counted as clean or edited, unlocked exactly at the threshold |
| BackendObject.Backend.SenderTick | apps/api/app/agent/draft_sender.py:959-1016 | The tick is exactly its attempts in candidate order with others in between; it returns the number of claims it won and makes no claim at or after the deadline |
| DecisionSeam.ResumedDecisionHitsItsDraft | apps/api/app/agent/graph.py:1203-1250 | Whatever interleaved, a resumed decision carrying draft d changes no draft but d, which was pending on its case and ends decided as asked |
| DecisionSeam.DirectDecisionHitsItsDraft | apps/api/app/agent/graph.py:1309-1378 | The direct write changes no draft but the one it carries, from any state |
| Outcomes.DecisionWrites | apps/api/app/agent/nodes/finalize_draft_decision.py:152-345 | Approve and edit schedule the draft 5 seconds or 5 minutes ahead with no text or the landlord's, keep its own text and unattended mark and leave all else; reject also sets the case open and counts against the property; a draft not pending is left alone |
| Outcomes.DecidedComesDue | apps/api/app/agent/nodes/finalize_draft_decision.py:225-262 | A draft decided on can be claimed exactly when its window is over, its case is not resolved and no message overtook it |
| DecisionSeam.RunKeepsSeam | apps/api/app/agent/graph.py:1203-1250 | Past its check, while a resume holds the case lock, the case's pending draft stays the decision's own or every open draft of the case is gone |
| DecisionSeam.OthersAreCalm | apps/api/app/agent/graph.py:1048-1109 | While one coroutine holds the lock of a case, no step of anybody else makes another draft of that case pending in place of it or adds a row to it |
| BackendObject.Backend.ResumeCaseThread | apps/api/app/agent/graph.py:1203-1250 | What it does is its fixed schedule; a refusal names its reason truthfully; a completed resume has decided its own draft or nothing on the case is open; alone it is refused exactly when there is no live interrupt |
| BackendObject.Backend.FinalizeNeverPausedDraft | apps/api/app/agent/graph.py:1309-1378 | Locked, re-checked direct write with the bounded lock loop; it always decides a pending draft on a free lock |
| BackendObject.Backend.ResolveDraftDecision | apps/api/app/agent/graph.py:1381-1416 | Interfered with, it follows the schedule its unlocked peek picks, including the fall-through repair, and its answer is true when it returns; alone, a recognised action always decides its draft as asked and changes no other, whatever the case status and whether or not an interrupt exists |
| BackendObject.Backend.CheckUnderLock | apps/api/app/agent/graph.py:1203-1243 | The two checks under the lock, each refusal with its reason, releasing the lock |
| BackendObject.Backend.ReplayNode | apps/api/app/agent/nodes/await_approval.py:509-581 | Replaying the paused node consumes the pause, and goes on only with a pending draft and a recognised action |
| BackendObject.Backend.Apply | apps/api/app/agent/nodes/finalize_draft_decision.py:152-345 | Approve, edit and reject write exactly the scheduled, edited or rejected row, the audit entry, and for a rejection the open case and the counted rejection; a row that is no longer pending is left alone |
| BackendObject.Backend.TryDirectWrite | apps/api/app/agent/graph.py:1260-1378 | One transaction: lock test, re-check, status repair, write; a decision that went through left its draft as asked, no other changed, and the case awaiting approval, or open after a rejection |
| Interrupts.PausesMatchIffNoForeignUndo | apps/api/app/agent/graph.py:337-370 | Every live interrupt names its case's pending draft throughout a run if and only if no undo in the run is accepted on a case whose live interrupt names another draft |
| Interrupts.ForeignUndoMisleadsResume | apps/api/app/agent/graph.py:1203-1250 | In every reachable state such an undo, on a case whose lock is free, lets a resume carrying the undone draft pass both checks and consume a pause that names another draft |
| Interrupts.ResumeConsumesItsOwnPause | apps/api/app/agent/graph.py:1243-1250 | In runs without such an undo, the pause a resume consumes was raised for the draft the decision carries |
| Interrupts.OnlyHolderMovesThread | apps/api/app/agent/graph.py:1048-1109 | Only the coroutine that holds a case's lock changes its thread |
| Findings.ForeignPauseIsConsumed | apps/api/app/agent/graph.py:1243-1250 | A concrete run after which a resume carrying draft 1 goes on to consume the pause raised for draft 2 |
| LockSafety.OneHolderPerKey | apps/api/app/agent/graph.py:1048-1109 | In every run at most one live coroutine holds a key, and every taken key has a live holder |
| BackendObject.Backend.AcquireCaseLock | apps/api/app/agent/graph.py:1048-1109 | Every try but the last found the lock taken, it gives up only after the last, and a free lock is taken at once |
| BackendObject.Backend.UndoApproval | apps/api/app/agent/approve_by_sms.py:196-201 | Undo applies exactly to an approved draft of the landlord on a case without a pending one, returns it to pending and keeps its auto-send mark |
| Outcomes.UndoPutsBack | apps/api/app/agent/approve_by_sms.py:196-201 | The whole row an undo leaves: pending, unscheduled, unedited, its unattended mark kept, its channel forgotten only by SMS |
| SmsReplies.HandleApprove | apps/api/app/agent/approve_by_sms.py:232-329 | Early answers change nothing; otherwise it goes through the decision seam once and answers by its result. The approved notice is true of the tables, with one exception: nothing on the case is open any more |
| SmsReplies.HandleReject | apps/api/app/agent/approve_by_sms.py:332-433 | The same for a rejection |
| SmsReplies.HandleUndo | apps/api/app/agent/approve_by_sms.py:436-501 | The undone notice goes out only for an approved draft that was never handed to Twilio, which is then pending; a sent or sending one is answered so, untouched |
| SmsReplies.AnswersHold | apps/api/app/agent/approve_by_sms.py:232-501 | Every notice chosen from the row's status alone is true of that status |
| SmsReplies.NoticeByStatus | apps/api/app/agent/approve_by_sms.py:232-433 | Which notice each status gets, at first and when the row is read again |
| BackendObject.Backend.RunGraph | apps/api/app/agent/graph.py:1424-1526 | The locked span as a fixed schedule of nodes with anything in between: a run that pauses leaves the case's pending draft under an interrupt naming it, and however it ends it holds no lock |
| BackendObject.Backend.RouteAfterDraftResponse | apps/api/app/agent/graph.py:647-780 | Auto-send is chosen exactly for a routine message that passed the guard, on an unlocked property under the daily cap, when the reads worked; degraded ends exactly after a guard failure or an unconfirmed emergency |
| BackendObject.Backend.InsertFreshDraft | apps/api/app/agent/nodes/draft_response.py:771-1010 | The pending draft is stale, approved ones that were going out unattended or by SMS are cancelled, any other row is kept, and the new one is inserted, with an audit entry each |
| Outcomes.IdentifyRoutes | apps/api/app/agent/nodes/identify_case.py:249-325 | A message on an open case joins it and withdraws a pending resolution; within 30 days of its resolution it reopens the case, later it opens a new one; a confirmation is due 48 hours ahead |
| Outcomes.ClassifyKeepsEmergency | apps/api/app/agent/nodes/classify_severity.py:282-287 | The severity is overwritten, except that an emergency stays one |
| Outcomes.MarkingAwaits | apps/api/app/agent/nodes/await_approval.py:438-505 | A case is marked as awaiting approval exactly if it has a pending draft, whatever its status, and nothing else changes |
| Outcomes.ReceiveStores | apps/api/app/routers/webhooks/twilio.py:624-640 | A received message is stored as inbound, as of now, and nothing else changes |
| BackendObject.Backend.AutoSendDraft | apps/api/app/agent/nodes/auto_send.py:105-185 | The write re-reads eligibility; exactly then it approves the pending draft with its own text for 5 seconds ahead, with its audit row, and otherwise changes nothing and falls back to the pause |
| AutoSendCap.NeverOverTheCap | apps/api/app/trust.py:87-103 | At every instant of every run, no window of 24 hours of a case, wherever it ends, holds more `auto_sent` rows than the cap, and the count the router reads is such a window |
| AutoSendCap.AutoSendIsAudited | apps/api/app/agent/nodes/auto_send.py:114-185 | Each unattended approval adds exactly one `auto_sent` row to its case's log |
| AutoSendCap.StepKeepsCap | apps/api/app/agent/graph.py:752-779 | A run that was routed to auto-send stays under the cap until it writes, whatever others do, because only the lock holder writes such rows |
| SlidingWindow.AppendKeepsLimit | apps/api/app/trust.py:87-103 | Checking the trailing window before an append keeps every window, past and future, within the limit |
| CaseLifecycle.GuardIsDecision | apps/api/app/agent/case_lifecycle.py:634-652 | The UPDATE's guard on the live row is the decision function on the live row, provided a resolved row has no pending resolution |
| CaseLifecycle.DueWhen | apps/api/app/agent/case_lifecycle.py:514-590 | A case is due as tenant-confirmed exactly when it is not resolved and its pending instant has come, as stale exactly when it is open, awaiting the tenant or reopened, nothing is pending, and 14 days passed without activity |
| CaseLifecycle.GuardNeedsInvariant | apps/api/app/agent/case_lifecycle.py:634-639 | Without that proviso the tenant-confirmed guard matches resolved rows |
| SweepSafety.SweepRefinesDecision | apps/api/app/agent/case_lifecycle.py:514-590 | Over every run and any interference between snapshot and write: the write happens exactly when the decision on the live row is that transition, leaves no pending or approved draft of the case, and otherwise writes nothing |
| SweepSafety.BacklogIsNotSwept | apps/api/app/agent/case_lifecycle.py:143-151 | A case awaiting the landlord, with no resolution pending, is changed by no sweep action of either leg, decided at any instant |
| SweepSafety.RunKeepsClean | apps/api/app/agent/case_lifecycle.py:634-652 | Every run keeps: a resolved case has no pending resolution |
| SweepSafety.LeavesResolvedIff | apps/api/app/agent/draft_sender.py:497-500 | Exactly which steps take a case out of resolved: a reopen, or one of three writes that need a pending draft on it; a finished send is none of them |
| SweepSafety.ResolvedStays | apps/api/app/agent/case_lifecycle.py:718-826 | A case resolved with nothing open stays resolved with nothing open until a message is routed to it or a run drafts on it |
| SweepSafety.ResolvingSettlesTheCase | apps/api/app/routers/cases.py:334-381 | A landlord's resolve puts the case in that state in every run |
| Outcomes.LandlordResolves | apps/api/app/routers/cases.py:334-381 | The landlord's resolve writes the row for that reason, cancels every unsent pending or approved draft of the case and logs both; a repeat or another landlord's case writes nothing |
| BackendObject.Backend.ApplyTimeTransitions | apps/api/app/agent/case_lifecycle.py:514-590 | The list is exactly the due transitions of the snapshot, in table order, with both legs' conditions in days and status names |
| BackendObject.Backend.ApplySweepAction | apps/api/app/agent/case_lifecycle.py:718-826 | The guarded write and its side effects, applied exactly when the decision on the live row agrees |
| BackendObject.Backend.SweepCases | apps/api/app/agent/case_lifecycle.py:829-941 | The trace is one guarded write per action after arbitrary interference and the result the actions that were written; undisturbed, all of them, each case at rest |
| Findings.ResolvedCaseIsDraggedOut | apps/api/app/agent/nodes/await_approval.py:348-505 | A concrete run in which the marking node takes a resolved case to `awaiting_approval` with its resolution still recorded |
| Findings.DashboardApprovalRefusedIff | apps/api/app/agent/draft_sender.py:432-452 | A due, dashboard-approved draft is cancelled at its claim if and only if its row is still marked auto-sent and a newer inbound exists |
| Findings.DashboardApprovalIsCancelled | apps/api/app/agent/approve_by_sms.py:196-201 | A concrete run from the empty system in which that happens to a draft the landlord approved |
| BackendObject.Backend.RevokePropertyAutonomy | apps/api/app/trust.py:144-192 | The routine row of that landlord is locked and its run reset if it was unlocked, nothing else changes, and the count says which |
| BackendObject.Backend.RevokeAllAutonomy | apps/api/app/trust.py:195-241 | Afterwards nothing of that landlord's is unlocked and every other row is as before |
| CaseLock.KeysMeet | apps/api/app/agent/graph.py:1004-1023 | Two ids take the same advisory key pair if and only if they agree on their low 64 bits |
| CaseLock.DifferentIdsCanMeet | apps/api/app/agent/graph.py:1007-1014 | Distinct ids with one key pair exist, contrary to the docstring |
| CaseLock.Acquire | apps/api/app/agent/graph.py:1048-1109 | It returns at the first try that finds the key free or raises at the first failed try past the deadline, after at most 301 tries |
| LockPools.TwoPoolsNeverDeadlock | apps/api/app/agent/case_lock_pool.py:16-37 | With separate pools no reachable state of any number of runs is deadlocked, and every one can still finish |
| LockPools.SinglePoolDeadlocks | apps/api/app/agent/case_lock_pool.py:16-37 | With one shared pool of any size a deadlocked state is reachable |
| LockPools.SharedDeadlockShape | apps/api/app/agent/case_lock_pool.py:16-37 | A deadlock of the shared pool has every connection held by a run that has its lock and wants a node |
| LockPools.SleepersHoldNothing | apps/api/app/agent/case_lock_pool.py:319-345 | A waiter that sleeps between tries holds no connection and no key, and a key has at most one holder |
| EscalationSchedule.OffsetGaps | apps/api/app/agent/emergency_chain.py:221-244 | Consecutive steps are 2 to 15 minutes apart |
| EscalationSchedule.DueCountInverts | apps/api/app/agent/emergency_chain.py:234-244 | The count of due steps is the inverse of the offset function |
| EscalationSchedule.EveryStepContactsSomebody | apps/api/app/agent/emergency_chain.py:257-277 | The tenant's safety text belongs to step 0 alone; the landlord or backup is contacted at every step and each again within three |
| EscalationSchedule.ContactedAt | apps/api/app/agent/emergency_chain.py:221-277 | Who is contacted at which minute, and nobody at any other: the landlord at T+0, 5, 15 and each repeat and by text at T+2, the backup by call and text at T+10 and each repeat, the tenant at T+0 and T+15 |
| EscalationSchedule.ClaimedWithinOneTick | apps/api/app/agent/emergency_chain.py:909-931 | With ticks at most 60 s apart step k is claimed by the first tick at or after its due time, never earlier |
| EscalationSchedule.KeepsUp | apps/api/app/agent/emergency_chain.py:909-931 | Once no due step is unclaimed, that is so again after every tick |
| EscalationSchedule.CatchesUp | apps/api/app/agent/emergency_chain.py:1177-1227 | After an outage with m overdue steps, one step per tick catches up within 2m ticks |
| EmergencyChain.StepsOnceAndNeverEarly | apps/api/app/agent/emergency_chain.py:783-798 | Over any mix of triggers, sweeps, acknowledgements and crashes: steps are claimed in order, each once, never early, and the `emergency_sms` row exists, once, if and only if step 0 was claimed |
| EmergencyChain.AcknowledgementIsFinal | apps/api/app/agent/emergency_chain.py:1785-1884 | After the first acknowledgement no step is claimed, everyone is given the same first instant, and there is exactly one audit row |
| EmergencyChain.NeverBehind | apps/api/app/agent/emergency_chain.py:1177-1227 | In any run that contains sweep passes at most 60 s apart, with T+0 calls, overlapping sweeps and crashes between and inside them, no step that is due at a pass's clock is unclaimed when the pass ends, until somebody acknowledges |
| EmergencyChain.EveryStepOnTime | apps/api/app/agent/emergency_chain.py:892-967 | In any such run step k is claimed, never early, by the end of the first pass that finds it due, and that pass starts at most one tick after the due time |
| EmergencyChain.UndisturbedIsExact | apps/api/app/agent/emergency_chain.py:909-931 | Undisturbed, that first pass claims step k itself and nothing further |
| EmergencyChain.EmergencyCall.ClaimDueStep | apps/api/app/agent/emergency_chain.py:783-798 | The conditional UPDATE with step 0's insert; it wins exactly when the row is unacknowledged and still at the attempt that was read |
| EmergencyChain.EmergencyCall.HandleTrigger | apps/api/app/agent/emergency_chain.py:1099-1170 | The T+0 call claims step 0 or nothing |
| EmergencyChain.EmergencyCall.SweepTick | apps/api/app/agent/emergency_chain.py:1204-1296 | One tick claims the next step exactly when it is due and nobody acknowledged |
| EmergencyChain.EmergencyCall.AcknowledgeNotification | apps/api/app/agent/emergency_chain.py:1810-1884 | Every surface gets the first instant, and the audit holds exactly one row |
| SmsDrain.SlotsAreExclusive | apps/api/app/agent/emergency_chain.py:1429-1435 | No attempt slot sends twice or is held twice, and the tenant gets at most `attempt` messages |
| SmsDrain.OneClaimPerAttempt | apps/api/app/agent/emergency_chain.py:581-627 | Of two callers that read the same attempt at most one wins |
| SmsDrain.AttemptIsRecorded | apps/api/app/agent/emergency_chain.py:1429-1463 | What is written about an attempt: nothing by the inline send once the row is closed, else sent exactly if Twilio said it took the message; a drain without a number gives up |
| SmsDrain.SentRegressesIff | apps/api/app/agent/emergency_chain.py:1437-1463 | Exactly which events take a sent row out of `sent` |
| SmsDrain.SentAloneIsFinal | apps/api/app/agent/emergency_chain.py:1429-1443 | With no drain in flight a sent row stays sent |
| SmsDrain.SentCanRegress | apps/api/app/agent/emergency_chain.py:1437-1443 | A concrete run in which a delivered row becomes `failed` again |
| SmsOutbox.BackoffShape | apps/api/app/agent/emergency_chain.py:1362-1385 | 60 s doubling to an hour from the seventh attempt |
| SmsOutbox.DueRowsAre | apps/api/app/agent/emergency_chain.py:1399-1427 | The selection is exactly the pending or failed rows of the kind, an emergency one whatever its due time, oldest first |
| SmsOutbox.Outbox.ProcessCandidate | apps/api/app/agent/emergency_chain.py:1514-1620 | The row after each outcome: lost race, no number, sent, failed with backoff for `tenant_ack` only, error |
| SmsOutbox.Outbox.DrainEmergencyPass | apps/api/app/agent/emergency_chain.py:1651-1676 | Every due emergency row is attempted and nothing else is touched |
| SmsOutbox.Outbox.DrainTenantAckPass | apps/api/app/agent/emergency_chain.py:1679-1731 | A prefix of at most 100 candidates is handled, none started at or after the deadline |
| SmsOutbox.Outbox.RunDrainSweep | apps/api/app/agent/emergency_chain.py:1734-1778 | Both passes in order; every due emergency row is attempted in every tick whatever the backlog and the clock |
| DegradedRetry.GoesAheadIff | apps/api/app/agent/degraded_mode_sweep.py:441-487 | The retry goes ahead exactly without a case, or with a known unchanged status and no newer inbound |
| DegradedRetry.OneOutcome | apps/api/app/agent/degraded_mode_sweep.py:299-347 | Over any interleaving: one final outcome; escalated implies a `needs_eyes` row; superseded implies the case had moved on; due times stay offsets from the failure |
| DegradedRetry.OutcomeHasCause | apps/api/app/agent/degraded_mode_sweep.py:727-759 | Over any interleaving the step that ended a row: resolved only by a graph run that classified, escalated only by a failure of the third attempt or the third counted exception, superseded only by a guard that saw the case moved on |
| DegradedRetry.FiveTicksSuffice | apps/api/app/agent/degraded_mode_sweep.py:586-759 | Five processed ticks end every row, whatever the graph answers and whatever raises |
| DegradedRetry.FourTicksMayNot | apps/api/app/agent/degraded_mode_sweep.py:586-759 | Four need not |
| DegradedRetry.RetryRow.ProcessCandidate | apps/api/app/agent/degraded_mode_sweep.py:727-759 | One candidate: a classified retry resolves the row, a failed one is due 5 and then 15 minutes after the failure and then escalates, an exception only counts until the third; the two-counter measure goes down |
| DegradedRetry.RetryRow.RecordCandidateException | apps/api/app/agent/degraded_mode_sweep.py:662-724 | Exceptions are counted on pending rows and the third escalates |
| TokenBudget.BackoffShape | apps/api/evals/runner.py:417-426 | 2 s doubling to a 70 s cap, which outlasts a window |
| TokenBudget.TokenBudgetTracker.TrailingSum | apps/api/evals/runner.py:517-523 | The purged list gives the trailing sum of the full call history |
| TokenBudget.TokenBudgetTracker.Record | apps/api/evals/runner.py:525-527 | The history gains exactly the new call |
| TokenBudget.WaitForTokenBudget | apps/api/evals/runner.py:540-558 | It ends after at most as many sleeps as the window has entries, with the headroom it waited for |
| TokenBudget.PacedCall | apps/api/evals/runner.py:590-643 | Only rate limits are retried, at most the allowed number of times and after their backoff; recorded calls keep every 60 s window within budget if actuals stay within estimates |
| TokenBudget.PacedSession | apps/api/evals/runner.py:590-643 | A whole session of calls on a fresh tracker: the history is exactly what the calls used, and if actuals stay within estimates and estimates within the budget, no 60 s window is ever over budget |
| Phone.FixedPointsAreTheImage | apps/api/app/phone.py:276-325 | Fixed points, image and the canonical set coincide; canonicalising twice is canonicalising once |
| Phone.NanpFormsAgree | apps/api/app/phone.py:276-325 | Ten digits, eleven with a leading 1 and +1 agree, and are accepted exactly when plausible |
| Phone.PunctuationIsIgnored | apps/api/app/phone.py:276-325 | Only the digits and a leading plus matter, unless a trunk zero is written out; digits of another script are refused |
| Phone.TrunkZeroDropped | apps/api/app/phone.py:254-273 | A matched (0) disappears for listed country codes and stays a digit otherwise; all other digits stay |
| Phone.TrunkZeroMatches | apps/api/app/phone.py:177-195 | The pattern matches exactly what is written with separators around a literal (0) |
| Phone.WrittenWithTrunkZero | apps/api/app/phone.py:276-325 | The canonical form of a number written with a trunk zero |
| Phone.BritishZeroIsDropped | apps/api/app/phone.py:254-273 | +44 (0) loses its zero |
| Phone.ItalianZeroIsKept | apps/api/app/phone.py:254-273 | +39 (0) keeps it |
| Pagination.PagingIsExact | apps/api/app/pagination.py:93-119 | Following the cursor to its end while rows come and go: strict order, no row twice, every row present throughout exactly once |
| Pagination.NothingTwice | apps/api/app/pagination.py:11-15 | Everything returned is in strict order and past the cursor |
| Pagination.NothingLost | apps/api/app/pagination.py:11-15 | Every row that stayed is returned |
| Pagination.LimitZeroReturnsNothing | apps/api/app/pagination.py:93-119 | At limit 0 the walk ends at once with nothing |
| Provisioning.ConservedIff | apps/api/app/property_provisioning.py:376-447 | For every fault pattern the bought number is in service, gone or paged if and only if the pattern is not one of the silent losses; other numbers are untouched |
| Provisioning.CreatedIsConfigured | apps/api/app/routers/properties.py:562-683 | A returned property has a number with both webhooks; a compensated one's number is gone or paged |
| Provisioning.CreatedIff | apps/api/app/routers/properties.py:562-683 | The fault patterns that end in a property, exactly, and the estate they leave |
| Provisioning.ReleaseOutcome | apps/api/app/property_provisioning.py:271-353 | The release call is made exactly when the guard ran and saw no live property; a number that may still be there is paged while the process lives |
| Provisioning.LiveNumbersAreKept | apps/api/app/property_provisioning.py:271-353 | No release follows a guard that saw a live property, and live numbers stay |
| Provisioning.LostPurchaseIsSilent | apps/api/app/property_provisioning.py:376-447 | A concrete pattern that loses a number with no alert |
| Provisioning.Provisioner.Create | apps/api/app/routers/properties.py:562-683 | The saga in place is its specification, and conserves the number exactly outside the silent losses |
| Provisioning.Provisioner.Release | apps/api/app/property_provisioning.py:271-353 | Guard first, then the release, then the page |
| NumberRelease.CallsNeedClaims | apps/api/app/property_provisioning.py:535-542 | Over any overlap of sweeps: each call has a claim of its own, calls are at most `attempt`, and none comes before the grace period and its retry intervals |
| NumberRelease.LivePropertyBlocks | apps/api/app/property_provisioning.py:586-687 | A claim whose guard saw a live property closes the row and never calls |
| NumberRelease.AnswerSettles | apps/api/app/property_provisioning.py:586-687 | A number is released exactly when Twilio released it or does not know it; a refusal leaves it waiting 15 minutes, the fifth gives up, and so do a live property and a row without a number |
| NumberRelease.MarkSettles | apps/api/app/property_provisioning.py:640-687 | With sweeps overlapping, what the answer to one call writes |
| NumberRelease.AloneItIsReleased | apps/api/app/property_provisioning.py:556-687 | A due row one sweep handles alone makes its one call and is released |
| NumberRelease.FiveAttemptsSuffice | apps/api/app/property_provisioning.py:171-183 | A row no rival touches is settled in five processed ticks |
| NumberRelease.ReleaseQueue.Sweep | apps/api/app/property_provisioning.py:556-687 | Each candidate is processed once, nothing else is touched, and the returned SIDs are those now gone, in order |

## Left out

- Resolving a recipient's or sender's phone number: one flag per attempt (`addressable`).
- Bulk statements write one audit entry per statement, carrying the set of drafts, where the source writes a row per draft.
- Isolation finer than "one short transaction is one atomic step", and an advisory lock lost with its database connection while its holder goes on.
- Runs for unknown senders, and the nodes that find a message's property and case; `RunGraph` starts once the message has its case.
- The sender's branch for a vendor as recipient: the one statement that inserts drafts names the tenant.
- Multi-case routing and the wording that proposes or contradicts a resolution: the routed case and the verdict are inputs of `Identify`.
- The `needs_eyes` notification of an auto-stale resolve, the push outbox, unrouted-message maintenance, the landlord SMS outbox and the scheduler: the same claim shapes with weaker guards.
- `parse_command`, message wording, TwiML and URLs; which action fires at which step is modelled.
- The base64 encoding of pagination cursors, and the Unicode tables behind `isnumeric` and `strip`, which are parameters of `Phone`.
- Crashes inside one call of `BackendObject.Backend` other than the sender's: they are `Crash` events of the state machine, about which all theorems about runs are stated.
- The landlord-name, backup-contact and vendor lookups of the emergency chain; each action's own send is one event of `SmsDrain`.
- Waiting for a pool connection with a timeout: `LockPools` lets a run wait for ever, which only makes deadlock harder to exclude.
- Cost reporting, scoring and judging in the evaluation harness; HTTP, authentication, configuration and logging; LangGraph, SQLAlchemy and psycopg internals; web and mobile clients.
- TokenBudget.PacedCall: says nothing about budgets when a call uses more tokens than its estimate, because the source records the excess and the window is then over budget.
- BackendObject.Backend.SweepCases: the source reads its snapshot and makes all writes of one sweep in one transaction that commits once (`case_lifecycle.py:890-914`); here each write is a visible step of its own, so nothing is said about a sweep committing or rolling back as a whole. Every theorem about runs holds of the finer steps.
- SenderProgress.EveryDraftComesUp: counts only ticks that finish their batch; a tick that meets its deadline or raises leaves the rest of its batch to the next one.
- SendSafety.AtMostOneSend: does not say that a claimed draft is ever sent; a row left in `sending` by a crash is the designed outcome.
