# Paschal verification

A model of the parts of Paschal that must not go wrong while nobody is watching, and proofs about
them: the dead-man's switch that releases a principal's letters, the scoring that sets it off, the
move of attachments between storage regions, the rate limiter, the erasure sweeps, the hold on a
change of recipient, the migration runner, and two codecs. Main results hold of whole runs of any
number of replicas, timers, poll loops, handlers, failures and crashes. What may come between the
statements of one handler is said below.

`dafny verify dfyconfig.toml` checks the whole project.

## How it is modelled

Database tables are sequences and maps, ids are positions or fresh names, time is one monotone
clock in whole seconds (real seconds in the rate limiter). A protocol is a step function over its
tables and the volatile state of its actors. Handlers and workers that the program writes as
statements and loops are methods of a class that holds the tables as fields; each gives its new
state as a step of the machine or returns, as a ghost result, the run of steps it has made. So what
is proved of runs holds of these methods. What they do to the rows when left alone they state besides, in
terms of rows, letter modes and inequalities rather than of the step functions. Any statement may fail; a
`healthy` server or worker is one whose statements do not, and of it the methods say that they finish.

| file | what |
|---|---|
| `Domain.dfy`, `Scoring.dfy`, `Escalation.dfy` | the trigger score, `evaluate`, and the aggregator over whole runs |
| `ReleaseModel.dfy` | the release protocol as a step system, and what each step may write |
| `ReleaseCounting.dfy` | statement level: how often a release is claimed and delivered, and when |
| `ReleaseRepeats.dfy` | exactly when one event delivers a letter twice |
| `ReleaseCancels.dfy` | statement level: exactly when a cancel stops its release |
| `ReleaseDeadlines.dfy` | whole handlers: deadlines under their exact condition |
| `ReleaseDurability.dfy`, `Deliveries.dfy` | what survives a crash; what a release issues |
| `ReleaseStatements.dfy` | whole handlers as runs of their statements |
| `ReleaseLetters.dfy` | what the principal wrote is what the release works with |
| `ReleaseEdges.dfy` | which edges of `can_transition` are taken, and what else |
| `ReleaseInvariant.dfy`, `ReleaseSafety.dfy` | orderly handlers: one open deadline a vault, and releases under their own event |
| `ReleaseRaces.dfy` | runs that go wrong; four break one condition of orderliness each |
| `ReleaseEffects.dfy`, `Beacon.dfy` | the statements, handlers and workers of the protocol as methods, and what they do to the rows |
| `BlobKeys.dfy`, `RegionMove.dfy`, `RegionService.dfy` | storage keys, the region move as a step system, and its handler |
| `RateLimiter.dfy` | the token bucket |
| `Erasure.dfy`, `ErasureLaws.dfy`, `ErasureHarm.dfy`, `RetentionWorker.dfy` | the erasure sweeps as a step system, their guarantees, exactly which late inserts outlive them, and the worker's loops |
| `ErasureTimes.dfy`, `ErasureKeeps.dfy` | when a sweep may come, and what no sweep may touch |
| `RecipientChange.dfy`, `Migrations.dfy` | two smaller protocols with their code |
| `Transform.dfy`, `Encodings.dfy` | line endings and ID3 tags; base64url and hexadecimal |

The release protocol is proved at three levels.

- Statement level (`ReleaseCounting`, `ReleaseCancels`, `ReleaseLetters`, `Escalation`): any run. A handler that
  reads and then writes carries what it read, so its write may be stale; the event of a claimed
  vault may be inserted, and the event of a cancelled one closed, after other actors' steps; and
  perform_release may be taken statement by statement. Only the event-letter trigger is cut by a
  crash alone. A whole handler is a run of its statements (`ReleaseStatements`).
- Whole handlers (`ReleaseDeadlines` but for `EntryHarmfulIff` and `LeavesReleasedIff`, which are of any
  step; in `ReleaseDurability` what is recorded; in `ReleaseRepeats` the deliveries of the one event in
  question): nobody comes between the statements of a handler, but observations may be stale, a cancel
  may leave its event open, tickets and events may be left over.
- Orderly handlers (`ReleaseSafety.OrderlyStep`): whole handlers, and besides a cancel and an
  aggregator write act on the state the vault is in, a cancel closes the event it finds, and a vault
  does not enter COOLING_OFF while a ticket (a sleeping timer, or a row the poll loop has listed) of
  an earlier episode of its is out.

## What the proofs found

Where the code does not do what its comments or names promise, the model keeps the code, a lemma
gives a run, and another says when the promise holds.

- A claim tests the vault, not the event. After a cancelled drill its timer can claim the real
  release that follows, early, run it as a drill, and leave the real event open
  (`OldTimerReleasesEarly`). The poll loop does the same through an event that outlived its episode:
  after a cancel that did not close it (`UnclosedEventReleasesEarly`) or a stale aggregator write
  (`StaleWriteReleasesEarly`). Exactly when: whoever enters, a claim can come before the deadline if
  and only if an older ticket of the vault wakes, or an open event of its falls due, before it
  (`EntryHarmfulIff`); without such entries no release is ever early (`ReleaseDeadlines.DeadlineSafety`).
- A cancel writes without looking again (`LateCancelIsOverrun`). Exactly when it fails: something has
  been, or without a new cooling-off still can be, delivered under the event that was open when the
  cancel read if and only if since then a claim for that event took the vault from COOLING_OFF to
  RELEASING, and that release has not ended with nothing issued (`CancelFailsIff`, `AbandonsHow`). One
  that does not fail stops its release for good, unless the vault later cools off anew while an old
  ticket for that very event is out (`CancelStopsRelease`).
- A letter can go out twice under one event: a due drill's timer and its row on the poll's list are two
  tickets, and the second wins when the vault is drilled again (`DrillDeliversTwice`). Exactly when: a
  claim that wins for an event can, without a further win of its, be followed by a second claim of a
  letter or attachment under it if and only if the event had started (`SecondWinRepeatsIff`); an event
  that never wins again once it has started repeats nothing (`NoDoubleDelivery`).
- The writes of a cancel and of the aggregator do not ask what state the vault is in, nor do the closing
  writes of perform_release. So RELEASED can be left: by a cancel or an aggregator that read the vault
  before, or by a drill that ends late, cancelled while it delivered and overtaken by a real release
  (`LateDrillReopens`). Exactly these three take a vault out of RELEASED, in any world
  (`LeavesReleasedIff`).
- The aggregator checks for duress and then claims. It opens a cooling-off during duress if and only if
  the signal was triggered in between and not cleared again (`EntryUnderDuressIff`, `LateDuressEnters`).
- A crash between claiming a vault for COOLING_OFF and recording its deadline, of a begin, of the
  aggregator or of the duress webhook, strands the vault if nothing older is left
  (`InterruptedEntryStrands`): only its principal's cancel moves it, or an aggregator's stale write
  (`StrandedIff`, `StrandedForGood`).
- With the default weights the three sources the aggregator reads cannot reach the shipped threshold
  of 0.7: an alert is possible exactly when the threshold squared is at most 0.1574 and at most three
  classes are asked for (`DefaultAlertPossible`, `DefaultsNeverAlert`).
  Without the death registry, which it does not read, no reports at default weights reach 0.7, all ten
  other sources at full strength included (`ReachableThresholds`).
- `evaluate` jumps ACTIVE to ALERT, two edges of `can_transition` at once (`EvaluateFollowsEdges`). Orderly
  steps take every edge of it but the one to ARCHIVED, and besides these three: that jump, SUSPICIOUS to
  COOLING_OFF by the duress webhook, and RELEASING to ACTIVE at the end of a drill (`EdgesTakenIff`).
- A leftover blob of a region move is never reclaimed by a later move (`ForgottenForGood`), although
  a comment says so; with a single store the move copies every blob and leaves keys without a region.
- The rate limiter reads its clock before taking its lock. A thread that arrives late moves the refill
  mark back and the bound fails (`LateThreadBreaksBound`). In every run the accepted checks of an IP are
  bounded by the forward moves of its own clock readings (`SpentAtMost`), and with what is left and what the
  cap threw away add up to them exactly (`TokensAccounted`): the promised bound holds of a
  window in which those move forward by no more than its length (`RateBound`), as in clock order they
  do (`OwnForwardInOrder`). A refused check changes no answer of those who come later exactly when its
  reading is no older than the refill mark, as long as none of them has an earlier reading
  (`RefusedChecksDoNotCount`), and exactly when its reading is the refill mark if some may
  (`RefusedChecksNeverCount`). Either failure can turn a refusal into an acceptance (`LateRefusalCounts`,
  `EarlyReadingCounts`).
- A subscription that is reactivated and cancelled anew after the sweep has listed it is expired and
  erased at once, whatever the retention of the new cancellation (`RecancelledIsExpired`); exactly when
  such a cancellation has moved the end past now (`ExpiredEarlyIff`).
- The retention sweep purges a principal who reactivated between listing and expiry
  (`ReactivatedIsErased`); its purge is that of an EXPIRED subscription exactly when the subscription was
  still CANCELED, or EXPIRED already, when taken (`TakeExpiresIff`). A crash in the purge leaves the
  subscription EXPIRED for good (`CrashLeavesExpired`). A file inserted by a seal that passed its check
  before the expiry can survive the purge (`LateFileSurvives`). Exactly when a late letter or file
  can outlive the erasure of its principal: its owner is already DELETED or anonymised, or the purge
  under way, of an expired subscription or of a due account, is past its place
  (`LateInsertHarmsIff`); in runs without such inserts the erasure promises hold.
- An event trigger applies the latest pending recipient change only, so a due one can hide behind a
  newer one (`TriggerMissesIff`), and a change requested before a letter fired is applied to it
  afterwards (`AppliedAfterFiring`): left alone from any moment on, a letter's address stays put exactly
  when no change to another address is pending for it then (`AddressFixedIff`). The hold guards changes
  only; an edit of the letter by its principal sets the address at once.
- The ID3 stripper looks at no flags, so an ID3v2.4 footer stays in front of the audio (`FooterStays`).
- Normalising text twice differs from once exactly on texts that begin with two byte-order marks
  (`NormaliseTwice`).
- Comments say a source counts towards the classes "above 0.2" and that a request is refused at "zero
  tokens"; the code counts from 0.2 on, and refuses below one token. The model follows the code.

## Model

| member | source | states |
|---|---|---|
| Scoring.Score | crates/beacon-core/src/lib.rs:809-826 | the scoring loop computes the sum of squared weighted contributions and the number of distinct classes contributing at least 0.2 |
| Scoring.ScoreThreshold | crates/beacon-core/src/lib.rs:797-824 | the clamped root reaches a threshold exactly when the sum reaches its square (0 < t <= 1), always for t <= 0, never for t > 1 |
| Scoring.ScorePermutation | crates/beacon-core/src/lib.rs:809-826 | the score does not depend on the order of observations |
| Scoring.SumSqMonotone | crates/beacon-core/src/lib.rs:809-819 | stronger contributions or weights never lower the score |
| Scoring.AlertMonotone | crates/beacon-core/src/lib.rs:797-826 | stronger evidence never withdraws an alert, classes included |
| Scoring.EvaluateFollowsEdges | crates/beacon-api/src/scheduler.rs:332-373 | every decision is a path of at most two edges of the state machine; the only two-edge one is ACTIVE to ALERT |
| Scoring.ObserveVault | crates/beacon-api/src/scheduler.rs:170-252 | one vault's turn pushes heartbeat, strongest buddy and bank observations and scores them |
| Scoring.ScoreOfReading | crates/beacon-api/src/scheduler.rs:170-252 | the score of any reading in closed form: the first enabled weight of each source, times the clamped staleness for heartbeat and for a silent bank, times 0.20 or 0.35 for the strongest buddy worry; classes count from a strength of 0.2 on |
| Scoring.StalenessIs | crates/beacon-api/src/scheduler.rs:175-190 | staleness is 0 before, 1 from the gap on, and the quotient in between |
| Scoring.DefaultScoreCeiling | crates/beacon-core/src/lib.rs:447-459 | default weights bound the sum by 0.1574 over at most three classes, whatever is read |
| Scoring.LoudestScore | crates/beacon-api/src/scheduler.rs:175-252 | some reading attains that bound |
| Scoring.DefaultAlertPossible | crates/beacon-api/src/scheduler.rs:175-257 | with default weights an alert is possible if and only if the threshold is within that bound and at most three classes are asked for |
| Scoring.ReachableThresholds | crates/beacon-core/src/lib.rs:446-461 | of reports of distinct sources at default weights, those without the death registry reach exactly the thresholds whose square is at most 0.4524, and so not 0.7; all eleven sources up to 0.8124 |
| Scoring.CalmNeverCrosses | crates/beacon-api/src/scheduler.rs:339-340 | a score below 0.1 and half the threshold does not cross the threshold |
| Scoring.HeartbeatCalms | crates/beacon-api/src/scheduler.rs:175-249 | a recent heartbeat, no buddy worry and no bank evidence (no bank subscription, or a recent bank signal) make such a score |
| Escalation.AlertHasEvidence | crates/beacon-api/src/scheduler.rs:257-318 | only an aggregator turn whose evidence crosses the threshold writes ALERT, stale turns included |
| Escalation.EscalationHistory | crates/beacon-api/src/scheduler.rs:257-373 | in any run, before every entry into COOLING_OFF by the aggregator an earlier turn crossed the full threshold; the vault stayed in ALERT since, and every turn that had read it there saw the soft threshold and, but for the last, had read that the principal is in duress |
| Escalation.DuressStep | crates/beacon-db/src/lib.rs:2512-2600 | duress begins with a trigger of an armed signal and ends with a disarm or an arm anew; no other step touches it |
| Escalation.DuressRowStep | crates/beacon-db/src/lib.rs:2512-2600 | of all steps only arming sets whether duress releases; a trigger finds it as chosen |
| Escalation.EntryUnderDuressIff | crates/beacon-api/src/scheduler.rs:268-283 | in any run, an aggregator's entry into COOLING_OFF happens during duress if and only if duress was triggered after its check and before its claim, and not cleared again |
| Escalation.DefaultsNeverAlert | crates/beacon-api/src/scheduler.rs:175-257 | with default weights and a policy out of their reach no run ever reaches ALERT or an aggregator-made cooling-off |
| Escalation.ShippedPolicyOutOfReach | crates/beacon-api/src/state.rs:99 | the shipped threshold of 0.7 is such a policy, whatever is read and however many classes are asked for |
| Escalation.VerdictLands | crates/beacon-api/src/scheduler.rs:332-373 | state by state and as inequalities on score and classes, where a turn wants its vault: ALERT if and only if it was ACTIVE or SUSPICIOUS on full evidence or in ALERT held by duress on half of it, and likewise SUSPICIOUS, ACTIVE and COOLING_OFF |
| Escalation.FreshTurnEffect | crates/beacon-api/src/scheduler.rs:257-328 | what one fresh turn does to the tables, in those terms |
| Escalation.CrossingReleases | crates/beacon-api/src/scheduler.rs:257-373 | with no other actor and no duress, one completed turn on full evidence raises an ACTIVE or SUSPICIOUS vault to ALERT, the next opens the cooling-off, and there it stays; from any watchable state at most two are needed |
| Escalation.CalmTurnLowers | crates/beacon-api/src/scheduler.rs:332-373 | a calm turn lowers ALERT to SUSPICIOUS, SUSPICIOUS to ACTIVE |
| Escalation.CalmRecovers | crates/beacon-api/src/scheduler.rs:332-373 | with no other actor, calm turns bring any watchable vault to ACTIVE within two turns and keep it there |
| ReleaseCounting.ClaimConservation | crates/beacon-db/src/lib.rs:1414-1441 | in any run, stale cancels and late inserts included, entries of a vault into COOLING_OFF equal release claims plus other exits plus one if it is cooling now |
| ReleaseCounting.OneClaimPerEpisode | crates/beacon-db/src/lib.rs:1414-1421 | between two successful release claims of a vault it entered COOLING_OFF anew |
| ReleaseCounting.PerformsAreClaimed | crates/beacon-api/src/scheduler.rs:473-520 | deliveries ended and under way, whole or statement by statement, are no more than the release claims that succeeded |
| ReleaseCounting.OneReleasePerEpisode | crates/beacon-api/src/scheduler.rs:473-520 | deliveries over and under way number at most one per entry, whatever replicas, timers, polls, cancels and crashes do between the statements of any handler |
| ReleaseCounting.EventLetterOnce | crates/beacon-db/src/lib.rs:1106-1118 | a held event letter fires at most once over any run |
| ReleaseCounting.NoEarlyDelivery | crates/beacon-api/src/scheduler.rs:649-691 | in any run no claim is issued before the deadline of its event |
| ReleaseRepeats.NoDoubleDelivery | crates/beacon-api/src/scheduler.rs:525-691 | in any run, an event whose deliveries are whole and that wins no release claim once it has started issues no two claims for one letter or attachment |
| ReleaseRepeats.SecondWinRepeatsIff | crates/beacon-api/src/scheduler.rs:473-520 | when such an event wins a claim, some continuation with whole deliveries and without a further win of its claims a letter or attachment twice under it if and only if it had started |
| ReleaseRepeats.DeliversAgain | crates/beacon-api/src/scheduler.rs:655-663 | a release under way claims anew whatever has been claimed under its event already and still fires |
| ReleaseCounting.AbandonsHow | crates/beacon-api/src/scheduler.rs:649-691 | a started release ends with nothing issued only in a crash or at the end of a perform_release |
| ReleaseCounting.PollSettles | crates/beacon-api/src/scheduler.rs:508-520 | amid any other actors, an event due at a poll has its vault out of COOLING_OFF by the time the poll reaches its row |
| ReleaseModel.WhoWrites | crates/beacon-db/src/lib.rs:689-712 | every change of a vault's state is one of the listed writes under its condition, and every such write takes effect |
| ReleaseEdges.EdgesTakenIff | crates/beacon-core/src/lib.rs:748-763 | some orderly step takes a vault from one state to another if and only if that is an edge not to ARCHIVED, or one of three named shortcuts |
| ReleaseStatements.WholeBegin | crates/beacon-api/src/scheduler.rs:393-451 | a begin is its claim followed by its insert and timer |
| ReleaseStatements.WholeAggregate | crates/beacon-api/src/scheduler.rs:283-318 | an aggregator turn is its write followed, if it entered COOLING_OFF, by its insert |
| ReleaseStatements.WholeCancel | crates/beacon-api/src/routes.rs:1241-1255 | a cancel is its write followed by the closing of the newest open event, if there is one |
| ReleaseStatements.WholePerform | crates/beacon-api/src/scheduler.rs:649-691 | perform_release, wherever it stops, is a run of single claims and then its closing writes in order, for any number of letters and files |
| ReleaseDeadlines.EntryHarmfulIff | crates/beacon-api/src/scheduler.rs:393-520 | after any kind of entry, time, polls and claims can lead to a claim before its deadline if and only if an older ticket wakes or an open event of the vault falls due before it |
| ReleaseDeadlines.StepKeepsDeadlineInv | crates/beacon-api/src/scheduler.rs:393-691 | every whole handler whose entry, if any, is not harmful keeps each cooling vault shut until the deadline of its newest event |
| ReleaseDeadlines.DeadlineSafety | crates/beacon-api/src/scheduler.rs:393-520 | in every run of whole handlers without a harmful entry a vault enters RELEASING only by a claim, and only when its newest event is open, uncancelled and due |
| ReleaseSafety.StepKeepsInv | crates/beacon-api/src/scheduler.rs:393-691 | every orderly step keeps the invariant tying vault states, open events, tickets, deliveries under way and issued claims |
| ReleaseSafety.OneOpenDeadline | crates/beacon-db/src/lib.rs:1382-1526 | a vault has at most one open event with a deadline, and none while it is watched |
| ReleaseSafety.OnlyClaimsRelease | crates/beacon-db/src/lib.rs:1414-1421 | only a winning claim moves a vault into RELEASING, in any world |
| ReleaseSafety.ReleasesOwnEvent | crates/beacon-api/src/scheduler.rs:473-491 | in orderly runs the claim that moves a vault into RELEASING is that of the ticket of its one open, uncancelled event, at or after that event's deadline |
| ReleaseCancels.CancelFailsIff | crates/beacon-api/src/routes.rs:1241-1255 | after a cancel's write, however long after its read, something has been or can still be delivered under the event if and only if a claim for it won since the read and that release has not ended with nothing issued; in any run, whether or not the cancel closes the event |
| ReleaseCancels.CancelStopsRelease | crates/beacon-api/src/routes.rs:1234-1269 | a cancel that writes before its release has started, with the event closed then, stops it for good in any run that does not let the vault cool off anew while a ticket for that event is out |
| ReleaseCancels.OrderlyCancelStops | crates/beacon-api/src/routes.rs:1234-1269 | in orderly runs every cancel that finds an open event does so |
| ReleaseCancels.OrderlyDeliversOnce | crates/beacon-api/src/scheduler.rs:525-691 | in orderly runs no event issues two claims for one letter or attachment |
| ReleaseCancels.LateCancelFails | crates/beacon-api/src/routes.rs:1241-1255 | in any world, a cancel that writes while a release is under way leaves it to issue every claim it owes; if its event is the newest open one of the vault, as in orderly runs it is, they go out under an event that cancel has closed |
| ReleaseDeadlines.LeavesReleasedIff | crates/beacon-db/src/lib.rs:689-712 | in any world and of all steps, exactly a cancel's or an aggregator's unconditional write and the closing write of a drill's release take a vault out of RELEASED |
| ReleaseDeadlines.ReleasedAbsorbing | crates/beacon-api/src/scheduler.rs:649-691 | a vault does not leave RELEASED in a run in which no cancel or aggregator writes over a state of it that it has not read and nobody comes between the statements of its releases |
| ReleaseSafety.NewestOpenFinds | crates/beacon-db/src/lib.rs:1504-1526 | the open event a cancel closes is the newest open one of the vault |
| ReleaseSafety.DueTicketsShape | crates/beacon-db/src/lib.rs:1447-1474 | the poll lists exactly the due events of cooling vaults |
| ReleaseRaces.OldTimerReleasesEarly | crates/beacon-api/src/scheduler.rs:473-491 | a run, orderly but for one re-entry, in which an old timer claims a new episode early |
| ReleaseRaces.UnclosedEventReleasesEarly | crates/beacon-api/src/routes.rs:1244-1255 | a run, orderly but for one unclosed cancel, in which the poll loop claims early |
| ReleaseRaces.StaleWriteReleasesEarly | crates/beacon-api/src/scheduler.rs:310-318 | a run, orderly but for one stale aggregator write, in which the poll loop claims early |
| ReleaseRaces.LateCancelIsOverrun | crates/beacon-api/src/routes.rs:1241-1255 | a run, orderly but for one stale cancel, in which a release goes out though its cancellation was answered OK |
| ReleaseRaces.DrillDeliversTwice | crates/beacon-api/src/scheduler.rs:473-520 | a run of whole handlers in which a drill's event wins a second time and its letter goes out twice |
| ReleaseRaces.LateDrillReopens | crates/beacon-api/src/scheduler.rs:664-685 | a run of whole handlers in which a drill's closing write makes a RELEASED vault ACTIVE |
| ReleaseRaces.LateDuressEnters | crates/beacon-api/src/scheduler.rs:268-283 | a run in which the aggregator, having found no duress, opens a cooling-off after the signal was triggered |
| ReleaseDurability.RunKeepsRecorded | crates/beacon-api/src/scheduler.rs:393-451 | if no handler dies or is overtaken between its statements, every cooling vault has its deadline in the database, whatever is stale, unclosed or left over |
| ReleaseDurability.RecordedReleaseSurvives | crates/beacon-api/src/scheduler.rs:508-520 | after losing every timer and delivery under way, one poll releases a due vault under its own event with everything that fires |
| ReleaseDurability.InterruptedEntryStrands | crates/beacon-api/src/scheduler.rs:283-309 | a begin, an aggregator's turn or a duress webhook that dies between its claim and its insert leaves a vault cooling with no deadline and no timer, exactly when no older ticket, delivery or open deadline of the vault was left; in orderly runs none is |
| ReleaseDurability.StrandedIff | crates/beacon-api/src/scheduler.rs:497-520 | of all steps exactly its principal's cancel, a stale aggregator write and the late insert of its event move such a vault |
| ReleaseDurability.StrandedForGood | crates/beacon-api/src/scheduler.rs:497-520 | so in any run without these it is stranded for good |
| Deliveries.DeliveryExact | crates/beacon-db/src/lib.rs:934-958 | a release issues exactly one claim per letter that fires on a signal and one per attachment of those letters, to the letter's current address, and none for other modes |
| Deliveries.PerformDelivers | crates/beacon-api/src/scheduler.rs:649-691 | a perform_release without delivery failure adds exactly those claims, bound to its event |
| Deliveries.ReleaseIssues | crates/beacon-api/src/scheduler.rs:649-691 | by mode: of each letter of the vault and each of its files exactly one claim if the mode is SIGNAL_OR_SCHEDULED or SIGNAL_ONLY and none otherwise, to the letter's address, now, and nothing else |
| Deliveries.LetterIssues | crates/beacon-api/src/scheduler.rs:525-597 | delivering one letter issues its claim first and then one for each of its files and for no other |
| ReleaseLetters.SealedIsDelivered | crates/beacon-db/src/lib.rs:777-808 | in any run at statement level, a letter sealed into an ACTIVE vault and not edited since goes out in a release of that vault, once, with each file it was sealed with, to the address it was sealed with, exactly if its mode fires on a signal |
| ReleaseLetters.EditedIsDelivered | crates/beacon-db/src/lib.rs:1061-1093 | after an edit, in the mode and to the address of the last edit |
| ReleaseLetters.PeriodAsSet | crates/beacon-db/src/lib.rs:1041-1059 | an entry by the aggregator or the duress webhook records the cooling-off last set for the vault, whatever came in between |
| BeaconServer.Beacon.ClaimVaultForRelease | crates/beacon-db/src/lib.rs:1414-1421 | the conditional update succeeds exactly on COOLING_OFF, for the caller that moved it |
| BeaconServer.Beacon.ClaimVaultCoolingOff | crates/beacon-db/src/lib.rs:1426-1441 | the conditional update succeeds exactly from the prior state given |
| BeaconServer.Beacon.BeginRelease | crates/beacon-api/src/scheduler.rs:393-451 | the vault cools off from now, its event and timer are due after the period but a second at least; only the vault if the insert failed after the claim, nothing if it was not ACTIVE |
| BeaconServer.Beacon.CancelObserved | crates/beacon-api/src/routes.rs:1241-1255 | on a vault read in COOLING_OFF, however long ago: it is ACTIVE, and its newest open event, if any, cancelled, unless the second statement failed |
| BeaconServer.Beacon.CancelRelease | crates/beacon-api/src/routes.rs:1234-1269 | the handler left alone: the same on the state it finds, refused exactly if that is not COOLING_OFF |
| BeaconServer.Beacon.AggregatorWrites | crates/beacon-api/src/scheduler.rs:260-328 | one vault's turn from its duress check on is the aggregator step on the state and the duress it read, however long ago; cut short, it has written nothing, or claimed without an event |
| BeaconServer.Beacon.AggregatorTick | crates/beacon-api/src/scheduler.rs:150-328 | each listed vault lands where score, classes, threshold and duress say, as inequalities, with a deadline recorded for each that entered COOLING_OFF and for no other; a run of fresh aggregator steps; cut short by an error it has moved no vault otherwise; without failure it completes |
| BeaconServer.Beacon.DuressWebhook | crates/beacon-api/src/routes.rs:2949-3031 | in release mode every watchable vault of the principal ends cooling with its deadline recorded, or, where a swallowed failure hit it, untouched or claimed without; no other vault moves; the aggregator is frozen |
| BeaconServer.Beacon.DeliverLetter | crates/beacon-api/src/scheduler.rs:525-597 | issues a prefix of the letter's claims, all of them on success |
| BeaconServer.Beacon.DeliverAll | crates/beacon-api/src/scheduler.rs:655-672 | the loop issues a prefix of the release's claims, all of them on success |
| BeaconServer.Beacon.PerformRelease | crates/beacon-api/src/scheduler.rs:649-691 | the perform step, and by row: one claim for each letter whose mode fires on a signal and each of its files, then the vault RELEASED (ACTIVE after a drill) and the event released, or the first of these |
| BeaconServer.Beacon.TriggerEventRelease | crates/beacon-api/src/scheduler.rs:604-644 | applies the due change of recipient, then marks the letter, opens an event, issues one claim for it and each of its files, to the new address if there was one, and closes the event; cut short, the first of these; fires exactly on a held event letter of a RELEASED vault unless the first statement fails |
| BeaconServer.Beacon.Elapse | crates/beacon-api/src/scheduler.rs:473-491 | claims its vault exactly if it is COOLING_OFF, and then releases it as perform_release does |
| BeaconServer.Beacon.ReleaseElapseTick | crates/beacon-api/src/scheduler.rs:508-520 | after a tick no vault whose event was due at its start is COOLING_OFF, even if deliveries failed; if none did, each has been released under a due event of its own with everything that fires sent; vaults without a due event are untouched |
| BlobKeys.RegionKeyRoundTrip | crates/blob-store/src/lib.rs:52-57 | a region-encoded key splits into its region and id exactly when the region has no colon |
| BlobKeys.BareKeyRoundTrip | crates/blob-store/src/lib.rs:52-57 | a bare key stays bare exactly when it has no colon |
| BlobKeys.ParseKeyLosesNothing | crates/blob-store/src/lib.rs:52-57 | a key is put together again from its parts |
| BlobKeys.PutKeyLocates | crates/blob-store/src/s3.rs:200-219 | the key a put answers with leads get and delete to the region and id it stored under |
| BlobKeys.BareKeyIsHome | crates/blob-store/src/s3.rs:200-219 | a key without a colon is the router's home's |
| RegionMoves.StepKeepsInv | crates/beacon-api/src/routes.rs:521-543 | every step of every mover, seal and deletion keeps the invariant on rows, blobs and copies in flight |
| RegionMoves.NothingLost | crates/beacon-api/src/routes.rs:521-543 | under any interleaving of movers, seals, deletions, errors, crashes and re-runs every recorded attachment reads back the bytes sealed for it |
| RegionMoves.OrphanBound | crates/beacon-api/src/routes.rs:527-541 | blobs no row refers to number at most the earlier strays, the crashes, failed deletes, lost puts, unrecorded seals and overtaken repoints since, and the movers under way |
| RegionMoves.ForgottenForGood | crates/beacon-api/src/routes.rs:538-540 | a blob that no row and no mover refers to is never removed by any later move |
| RegionMoves.SealedReads | crates/beacon-api/src/routes.rs:1590-1634 | a file sealed and recorded in one of the three regions reads back at once and changes no other row |
| RegionMoves.SkipsOrFetches | crates/beacon-api/src/routes.rs:521-526 | a mover passes over exactly the attachments whose key says the target already, and fetches the others |
| RegionMoves.PurgedIsGone | crates/beacon-api/src/scheduler.rs:786-804 | a purged file's row is gone, its blob too unless that failed, and every other file reads as before |
| RegionService.Service.MoveOne | crates/beacon-api/src/routes.rs:522-541 | one attachment's fetch, copy, repoint and delete are a run of steps; on success its key is in the target |
| RegionService.Service.MoveVaultRegion | crates/beacon-api/src/routes.rs:494-543 | a completed run leaves every key of the vault, then the vault, in the target; a failed one leaves the vault's region; mishaps are at most failed deletes plus one if it failed; where nothing fails it completes exactly for the three regions, without a failed delete |
| RateLimiting.RateLimiter.Check | crates/beacon-api/src/rate_limit.rs:55-77 | the check answers and updates its IP's bucket as specified |
| RateLimiting.TokensBounded | crates/beacon-api/src/rate_limit.rs:63-70 | tokens stay within [0, capacity] on every run |
| RateLimiting.SpendingIsPaid | crates/beacon-api/src/rate_limit.rs:55-77 | in any run, accepted checks plus what is left never exceed the level at the window's start plus the refill for every forward move of the clock readings |
| RateLimiting.SpentAtMost | crates/beacon-api/src/rate_limit.rs:55-77 | in any run, in clock order or not, one IP gets at most capacity + f * capacity / 60 accepted checks, f counting every forward move of its own readings |
| RateLimiting.RateBound | crates/beacon-api/src/rate_limit.rs:41-77 | an IP gets at most capacity + T * capacity / 60 accepted checks in a window in which its own clock readings move forward by at most T seconds |
| RateLimiting.OwnForwardInOrder | crates/beacon-api/src/rate_limit.rs:56-66 | its readings in clock order move forward by exactly the time from the first to the last |
| RateLimiting.LateThreadBreaksBound | crates/beacon-api/src/rate_limit.rs:56-66 | out of clock order it can get more |
| RateLimiting.OthersHaveNoEffect | crates/beacon-api/src/rate_limit.rs:58-61 | an IP's bucket after a run is its bucket after its own requests alone |
| RateLimiting.RefusalTracelessIff | crates/beacon-api/src/rate_limit.rs:63-76 | no reading from the refused check's own on tells the bucket after it from the bucket before it exactly when that reading is no older than the refill mark |
| RateLimiting.LateRefusalPays | crates/beacon-api/src/rate_limit.rs:63-76 | an older reading credits the time in between twice |
| RateLimiting.LateRefusalCounts | crates/beacon-api/src/rate_limit.rs:63-76 | numbers with which a late refused check turns the next refusal into an acceptance |
| RateLimiting.RefusedChecksDoNotCount | crates/beacon-api/src/rate_limit.rs:63-76 | striking a refused check changes no later answer to any IP, in all traffic without an earlier reading that may follow, exactly when its reading is no older than the refill mark |
| RateLimiting.RefusedChecksNeverCount | crates/beacon-api/src/rate_limit.rs:56-76 | in all traffic that may follow, late threads included, exactly when its reading is the refill mark |
| RateLimiting.EarlyReadingCounts | crates/beacon-api/src/rate_limit.rs:56-76 | numbers with which a refused check turns the refusal of a thread with an earlier reading into an acceptance |
| RateLimiting.RetryAfterExact | crates/beacon-api/src/rate_limit.rs:71-76 | after a refusal answering s, with no accepted check in between, in any order, one s seconds later succeeds; and with its own checks in order and s >= 2, one at most s - 1 seconds later is refused |
| RateLimiting.FirstChecksAccepted | crates/beacon-api/src/rate_limit.rs:55-77 | of an IP without a bucket the first capacity checks are all accepted, whatever the readings, their order and the other traffic |
| RateLimiting.AtOnceExact | crates/beacon-api/src/rate_limit.rs:55-77 | at one reading exactly the first capacity are |
| RateLimiting.TokensAccounted | crates/beacon-api/src/rate_limit.rs:55-77 | in any run, late threads included: accepted checks, tokens left and tokens lost over the rim add up to capacity plus capacity / 60 for every second its readings moved forward |
| Erasure.StepKeepsInv | crates/beacon-api/src/scheduler.rs:748-804 | every step of the worker, of authoring and of account changes but a harmful late insert keeps the erasure invariant, for each promise of one sweep to one principal |
| Erasure.HarmlessIff | crates/beacon-api/src/routes.rs:1570-1634 | a step breaks the invariant of one sweep and one principal if and only if it is a late letter or file of that principal, after that sweep has finished with it or in a place that its purge under way has passed |
| ErasureHarm.LateInsertHarmsIff | crates/beacon-api/src/routes.rs:1570-1634 | a late letter or file can still be there, by steps of the worker alone, when its principal is DELETED, or anonymised with it in scope, if and only if its insert is such a step for that sweep |
| ErasureLaws.WholeSealsAreCareful | crates/beacon-api/src/routes.rs:1570-1634 | runs in which no seal is interrupted have no such insert |
| ErasureLaws.DeletedMeansErased | crates/beacon-api/src/scheduler.rs:751-764 | in runs in which no late insert harms that principal's retention purge, a subscription is DELETED only if every letter of its principal has empty main and drill ciphertext and no attachment row remains |
| ErasureLaws.OthersUntouched | crates/beacon-api/src/scheduler.rs:786-804 | in any run a worker step changes no letter or attachment of any principal but the one it is at |
| ErasureLaws.RetentionPurgesExpired | crates/beacon-db/src/lib.rs:1656-1684 | in runs without a reactivation between listing and expiry the sweep purges only EXPIRED subscriptions |
| ErasureLaws.TakeExpiresIff | crates/beacon-db/src/lib.rs:1676-1684 | the purge that follows is that of an EXPIRED subscription exactly when it was CANCELED, or EXPIRED already, when taken |
| ErasureLaws.ReactivatedIsErased | crates/beacon-api/src/scheduler.rs:751-756 | a run in which a reactivated subscription's letters are erased |
| ErasureLaws.LateFileSurvives | crates/beacon-api/src/routes.rs:1590-1634 | a run in which a file added late by a seal leaves a DELETED subscription with an attachment |
| ErasureLaws.CrashLeavesExpired | crates/beacon-db/src/lib.rs:1656-1684 | after a crash in its purge a subscription stays EXPIRED in every run without a new cancellation |
| ErasureLaws.PurgedAfterThirtyDays | crates/beacon-api/src/routes.rs:1801-1806 | in any run the sweep purges an account only thirty days or more after the request it holds |
| ErasureLaws.FirstRequestHolds | crates/beacon-db/src/lib.rs:370-389 | that request is the first since the last cancellation: repeated requests do not move the window |
| ErasureLaws.DueUntilAnonymised | crates/beacon-db/src/lib.rs:391-423 | once due, no cancel succeeds and no crash is forgotten: the account stays due until anonymised, and the next sweep lists it |
| ErasureLaws.SweepErasesWhatItFound | crates/beacon-api/src/scheduler.rs:767-772 | in runs in which no late insert harms that account's purge, when an account is about to be anonymised, every letter it had when the sweep took it is erased or deleted |
| ErasureLaws.ErasedUnlessAttached | crates/beacon-db/src/lib.rs:1256-1268 | of all steps exactly a file added to it gives an erased letter something to erase again |
| ErasureLaws.ErasedForGood | crates/beacon-db/src/lib.rs:1256-1268 | over any run without such a file, what has been erased is never written again |
| ErasureTimes.OnlyTakesExpire | crates/beacon-db/src/lib.rs:1676-1684 | of all steps exactly the retention sweep's take of a CANCELED subscription writes EXPIRED |
| ErasureTimes.TakenAfterRetention | crates/beacon-db/src/lib.rs:1656-1684 | in any run the retention sweep takes only whom it listed as CANCELED at an earlier waking, at or after the clock of the last cancellation before that plus the days it gave |
| ErasureTimes.DeletedAfterRetention | crates/beacon-db/src/lib.rs:1686-1694 | so every subscription that becomes DELETED |
| ErasureTimes.ExpiredEarlyIff | crates/beacon-db/src/lib.rs:1656-1684 | a take comes before the retention the subscription has then if and only if the last cancellation since the listing moved its end past now |
| ErasureTimes.RecancelledIsExpired | crates/beacon-db/src/lib.rs:1639-1684 | a run in which a subscription cancelled for ninety days is expired at once |
| ErasureTimes.RequestedThirtyDays | crates/beacon-db/src/lib.rs:370-423 | a first deletion request is due exactly from thirty days after it on, however often repeated: it can be cancelled until then and not after, and the sweep that sets out then lists it and none before |
| ErasureKeeps.KeptUntilDue | crates/beacon-db/src/lib.rs:1656-1674 | in any run, whatever else is cancelled, erased, inserted late or cut short: while neither its principal's retention nor a deletion request has run out, a letter keeps its content and files until its author deletes it |
| ErasureKeeps.NobodySkipped | crates/beacon-api/src/scheduler.rs:748-804 | in any run without a crash, whoever a sweep has listed is still listed, or being purged, or has been purged to the end |
| ErasureKeeps.WorkerStepOrder | crates/beacon-api/src/scheduler.rs:748-804 | a principal leaves the list only by being taken, and is at hand until the purge is through; a walk never starts over |
| ErasureKeeps.WhoSeals | crates/beacon-api/src/routes.rs:1570-1634 | an uninterrupted seal adds one letter and so many files if and only if the owner's subscription is TRIALING, ACTIVE or PAST_DUE; otherwise nothing |
| ErasureKeeps.WhoChangesSubscription | crates/beacon-db/src/lib.rs:1639-1694 | a subscription's row changes by a cancellation, a reactivation of CANCELED, a take of CANCELED or the end of the purge of EXPIRED, to exactly this, and by nothing else |
| ErasureKeeps.WhoChangesAccount | crates/beacon-db/src/lib.rs:370-423 | an account's row by a request, a cancel in time or the end of its purge, and by nothing else |
| ErasureKeeps.WhoRemovesFile | crates/beacon-db/src/lib.rs:2700-2709 | a file's row goes if and only if its letter is deleted or the worker purges it at hand |
| ErasureKeeps.WhoWritesLetter | crates/beacon-db/src/lib.rs:1256-1268 | a letter's row goes only by deletion and is blanked only when at hand with no files left |
| RetentionWorker.Worker.PurgePrincipalCiphertext | crates/beacon-api/src/scheduler.rs:786-804 | the nested loops are a run of purge steps; they blank every letter of the principal, remove their attachments and touch nothing else; cut short, they have touched nothing else either |
| RetentionWorker.Worker.RetentionTick | crates/beacon-api/src/scheduler.rs:748-784 | a completed tick makes DELETED exactly the subscriptions CANCELED with a retention end not after the clock, anonymises exactly the accounts whose thirty days are over, and erases their letters and files; the rows of everyone else stay as they were, completed or not; a run of the worker's steps; without failure it completes |
| RetentionWorker.Worker.SweepSubscriptions | crates/beacon-api/src/scheduler.rs:749-764 | a sweep cut short has retired and erased some of the subscriptions whose retention is over by the clock, part of one more, and touched no other |
| RetentionWorker.Worker.SweepDeletions | crates/beacon-api/src/scheduler.rs:767-782 | a sweep cut short has anonymised and fully erased some of the accounts whose thirty days are over, purged part of one more, and left every other row as it was |
| RecipientChanges.DecidedAtMostOnce | crates/beacon-db/src/lib.rs:1202-1252 | over any run a change is applied at most once, cancelled at most once, and never both |
| RecipientChanges.DecisionIsFinal | crates/beacon-db/src/lib.rs:1144-1252 | an applied or cancelled change never changes again, and what a change asks for never does |
| RecipientChanges.NeverEarly | crates/beacon-api/src/scheduler.rs:611-616 | no change is applied before its effective_at, though applying does not test the time |
| RecipientChanges.HoldKept | crates/beacon-api/src/routes.rs:2510-2521 | a change requested with a hold is applied no earlier than the hold after the request |
| RecipientChanges.AddressGrounded | crates/beacon-api/src/routes.rs:3520-3553 | a letter's address is the one last given by an edit of its principal or by a change applied and recorded as applied, or its original one if there was neither |
| RecipientChanges.TriggerMissesIff | crates/beacon-db/src/lib.rs:1185-1200 | a trigger takes the latest pending request if that is due, and leaves a due one unapplied exactly when the latest is not yet due and the due one was requested before or with it |
| RecipientChanges.TriggerLooksAtLatest | crates/beacon-db/src/lib.rs:1185-1200 | no other than a latest request is looked at |
| RecipientChanges.AppliedAfterFiring | crates/beacon-api/src/scheduler.rs:712-731 | a run in which a change is applied to a letter that has fired |
| RecipientChanges.AddressFixedIff | crates/beacon-api/src/routes.rs:2493-2503 | from any moment on a letter's address stays put in every continuation without new requests and edits if and only if no change to another address is pending for it then |
| RecipientChanges.FiredForGood | crates/beacon-db/src/lib.rs:1106-1118 | a letter keeps the time it fired at, whatever fires, changes or edits it later |
| RecipientChanges.ChangesOfLetters | crates/beacon-db/src/lib.rs:1144-1165 | over any run every change is one of a letter there is |
| RecipientChanges.Desk.RequestRecipientChange | crates/beacon-api/src/routes.rs:2505-2521 | records a pending change effective at the clock read plus the clamped hold |
| RecipientChanges.Desk.ApplyRecipientChange | crates/beacon-db/src/lib.rs:1231-1252 | marks a pending change applied and redirects its letter, in one statement; otherwise does nothing |
| RecipientChanges.Desk.CancelRecipientChange | crates/beacon-db/src/lib.rs:1202-1211 | cancels exactly a pending change |
| RecipientChanges.Desk.RecipientChangeTick | crates/beacon-api/src/scheduler.rs:712-731 | a run of the tick's steps; applies exactly the undecided changes whose effective_at has come, leaves every other as it was, and each letter ends with the address of one of its own, or as it was if it has none |
| Migrations.StepKeepsInv | crates/beacon-db/src/lib.rs:217-312 | every booter's step keeps the applied set a prefix and every booter's position within it |
| Migrations.CommitsAtMostOnce | crates/beacon-db/src/lib.rs:301-309 | over any number of concurrent, failing or crashing booters, lock or no lock, each migration's SQL commits at most once and the applied set stays a prefix |
| Migrations.LegacyNeverRerun | crates/beacon-db/src/lib.rs:237-299 | a migration whose marker table was there never has its SQL committed, and is recorded once any booter is past it |
| Migrations.RecordedUnrunIff | crates/beacon-db/src/lib.rs:237-309 | of the migrations recorded since the start exactly those among the three legacy ones whose table was there then were recorded without their SQL; every other was committed, once |
| Migrations.WhoRecords | crates/beacon-db/src/lib.rs:226-309 | of all steps exactly a mark and a commit that goes through record a migration, the second alone counting its SQL as committed, and nothing recorded is removed |
| Migrations.WhoComesAndGoes | crates/beacon-db/src/lib.rs:160-178 | a booter starts with the free lock and is gone, with its lock and nothing else, exactly after a crash or a failed or refused commit |
| Migrations.FinishedVerifies | crates/beacon-db/src/lib.rs:185-214 | once a booter has returned Ok, verification succeeds ever after |
| Migrations.NextRunReturnsZero | crates/beacon-db/src/lib.rs:226-311 | with everything applied, a run started then returns 0 |
| Migrations.LockPreventsConflict | crates/beacon-db/src/lib.rs:160-178 | while the lock holds no two booters work at once and no commit is refused |
| Migrations.LostLockFailsBooter | crates/beacon-db/src/lib.rs:160-178 | a run in which a lost lock makes a booter fail, harmlessly |
| Migrations.FirstMissing | crates/beacon-db/src/lib.rs:203-213 | the first missing migration, everything before it applied |
| Migrations.Database.MigrateLocked | crates/beacon-db/src/lib.rs:217-312 | the loop, any statement of which may fail, is a run of one booter: it records what is missing in order, runs of that exactly what is not a legacy migration whose table was there, counts what it ran, and keeps the prefix when it fails; without failure it finishes |
| Migrations.Database.VerifyMigrations | crates/beacon-db/src/lib.rs:185-214 | Ok exactly when tracking exists and everything is applied; otherwise names the first missing |
| Transform.TwoReplacesAreOnePass | crates/paschal-transform/src/lib.rs:178-181 | the two chained replacements equal one left-to-right scan |
| Transform.NormaliseShape | crates/paschal-transform/src/lib.rs:178-181 | no CR comes out, the length is the input's less CRLF pairs and a stripped byte-order mark, and the lines are the same |
| Transform.NormaliseTwice | crates/paschal-transform/src/lib.rs:178-181 | the line-ending pass is idempotent, the transformer exactly on texts not beginning with two byte-order marks |
| Transform.TagRemoved | crates/paschal-transform/src/lib.rs:346-362 | what StripId3 takes away: a tag of the declared size before audio is removed to the byte, whatever its flags; a file that is only a tag is kept |
| Transform.FooterStays | crates/paschal-transform/src/lib.rs:346-362 | the ten bytes of an ID3v2.4 footer, which the declared size does not count, stay in front of the audio |
| Transform.KeptIff | crates/paschal-transform/src/lib.rs:346-362 | a file stays as it is if and only if it does not begin with ID3, has no more than a header, or no audio behind the tag |
| Transform.TagSizeIs | crates/paschal-transform/src/lib.rs:346-362 | the size is the bitwise or of the four bytes shifted by 21, 14, 7 and 0 bits, whatever their high bits |
| Encodings.BytesOfSextets | apps/principal/src/lib/webauthn.ts:414-425 | regrouping bytes into sextets loses nothing |
| Encodings.ToBase64Url | apps/principal/src/lib/webauthn.ts:414-418 | the loop and substitutions produce the unpadded text of section 5 of RFC 4648 |
| Encodings.Base64UrlRoundTrip | apps/principal/src/lib/webauthn.ts:414-425 | decoding the encoding of any byte string gives it back |
| Encodings.UrlEncodedShape | apps/principal/src/lib/webauthn.ts:414-418 | URL-safe alphabet, no padding, length, and distinct texts for distinct bytes |
| Encodings.UrlEncodedIs | apps/principal/src/lib/webauthn.ts:414-418 | character by character the text is the one section 5 of RFC 4648 defines: the 24-bit groups of the bytes, six bits at a time, in its alphabet |
| Encodings.DecodesIff | apps/principal/src/lib/webauthn.ts:420-425 | a text without white space and padding decodes if and only if its length is not one more than a multiple of four and every character is in the standard or the URL-safe alphabet; three bytes for four characters |
| Encodings.SpaceSkipped | apps/principal/src/lib/webauthn.ts:420-425 | atob reads past white space anywhere |
| Encodings.StrayPadding | apps/principal/src/lib/webauthn.ts:420-425 | and refuses padding in a text whose length is no multiple of four |
| Encodings.BytesToHex | apps/principal/src/lib/webauthn.ts:436-440 | the loop produces two lower-case digits a byte |
| Encodings.HexToBytes | apps/principal/src/lib/webauthn.ts:428-434 | fills the array from pairs of characters, a last odd one ignored |
| Encodings.HexRoundTrip | apps/principal/src/lib/webauthn.ts:428-440 | decoding the hexadecimal text of any byte string gives it back |
| Encodings.HexIs | apps/principal/src/lib/webauthn.ts:436-440 | the text has the two lower-case digits of each byte at its place |
| Encodings.FromHexIs | apps/principal/src/lib/webauthn.ts:428-434 | digits of either case are read, and one before something else counts alone |
| Encodings.TextRoundTripIff | apps/principal/src/lib/webauthn.ts:428-440 | a text survives decoding and encoding exactly when it is lower-case digits of even length |

## Left out

- Scoring.ScoreThreshold: 32-bit float rounding, NaN and saturation; weights and contributions are reals and the root is avoided by squaring.
- ReleaseSafety.ReleasesOwnEvent: of orderly runs only, see above; ReleaseDeadlines.DeadlineSafety needs less.
- ReleaseRepeats.NoDoubleDelivery: of an event whose deliveries are whole; a perform_release taken statement by statement may, in the model, issue any claim at any time.
- ReleaseDeadlines.DeadlineSafety: of whole handlers; an event inserted after other actors' steps can bring a deadline of its own.
- ReleaseDurability.RecordedReleaseSurvives: nothing is promised past the claim; a vault that crashes in RELEASING is not retried by the code.
- RetentionWorker.Worker.RetentionTick: what it achieves is stated for a tick left alone, on one reading of the clock; interleavings are in Erasure and ErasureLaws.
- BeaconServer.Beacon.ReleaseElapseTick: left alone; interleavings are the runs of ReleaseModel.
- RegionService.Service.MoveVaultRegion: left alone; interleavings are the runs of RegionMoves.
- `list_vaults_in_states` does not select `storage_region`, which `row_to_vault` reads; the model takes the column as selected.
- Authentication, plan and ownership checks of handlers, notifications, email, metrics and the transparency log.
- Letter deletion during a release; the release machine seals and edits letters only.
- The token and password of a claim, and what a recipient does with it.
- SCHEDULED_ONLY letters and their own worker; `perform_release` filters them out.
- Leader election: the release protocol's guarantees do not use it, and the erasure results assume one retention worker.
- Blobs of attachments purged by the erasure sweeps: their deletion is best effort; RegionMove has it as the purge step.
- Heir envelopes of zero-knowledge letters (crates/beacon-db/src/lib.rs:3397-3420) are in a table of their own, which the purge does not touch; Erasure speaks of letters and attachments.
- The deletion of a letter takes its pending recipient changes with it; RecipientChanges keeps its letters.
- Image re-encoding, PDF and video checks, and the choice of transformer by MIME type.
- Cryptography, token randomness, passkeys, zero-knowledge envelopes, plans, contacts, enrolments and the user interface.
- `xorBytes`, and `parseInt` on anything but the two characters it is given.
