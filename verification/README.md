# Bell system: a model of its hard parts

A Dafny model of the school bell controller: the sender that pages phones over multicast, the scheduler that fires
bells, the arbiter that gives the page slot away, the monitor and its notification outbox, and the two transactions
that replace site data (an upgrade and a portable restore). Code that changes state step by step is a class or a
method with a loop, proved against a specification function; the properties of those functions are lemmas over every
input or every history.

`dafny verify dfyconfig.toml` checks the whole project.

## How the model is laid out

- **Wire and audio.** `Bytes`, `Wire` (both packet formats, the Poly parser, an independent RTP reader),
  `AudioFrames`, `Transmit` (streams, targets, the `send` loop), `EndToEnd` (a listener behind a lossy network),
  `PageDuration` (admission against pacing), `Calibration` (captures as evidence).
- **Scheduling.** `Sorting`, `Sets`, `Schedule` (day plans, look-ahead), `FireClaims` (the claim table under concurrent `fire`
  calls), `Paging` (the page slot), `RateLimiting`.
- **Notifications.** `Outbox` (the shared table and its transactions), `OutboxRuns` (all interleavings), `Watchdog` (the
  incident document), `WatchRuns` (all observation sequences), `WatchDelivery` (the two databases together).
- **Site data.** `PathTree` and `SiteRollback` (checkpoint and rollback on directory trees), `UpgradeTransaction`
  (marker, guard, probe, record, activation, recovery), `PortableRestore`.

Concurrency and crashes are modelled in two ways. Where several processes share a table, every transaction is one step
of a state machine and an action list is any interleaving; an action that is not enabled does nothing. In the upgrade
transaction every durable write is followed by `Pause`, which asks for the invariant, lets the running service write,
crash and restart, and may end the process by a kill or a power loss. So the invariant holds in every state a crash can
leave, and every method states what holds however it ends. Interruption is an input: under a `Weather` that is `calm` no
process dies, no step raises and the health check answers, and the methods state that they then complete. The site's
data is always accounted for: the invariant says which data it came from and which service writes lie on top of it.

## Assumptions

- **Lease.** The clock never goes back, and a live delivery writes its outcome before its 60 second lease ends, or dies
  (`OutboxRuns.Enabled`). The write-back at `bell/alerts.py:126-129` asks nothing of the row, so the budget and the
  terminal states rest on this. `OutboxRuns.LateWriteBreaksTheBudget` is a history that fails without it, and
  `WriteBackHonoursExactlyWhen` and `ItsOwnKeepsTheBudget` give the condition under which it is not needed.
- **Claims.** No `fire` call lives, and no clock goes back, over the 400 days that claim rows are kept.
- **Identities.** Fresh ids and tokens are unique; SHA-256 digests are kept as what they digest; the text of a monitor
  message is kept as the parts it is made of.
- **Upgrade.** `finish` is only called by the installer that called `begin`, in the same session (`install.sh:225-257`);
  nobody starts the service by hand while the marker is there; `recover` and an installer do not run side by side (the
  installer holds a lock and refuses while the marker is there).
- **Pacing.** Sends take no time; only the waits do.

## Code and documentation

- `bell/alerts.py:1` calls the deduplication success-only. The code also turns away a key that is still pending
  (lines 77-82). The model follows the code.
- An emergency page asks only the page that was active on its arrival to stop (`bell/paging.py:70-84`); a lower page that
  takes the slot while it waits is not asked. `Paging.UnaskedExactlyWhen` says exactly when an emergency waits for an
  unasked page, and `Paging.PreemptorMayWaitForAnUnaskedPage` gives a sequence.
- `docs/SITE_DATA_PRESERVATION.md` says that the restore marker blocks transmission. `fire` looks for it only once, at its
  start (`bell/scheduler.py:392-393`), so a call past that look still transmits;
  `FireClaims.QuietUnderMarkerExactlyWhen` says exactly when nothing more is transmitted.
- The checkpoint fails on a state file named `-wal`, `-shm` or `-journal`, or one of these after a dot: taking the suffix
  off leaves "" or ".", which cannot name a file (`bell/upgrade.py:102-111`). `SiteRollback.Checkpointable` includes
  this, and `SiteRollback.LosesNameExactly` says that these are all such names.
- The request limiter reads its clock before it takes its lock (`bell/web/__init__.py:120-121`), so a reading may come
  after a later one. `RateLimiting.AgreesExactlyWhen` says that its answer is that of the simple rule exactly if the
  reading is not late.
- The admission check of a page leaves out the 0.10 s pause after a pre-tone (`bell/service.py:313-328` and `356`). For
  Poly pages it fits in the slack; a plain RTP page can overrun. `PageDuration.PlainPageFitsIff` says exactly when.

## Model

| member | source | states |
|---|---|---|
| Wire.CallerIdField | bell/wire/poly_group_page.py:48-55 | exactly the caller IDs of 1 to 13 ASCII bytes are accepted; the field is 13 bytes, the ID and then NULs |
| Wire.ReadOfBuildControl | bell/wire/poly_group_page.py:80-111 | control packets are built exactly for ALERT and END on channels 1 to 25 of a calibrated page; an independent reader finds the opcode asked for, channel + 25, the serial modulo 2^32, 13 and the caller ID, in 20 bytes |
| Wire.ReadOfBuildPoly | bell/wire/poly_group_page.py:113-136 | the same reader finds TRANSMIT and the same identity at the front of every audio packet |
| Wire.ParseOfBuild | bell/wire/poly_group_page.py:113-136 | parser after builder: channel, serial and sample count modulo 2^32, caller ID, redundant and current frame all come back |
| Wire.BuildOfParse | bell/calibration.py:54-95 | packer after parser: the parsed record determines every byte of the packet |
| Wire.ParsesExactlyTheBuilt | bell/calibration.py:54-95 | a packet with audio is accepted if and only if the builder makes it for some page, channel, frames and counters |
| Wire.ReadOfBuildPlain | bell/wire/plain_rtp.py:18-34 | a reader that follows the bit positions and the byte order of section 5.1 of RFC 3550 finds version 2, no padding, extension or CSRC, and every input reduced to its field width |
| AudioFrames.LoadFrames | bell/audio.py:135-146 | for every byte string: whole frames only, and together they are the raw audio padded, or cut when the codec has no padding byte |
| AudioFrames.WholeFramesExactly | bell/audio.py:141-146 | only a last part of a frame is changed: filled up with the padding byte, or dropped if the codec has none |
| AudioFrames.FramesDetermined | bell/audio.py:135-146 | no other list of whole frames has that concatenation |
| Transmit.StreamState.Next | bell/wire/base.py:40-44 | returns the current counters and steps them modulo 2^16 and 2^32 |
| Transmit.CountersInClosedForm | bell/wire/base.py:40-44 | k calls add up: sequence number + k modulo 2^16, timestamp + k steps modulo 2^32 |
| Transmit.Target.SendPacket | bell/transmit.py:84-104 | a failed target is not called again; the first refusal fails it; the count grows by the bytes accepted |
| Transmit.Transmitter.SendPolyControls | bell/transmit.py:106-124 | each target is offered the burst on its own, whatever the others do |
| Transmit.Transmitter.SendFrame | bell/transmit.py:177-191 | one frame moves every target by its own step; an encoding error means a live target could not encode it |
| Transmit.Transmitter.Send | bell/transmit.py:137-219 | every target goes through a session that depends on its own counters and socket alone; packet count, cancellation, failed names and byte counts per destination name are exact |
| Transmit.AudioStepsOffer | bell/transmit.py:160-192 | until it fails, a target is at the k-th counters and was offered exactly the first k audio packets, each with the frame before it |
| Transmit.OfferAllIsPrefix | bell/transmit.py:84-104 | a socket gets everything up to its first refusal and nothing after it |
| Transmit.SessionIsPrefixOfIdeal | bell/transmit.py:137-219 | a session is a prefix of ALERT x 31, audio, END x 12, cut at the target's own first refusal; whole if it never refuses |
| Transmit.PolySessionOnTheWire | bell/transmit.py:150-201 | what a receiver reads of a Poly session: the first 31 packets that reach it are ALERT, then one TRANSMIT for each frame, then END up to the twelfth, all of one channel, serial and caller ID; all 31 + n + 12 if the socket never refuses |
| Transmit.PlainSessionOnTheWire | bell/transmit.py:177-190 | packet k of a plain RTP session reads back as frame k, with counters k steps on and the marker only on the first |
| EndToEnd.CountsDistinct | bell/wire/poly_group_page.py:129-129 | sample counts of up to 2^27 frames differ, because 160 k is a multiple of 2^32 only if 2^27 divides k |
| EndToEnd.CountsCollide | bell/wire/poly_group_page.py:129-129 | the bound is sharp: frame 2^27 has the count of frame 0 |
| EndToEnd.AudioPacketTells | bell/calibration.py:54-95 | each delivered audio packet parses to its sample count, its frame and the frame before it |
| EndToEnd.ListenerKnows | bell/transmit.py:177-191 | whatever is delivered, in any order and with repetitions, a listener knows exactly the frames carried by it, each under its own count |
| EndToEnd.HoleFreeIffNoTwoAdjacentLost | bell/wire/poly_group_page.py:130-136 | the audio has no hole if and only if no two adjacent packets are lost and the last one arrives |
| EndToEnd.AudioSurvivesLoss | bell/delivery.py:191-201 | from raw file to listener: exactly then the listener plays the raw audio, padded or cut to whole frames |
| EndToEnd.PolyCodecsSurviveLoss | bell/audio.py:37-44 | the same for each codec of the table that Poly pages take, with its own padding, frame size and RTP clock |
| PageDuration.TransmitEvent | bell/service.py:298-373 | a page is admitted exactly within the three limits, and then takes the sum of all its pacing waits |
| PageDuration.AdmittedExactly | bell/service.py:300-335 | the three limits, from the file sizes: 8000 bytes a second, every repeat and pause, the pre-tone, and 1.34 s for each Poly session |
| PageDuration.Margin | bell/service.py:313-328 | the exact difference between the admitted duration and the waits |
| PageDuration.PolyPageFits | bell/wire/poly_group_page.py:59-67 | a Poly page never outlasts what was admitted, pre-tone pause included |
| PageDuration.PlainPageOvershoot | bell/service.py:344-373 | a plain RTP page outlasts it by at most 0.10 s, and only with a pre-tone |
| PageDuration.PlainPageFitsIff | bell/service.py:356-358 | exactly when a plain RTP page stays within it, from the file sizes and the repeat count |
| PageDuration.PlainPageOverruns | bell/service.py:356-358 | an admitted plain RTP page that overruns by 0.06 s |
| Calibration.SanitizeCapture | bell/calibration.py:114-143 | accepted exactly with at least eight valid packets; what is kept is the 26-byte headers of the valid packets, in order |
| Calibration.KeptExactly | bell/calibration.py:114-143 | packet by packet, in order, the first 26 bytes of those the parser takes |
| Calibration.ProvesExactly | bell/calibration.py:171-216 | what a packet proves of its channel: the bias of 25, and a caller ID that is ASCII and not all NUL |
| Calibration.AcceptableExactly | bell/calibration.py:146-160 | three channels or more, each proven |
| Calibration.HeadersParse | bell/calibration.py:163-163 | the kept headers parse again, to exactly the valid packets without audio |
| Calibration.CallerIdRebuilt | bell/calibration.py:191-194 | stripping and padding NULs give a captured caller ID back; the builder takes it exactly if it is ASCII and not all NUL |
| Calibration.BuilderReproducesCapture | bell/calibration.py:188-216 | the rebuilt header equals the captured one byte for byte whenever the builder takes the caller ID |
| Calibration.DerivePolyCalibration | bell/calibration.py:146-217 | accepts exactly: three or more channels in 1..25, each with eight or more valid packets, each on channel + 25, each caller ID ASCII and not all NUL; the rebuilt-header mismatch is never raised; the evidence is that of the captures |
| Sorting.SortIsStable | bell/scheduler.py:74-75 | sorting keeps elements that tie in their order |
| Sorting.SortSorts | bell/scheduler.py:74-75 | sorting under any total preorder gives an ordered list |
| Schedule.ResolveDay | bell/scheduler.py:48-77 | override before first matching date range before weekday; schedule, then enabled standing items, in stable time order; the reason for an empty plan |
| Schedule.ScheduleExactly | bell/scheduler.py:52-61 | an override wins; else the first range that holds the day; else the weekday's default |
| Schedule.PlanExactly | bell/scheduler.py:48-77 | an event is in a plan if and only if the day is no no-bell date and it is in the schedule of that day, or is an enabled standing item of a day with a schedule |
| Schedule.PlanInOrder | bell/scheduler.py:74-75 | a plan is in time order and stays on its day |
| Schedule.PlanKeepsEvents | bell/scheduler.py:63-75 | a plan loses and invents nothing, and events at one time keep their order |
| Schedule.EarlyStop | bell/scheduler.py:91-97 | what a prefix of the days gives is final once it fills the limit |
| Schedule.UpcomingEvents | bell/scheduler.py:80-97 | equals the first `limit` of the stable sort of every event after `now` in the whole horizon |
| Schedule.UpcomingAreTheEarliest | bell/scheduler.py:80-97 | any later event of the horizon is reported, or `limit` events no later than it are |
| Schedule.ReportedAreToCome | bell/scheduler.py:80-97 | only events after `now` are reported, of the plans of today and the search days after it, in order |
| Schedule.NothingEarlierIsLeftOut | bell/scheduler.py:80-97 | an event of those days that is left out is no earlier than any of the `limit` reported |
| Schedule.ByTimeExactly | bell/scheduler.py:74-96 | order is by day, then by time of day |
| FireClaims.FireState.RecordOnce | bell/scheduler.py:171-207 | cap check and insert as one step; an existing row is never replaced |
| FireClaims.FireState.AttemptCount | bell/scheduler.py:164-169 | the row-by-row count is the number of claims of the day |
| FireClaims.FireState.Fire | bell/scheduler.py:382-432 | one call alone: when it transmits, what it answers, and the row it leaves in each case |
| FireClaims.RecordingKeepsCap | bell/scheduler.py:182-206 | winning a claim under the cap keeps every day under it; a refusal wins nothing |
| FireClaims.EveryRunIsSafe | bell/scheduler.py:382-432 | any interleaving of calls, crashes, restarts and purges: each (day, key) is transmitted at most once, and no day has more transmissions than the largest cap in force |
| FireClaims.RunAloneIsFire | bell/scheduler.py:382-432 | the interleaved model refines `Fire`: a call that runs alone makes its transmission and leaves its row in each case, and nothing under the restore marker |
| FireClaims.RefusalIsFinal | bell/scheduler.py:396-418 | a key recorded `blocked` or `missed` keeps that row and is never transmitted on that day |
| FireClaims.OnlyCallsUnderWayTransmit | bell/scheduler.py:391-393 | under the restore marker no call begins, and every transmission is that of a call already under way when it appeared |
| FireClaims.QuietUnderMarkerExactlyWhen | bell/scheduler.py:382-432 | whatever happens under the marker, nothing more is transmitted if and only if no call under way holds a claim or could still win one |
| Paging.PageCoordinator.Enter | bell/paging.py:67-99 | the section from arrival to the first wait, as a function of the fields: the only place that asks the active page to stop |
| Paging.PageCoordinator.Resume | bell/paging.py:85-99 | the section from a wake-up to the next wait or return |
| Paging.PageCoordinator.Release | bell/paging.py:101-105 | frees the slot only with the token of the active page |
| Paging.FreeSlotIsTaken | bell/paging.py:85-99 | a request that arrives at, or wakes to, a free slot gets it, with a token no other request had, a clear cancel event and its own priority |
| Paging.BusySlotExactly | bell/paging.py:85-95 | a request that finds a page is turned away if and only if it skips, preempts at no higher priority, or is at its deadline; otherwise it waits as it came |
| Paging.EndOfLeaseWakes | bell/paging.py:47-105 | the end of a lease frees the slot and wakes every waiter; the operator's stop reaches the active page |
| Paging.EveryRunIsSafe | bell/paging.py:47-105 | every interleaving: one lease held, and it is the active page; tokens used once; every cancel event justified; a free slot leaves no sleeper behind; a deadline is the arrival and the timeout; a waiting preemptor asked the page it met |
| Paging.StaleReleaseIsHarmless | bell/paging.py:101-105 | a release with an old token changes nothing |
| Paging.OnlyTheseCancel | bell/paging.py:47-84 | a cancel event becomes set only by the operator or by a preempting arrival of strictly higher priority, for the page active then |
| Paging.WhoMayWait | bell/paging.py:85-95 | skip callers and preemptors of no higher priority never wait, and no section ends in a wait at or past the deadline |
| Paging.LateWakeAnswers | bell/paging.py:92-94 | however late a waiter wakes, from its arrival plus the timeout on it is answered |
| Paging.AnswersAreFinal | bell/paging.py:87-99 | an answered request keeps its answer; only its own release changes it |
| Paging.ArrivalAsks | bell/paging.py:70-84 | a preempting arrival of higher priority always asks the page it meets to stop |
| Paging.UnaskedExactlyWhen | bell/paging.py:70-95 | in every history: the page a waiting preemptor waits for is unasked if and only if it took the slot after the arrival and nothing asked it since |
| Paging.PreemptorMayWaitForAnUnaskedPage | bell/paging.py:70-95 | a sequence in which an emergency waits for a lower page that was never asked to stop |
| RateLimiting.RateLimiter.Allow | bell/web/__init__.py:119-129 | no other identity is touched; a request that is not late is allowed if and only if fewer than the limit were allowed in the last window, over the whole history of that identity |
| RateLimiting.DequeIsTheRule | bell/web/__init__.py:119-129 | over any run of readings in order, with any limits, the pruned deque lets pass exactly what the simple rule accepts |
| RateLimiting.AgreesExactlyWhen | bell/web/__init__.py:120-124 | after every run that ends at a reading `latest`, and for all limits, a request read at `now` is answered as by the simple rule if and only if `latest <= now` |
| RateLimiting.LateAndLetPass | bell/web/__init__.py:120-124 | a run after which a late request passes although the window before it is full |
| RateLimiting.LateAndRefused | bell/web/__init__.py:120-124 | a run after which a request later than a window is refused although its window is empty |
| RateLimiting.EveryWindowBounded | bell/web/__init__.py:113-129 | over any run in order, what the deque lets pass never exceeds the largest limit in force in any half-open window |
| Outbox.AlertDispatcher.Enqueue | bell/alerts.py:63-93 | which answer each request gets, both ways; what a refused, suppressed or full enqueue leaves; pruning keeps everything pending and the newest 500 |
| Outbox.AlertDispatcher.Deliver | bell/alerts.py:106-133 | undisturbed: an unclaimable row is untouched; otherwise the outcome of the post, a changed webhook counting as terminal |
| Outbox.AlertDispatcher.RetryPending | bell/alerts.py:153-161 | exactly the stuck rows are exhausted; the rows taken up are the earliest due ones |
| Outbox.First | bell/alerts.py:84-85 | `ORDER BY ... LIMIT`: distinct, in order, and nothing left out comes before anything taken |
| Outbox.WrittenBackExactly | bell/alerts.py:121-129 | sent if the post succeeds; exhausted if it fails for good or at the fifth try; else pending again in 15, 30, 60 or 120 s; no other row changes |
| Outbox.SweptExactly | bell/alerts.py:155-157 | a sweep ends exactly the pending rows with five tries and no lease |
| Outbox.RetryTakesClaimable | bell/alerts.py:109-159 | after its sweep a retry takes up exactly the rows that can be claimed then |
| Outbox.PrunedExactly | bell/alerts.py:83-85 | a prune drops only ended rows older than 500 others, and none of 500 or fewer |
| Outbox.DuplicateExactly | bell/alerts.py:77-82 | what counts as a duplicate |
| OutboxRuns.EveryRunIsSound | bell/alerts.py:63-161 | every interleaving of dispatchers, crashes and restarts: no two deliveries of one notification in flight; at most five claims, k and k + 1 at least min(60, 15 * 2^(k-1)) s apart; at most 500 pending and 1000 rows; one pending row per key unless forced |
| OutboxRuns.ClaimIsSpaced | bell/alerts.py:109-113 | a row that can be claimed has waited out the lease of its last claim or the back-off after it |
| OutboxRuns.ClaimableIsFree | bell/alerts.py:109-115 | a row that can be claimed is in no live delivery |
| OutboxRuns.FinalStaysFinal | bell/alerts.py:123-129 | `sent` and `exhausted` are never left, and such a notification is never claimed again |
| OutboxRuns.PendingIsNeverDropped | bell/alerts.py:83-88 | a pending notification stays until it is sent or its tries are used up |
| OutboxRuns.EndsExactly | bell/alerts.py:106-157 | in every reachable table, exactly when a step ends a pending notification, and whether as sent or exhausted |
| OutboxRuns.EnqueueExactly | bell/alerts.py:77-93 | exactly when an enqueue makes a row, and which |
| OutboxRuns.PendingCanEnd | bell/alerts.py:106-161 | no notification is stuck: from every reachable table, with every delivery dead, there are steps after which it is sent, or exhausted if its tries are used up |
| OutboxRuns.PruneBounds | bell/alerts.py:83-85 | after a prune at most 500 rows are not pending, and no pending row is gone |
| OutboxRuns.LateWriteBreaksTheBudget | bell/alerts.py:126-129 | a history of the code, from the empty table, in which a delivery outlives its lease: a sent notification is pending again and a try is forgotten |
| OutboxRuns.WriteBackHonoursExactlyWhen | bell/alerts.py:126-129 | whatever its outcome, a write-back keeps a final state and every try if and only if the row is still pending with the attempts of this delivery |
| OutboxRuns.LeaseKeepsItsOwn | bell/alerts.py:109-113 | under the lease assumption every write-back meets that condition |
| OutboxRuns.ItsOwnKeepsTheBudget | bell/alerts.py:106-161 | without the lease assumption: if every write-back meets the condition, budget, spacing, bounds and keys hold in every history |
| OutboxRuns.ItsOwnKeepsFinal | bell/alerts.py:123-129 | and `sent` and `exhausted` are never left |
| Watchdog.WatchState.Observe | bell/watchdog.py:94-123 | the whole new document, through the counters and the branch taken |
| Watchdog.WatchState.Acknowledge | bell/watchdog.py:125-134 | accepted exactly for the open incident and a fitting note; nothing else changes |
| Watchdog.WatchState.Flush | bell/watchdog.py:136-149 | what the outbox refuses stays, in order; what was queued is pending in the outbox |
| Watchdog.RemainingExactly | bell/watchdog.py:141-148 | what stays after a flush: the events with no webhook set or a full outbox, in order |
| WatchRuns.EveryStoryIsWellTold | bell/watchdog.py:94-134 | every observation sequence: each incident has one outage first, at most one escalation, a recovery only last; reminders at least `reminder_seconds` after every earlier notice and none after an acknowledgment |
| WatchRuns.OpensAndClosesExactly | bell/watchdog.py:100-111 | an incident opens, and closes, exactly when the streak of failures, or successes, reaches the threshold in force |
| WatchRuns.NoticesExactly | bell/watchdog.py:107-121 | in every history, exactly which notice a probe makes for the open incident, from the log and the probes alone: recovery at its threshold; else the one escalation, `escalation_seconds` after the outage; else a reminder, if unacknowledged, `reminder_seconds` after the last notice; with time and contacts |
| WatchRuns.OutageExactly | bell/watchdog.py:103-106 | with no open incident, an outage exactly when the streak of failures reaches the threshold |
| WatchRuns.LastIncidentExactly | bell/watchdog.py:107-110 | the incident last closed is kept as it was |
| WatchRuns.FoundedMeans | bell/watchdog.py:104-110 | an outage really follows that many failed probes in a row, a recovery that many good ones |
| WatchRuns.KeysAreDistinct | bell/watchdog.py:117-121 | no two events ever have the same kind, incident and time |
| WatchDelivery.KnownKeyIsOwn | bell/watchdog.py:143-147 | a key the outbox knows is the event's own, so "already queued" and "duplicate suppressed" mean accepted |
| WatchDelivery.OfferRefusesExactly | bell/watchdog.py:142-147 | exactly when an offered event stays with the monitor, and that otherwise its notification is inserted or was |
| WatchDelivery.NoEventIsLost | bell/watchdog.py:136-149 | for a crash anywhere between enqueue and commit: every event ever made is still pending in the monitor, or the outbox took a notification of exactly that event |
| PathTree.PathsInOrder | bell/upgrade.py:214-214 | path order by parts is a total order |
| PathTree.SortedItems | bell/upgrade.py:214-214 | the sorted listing has every directory before what it holds, once each |
| PathTree.ItemsDeepestFirst | bell/upgrade.py:209-209 | the listing by depth has every directory after what it holds, once each |
| SiteRollback.DeletionIsAllowed | bell/upgrade.py:209-213 | in the deepest-first pass no directory still holds anything when its turn comes |
| SiteRollback.CreationIsAllowed | bell/upgrade.py:214-219 | in the sorted pass every parent is there and no path is there twice |
| SiteRollback.Folder.Rebuild | bell/upgrade.py:207-226 | from any link-free tree no operation is ever refused, so it completes unless killed, and leaves exactly the copy; a kill, also in the middle of a file, leaves a tree that a rerun accepts; links are refused before any change |
| SiteRollback.SiteData.Rollback | bell/upgrade.py:203-227 | the same over config, sounds and state; left alone it completes if and only if the checkpoint is intact and the site has no link |
| SiteRollback.LosesNameExactly | bell/upgrade.py:105-107 | taking a side-file suffix off leaves no name exactly for the bare suffixes, alone or after a dot |
| SiteRollback.SiteData.TakeCheckpoint | bell/upgrade.py:78-138 | left alone it completes if and only if there is no link, no state file named as a bare suffix, alone or after a dot, and every database backup is sound; then a verified copy: config and sounds whole, state with each database as its backup and no side files |
| SiteRollback.CheckpointableExactly | bell/upgrade.py:78-120 | that condition, spelled out on the trees |
| SiteRollback.SidecarExactly | bell/upgrade.py:104-114 | a side file is a file named as a database beside it, with one of the three suffixes |
| SiteRollback.SnapshotExactly | bell/upgrade.py:94-122 | the state part of a checkpoint, path by path: everything but the side files and nothing else; a database as its backup, the rest as it was |
| SiteRollback.CheckpointKeeps | bell/upgrade.py:94-122 | a checkpoint holds config and sounds to the byte, and state too if it has no database (`SnapshotExactly` says what it holds if it has) |
| SiteRollback.VerifiedExactly | bell/upgrade.py:141-152 | a checkpoint is intact exactly if its copies hold the recorded files with the recorded content |
| SiteRollback.PreservedExactly | bell/upgrade.py:174-200 | exactly what the preservation check accepts, file by file: config and sounds files equal both ways, every path still there, each state file unchanged or a database that still holds the rows of its copy |
| SiteRollback.PassedKeepsFound | bell/upgrade.py:94-200 | a site that passes against a checkpoint keeps what the checkpoint was taken of: config and sounds to the byte, every state file, and of a database the rows of its backup |
| SiteRollback.RestoredIsPreserved | bell/upgrade.py:174-200 | a rolled back site passes the preservation check of an upgrade |
| UpgradeTransaction.PauseKeeps | deploy/upgrade_transaction.py:72-77 | service writes, crashes, restarts, a kill and a power loss keep the invariant, and every write stays accounted for |
| UpgradeTransaction.PowerLossGuards | deploy/upgrade_transaction.py:75-91 | after a power loss under the marker the service is down and the guard keeps it down |
| UpgradeTransaction.GuardDecides | deploy/upgrade_transaction.py:75-91 | a service that is wanted comes up exactly if no loaded guard meets a marker without a probe |
| UpgradeTransaction.CommittedKeepsFound | deploy/upgrade_transaction.py:93-106 | in every state of a committed upgrade: the data that passed the check keeps what the transaction found on the stopped site |
| UpgradeTransaction.AbsentMarkerMeans | deploy/upgrade_transaction.py:55-146 | without the marker the link, the files and the data on disk are those the transaction found, or the site passed the preservation check with the new release up and keeps what the transaction found, or all is rolled back to a checkpoint of what it found; up to what the service wrote since |
| UpgradeTransaction.Appliance.Pause | deploy/upgrade_transaction.py:68-106 | the invariant in every state between two durable writes, whatever ends the process |
| UpgradeTransaction.Appliance.Begin | deploy/upgrade_transaction.py:55-83 | refused before any write under a marker; it changes no data; on completion a record of the link and files found, a stopped service and a checkpoint of the site; left alone it completes on any site that can be checkpointed |
| UpgradeTransaction.Appliance.Activate | deploy/install.sh:231-251 | new files and link only if the data on disk passes the preservation check, and then if left alone; the data is unchanged |
| UpgradeTransaction.PutAllMeans | deploy/install.sh:242-245 | the installed files are the new release's; every other managed file is as it was |
| UpgradeTransaction.Appliance.Finish | deploy/upgrade_transaction.py:93-106 | committed only if the data on disk passed the preservation check with the new release up; then marker and probe are gone; left alone it commits if all the release writes passes |
| UpgradeTransaction.Appliance.PutDataBack | deploy/upgrade_transaction.py:124-126 | left alone the data on disk becomes exactly the checkpoint if and only if the site has no link |
| UpgradeTransaction.Appliance.PutFilesBack | deploy/upgrade_transaction.py:129-137 | file by file, the managed files end as recorded: contents put back, files that did not exist removed |
| UpgradeTransaction.Appliance.LetStart | deploy/upgrade_transaction.py:139-141 | the service may start only on the old link, files and data, all back |
| UpgradeTransaction.Appliance.Recover | deploy/upgrade_transaction.py:109-146 | from every reachable state: on completion marker and probe are gone and the service is started; unless committed, link, files and data are back and the old release was restarted on exactly the checkpoint; the data on disk is then the checkpoint, or what it was if none was reached, up to what the service wrote meanwhile; a committed upgrade keeps its data unless its rollback was asked for; left alone it completes, unless data is to be replaced on a site with a link |
| UpgradeTransaction.Appliance.RecoverUntilDone | deploy/upgrade_transaction.py:109-146 | recovery converges: after any number of interrupted or failing runs, with crashes between them, one run that is left alone completes; then the appliance is back on the old release, or still committed on data that passed the check |
| UpgradeTransaction.Appliance.Install | deploy/install.sh:51-63 | from `begin` on: a refused installer changes nothing; a finished one is committed on the new link and files, on data that passed the check and keeps config, sounds and state as the transaction found them (or as the old release left them until it was stopped); if the exit trap completes, the appliance is committed or back on its old link and files, with the data it found or the checkpoint of it; left alone one of the two happens |
| UpgradeTransaction.Live | deploy/install.sh:225-257 | over any history of installations and recoveries: the claims about an absent marker and about a power loss, on the data on disk |
| PortableRestore.Library.Replace | bell/recovery.py:204-220 | on completion exactly the source, plus the old files that are not WAV for a legacy archive |
| PortableRestore.WantedExactly | bell/recovery.py:204-273 | the restored content, file by file: config over the old, sounds exactly the archive's (of a legacy restore also the old files that are not WAV), and of branding only the logo |
| PortableRestore.EndingExactly | bell/recovery.py:256-281 | restored only if nothing fails; back on the old content only if an attempt raised and the rollback went through |
| PortableRestore.Site.Restore | bell/recovery.py:223-281 | how a restore ends is decided by how its parts end; an attempt that raises and a rollback that does not end with everything old; without the marker config, sounds and branding are all old or all the archive's, however it ended; a pending marker refuses and changes nothing |

## Left out

- Sockets, HTTP, TLS, ffmpeg, systemd, SQLite, YAML and tar: each is an atomic step, a parameter or a free outcome.
- Web forms, sessions, configuration checks, SIP and the HTTP protocol: easy members, or text handling tied to sockets.
- `evaluate_fire` is a free decision in `FireClaims`, so its own rules are not modelled.
- Actual send times and drift: `PageDuration` adds up the waits on a nominal clock.
- RateLimiting.RateLimiter.Allow: after a run that is not in order the decision is stated through the pruned deque only.
- SiteRollback.SiteData.TakeCheckpoint: free space, unreadable media, an existing destination, a configuration that does not load, overlapping roots and concurrent writers (the service is stopped) are not modelled.
- SiteRollback.SiteData.Rollback: modes, owners and fsync are not modelled; a missing storage root is refused with the links.
- UpgradeTransaction.Appliance.Install: what the installer does before `begin` is not modelled; by then it has set owners and modes, relinked the shared directories and written a missing `config/bell.env` (`deploy/install.sh:93-173`), also if `begin` then refuses. One transaction at a time; the record describes the latest, and recovering an older one after a later upgrade is not modelled. A first installation, which has no transaction, is left out.
- UpgradeTransaction.Appliance.Activate: moving the staged release into place is not modelled, as nothing refers to it before the link does.
- PortableRestore.Site.Restore: directories, temporary files and the durability of single file writes are not modelled; the archive checks and the copies made before the marker are one outcome.
- Outbox.AlertDispatcher.Deliver: payload, signature and headers of the post are not modelled.
- Labels, log records, audit rows, receipts and status snapshots carry no property here.
