# Verified model of the group-discussion study platform

The platform runs live group discussions in which a bot may nudge the group. Two services share the work. The Chat
Service records a running room and evaluates it window by window; the Session Manager forms groups, stores everything
and settles participation and payment. This project models their stateful core and proves what it is meant to keep.

- **Checkpoint replication.** `KeyedLists`, `WindowEvaluations` and `CheckpointMerge` hold the hand-written monotonic
  merge of a snapshot into a stored session, `MergeLaws` what one merge guarantees, `Convergence` what any delivery
  schedule of one runtime's snapshots gives, `StoredSnapshots` what the stored session then holds record by record, and
  `RuntimeCheckpoint` the second, SQL-side writing of the same merge.
- **The running room.** `SessionRuntime` is the runtime record with its snapshot and restore, `EventRecording` what an
  event leaves in it, `ChatRoom` the room as a step machine (recording, rule and window work, debounced writes,
  finalization, and a link on which a write may be lost, time out and still be applied later, repeat or overtake
  another), `RoomRestarts` what holds over several lives of the service, each started from what the one before left
  stored, `ManyLives` what any number of lives and any late writes leave, `DroppedEvents` what a room does not record,
  and `RoomService` the handlers that change the room in place.
- **Windows and nudges.** `WindowGrid` is the self-rescheduling window timer, `ContributionRules` the contribution
  split, the decision to nudge and the tracker reset over a session.
- **Matchmaking.** `Matchmaking` is the machine of joins, departures, round switches and provisioning;
  `SessionsService` the operations on the in-memory collections, `FullGroups` when a group that gets a room is full, and
  `StatusWrites` the status in the database, where some operations read and write it in two awaits.
- **Participation and payment.** `Participation` is the journey of a Prolific submission, `ProlificActions` the
  return, bonus and payment calls of one outcome, `StalePayments` the same with passes over records read earlier.
- **Writing workspace.** `Etherpad` is the admission, pad and supervisor machine, `EtherpadService` its operations.
- **Reports and charts.** `Shuffle`, `Scoring`, `LabelSpread`, `Csv` and `Equality`; `Sorting` is the stable sort that
  several modules use.

Objects that the source changes in place are classes whose methods are proved equal to functions on values; the laws
and invariants are lemmas about those functions. Loop-free operations that no loop calls are
functions of the machines only. Two Dafny modules share a file where one holds the machine and the
other its safety proofs. `dafny verify dfyconfig.toml` checks the project.

## What turned out false of the code, and exactly when it holds

- A checkpoint **without** a revision is not idempotent: once a ranking history is stored, the newest ranking by
  timestamp wins over the last one of the list. `MergeLaws.UnversionedRedelivery` is the exact condition and
  `MergeLaws.UnversionedCounterexample` an input.
- `windowIndex` uses the configured warm-up without the clamp at zero that the timer applies. The recorded index is
  k - 1 for every k exactly when the raw warm-up is not below minus half a window (`WindowGrid.WindowIndexExact`). A
  stored condition never fails this: it is clamped at zero when saved
  (`backend/session-manager/src/store/conditions.ts:82`).
- The counting window is closed at both ends, so a message exactly on a boundary without a nudge counts in two windows
  (`ContributionRules.BoundaryCountsTwice`); no other message does (`ContributionRules.CountedOnce`).
- A running group need not be full: provisioning reads fullness before it claims the session, outside the matchmaking
  lock (`MatchmakingSafety.RunningNeedNotBeFull` is an input). Every group that is provisioned or running is full if no
  departure takes a member out of a waiting group that an attempt under way has read as full
  (`FullGroups.OpenedGroupsAreFull`), and one such departure is enough to open a room one short
  (`FullGroups.FullExactly`).
- In the database an ended session can be revived or re-ended, since `completeSession`, `finalizeSession` and
  `leaveSession` write a status decided on an earlier read (`StatusWrites.LateCompletionRevivesAborted`,
  `StatusWrites.LateLeaveAbortsCompleted`). Ended stays ended when every such write finds the session not ended or ended
  the same way (`StatusWrites.TimelyKeepsEnded`); no order of the pending writes revives exactly when they agree with
  each other and with what has ended (`StatusWrites.AgreedExactly`).
- An event that arrives while a room finalizes is dropped, also when that finalize then fails
  (`DroppedEvents.FailedFinalizeLosesAnEvent`). An event is recorded exactly when it was stored at the start, found in
  the replayed history, or delivered before the installation or outside finalization
  (`DroppedEvents.RecordedExactly`).
- The payment worker reads all due outcomes before it works on the first, so a pass may work on an outdated record.
  Operations that read the record themselves pay at most once (`ProlificActions.PaidAtMostOnce`). A pass over a record
  read before an administrator prepared and paid can pay again (`ProlificActions.StaleScanPaysTwice`), or leave a
  payable bonus that is then paid again (`StalePayments.PreparedAgainPaysLater`). Payments stay at most one if, after a
  payment, every pass meets a guard on the record it read and the stored one: no return was requested in the first, or
  it has a batch, or the stored one has a paid mark (`StalePayments.GuardedPaysAtMostOnce`). The guard is exact:
  whenever it fails, some answers pay twice (`StalePayments.PassSafeExactly`).
- The CSV guard is not injective, and a row without cells reads back as one with an empty cell
  (`Csv.GuardCollidesExactly`, `Csv.RoundTripExactly`).
- Labels stay at or above the lower edge exactly when they all fit (`LabelSpread.LabelsFit`).

## Model

| member | source | states |
|---|---|---|
| `WindowEvaluations.DedupeWindowEvaluations` | backend/session-manager/src/store/window-evaluations.ts:15-26 | the map-filling loop computes the keyed fold in which a record replaces the kept one of its boundary only when it outranks it |
| `WindowEvaluations.DedupeKeepsTheBest` | backend/session-manager/src/store/window-evaluations.ts:15-40 | one record per boundary, boundaries in order of first occurrence, each kept record an input record that no other of its boundary outranks |
| `WindowEvaluations.MergedWindowsTwice` | backend/session-manager/src/store/checkpoint-merge.ts:99-105 | merging the same evaluations twice is merging them once, whatever was stored |
| `WindowEvaluations.MergedWindowsConverge` | backend/session-manager/src/store/checkpoint-merge.ts:99-105 | an older list of the same runtime leaves no trace, merged before or after the newer one |
| `CheckpointMerge.MergeByKey` | backend/session-manager/src/store/checkpoint-merge.ts:282-292 | a present key keeps its place and takes the incoming value, an absent one is appended |
| `CheckpointMerge.AppendUnseen` | backend/session-manager/src/store/checkpoint-merge.ts:222-237 | stored values stay; only values under unseen keys are appended, each key once |
| `CheckpointMerge.MergeCheckpointValues` | backend/session-manager/src/store/checkpoint-merge.ts:271-280 | an accepted list replaces by key, a stale one only adds unseen keys |
| `CheckpointMerge.MergeRecordedReactions` | backend/session-manager/src/store/checkpoint-merge.ts:193-214 | the reaction audit as a keyed fold in which a redaction is never taken back |
| `CheckpointMerge.MergeMessages` | backend/session-manager/src/store/checkpoint-merge.ts:143-191 | messages and their reactions as a keyed fold, redacted reactions of the incoming messages filtered |
| `CheckpointMerge.Session.constructor` | backend/session-manager/src/store/forming-session.ts:13-54 | a new session has nothing recorded but its starting order |
| `CheckpointMerge.Session.MergeCheckpointIntoSession` | backend/session-manager/src/store/checkpoint-merge.ts:49-136 | the stored session in place becomes exactly the merge of its old value with the checkpoint |
| `CheckpointMerge.MergeInSteps` | backend/session-manager/src/store/checkpoint-merge.ts:49-136 | the field-by-field assignments in their order give the one-expression merge |
| `MergeLaws.VersionedRedelivery` | backend/session-manager/src/store/checkpoint-merge.ts:41-136 | a versioned checkpoint applied twice is applied once, for every stored state |
| `MergeLaws.UnversionedRedelivery` | backend/session-manager/src/store/checkpoint-merge.ts:126-136 | an unversioned one is idempotent if and only if it carries no ranking, or a history was stored before, or its last ranking is its newest |
| `MergeLaws.UnversionedCounterexample` | backend/session-manager/src/store/checkpoint-merge.ts:126-136 | a concrete unversioned checkpoint whose second delivery changes the ranking |
| `MergeLaws.StaleOnlyAdds` | backend/session-manager/src/store/checkpoint-merge.ts:41-136 | an older revision leaves revision, ranking, rule state and every stored behaviour, classification and failure alone and only adds unseen keys |
| `MergeLaws.NothingIsLost` | backend/session-manager/src/store/checkpoint-merge.ts:49-136 | for any checkpoint, every key ever stored keeps its place in its collection and the incoming keys follow |
| `MergeLaws.RedactionsStay` | backend/session-manager/src/store/checkpoint-merge.ts:60-71 | a redacted reaction event stays redacted, whatever arrives later |
| `MergeLaws.RedactedIdListed` | backend/session-manager/src/store/checkpoint-merge.ts:60-70 | every redacted reaction of the audit is among the stored redaction ids |
| `MergeLaws.NewestRankingWins` | backend/session-manager/src/store/checkpoint-merge.ts:254-269 | the chosen ranking is one of those offered and none of them is newer |
| `Convergence.OlderThenNewerMerge` | backend/session-manager/src/store/checkpoint-merge.ts:49-136 | an older snapshot of a runtime merged before a newer one leaves no trace in any field |
| `Convergence.NewerThenOlderMerge` | backend/session-manager/src/store/checkpoint-merge.ts:49-136 | an older snapshot arriving after a newer one changes nothing |
| `Convergence.Converges` | backend/session-manager/src/store/checkpoint-merge.ts:49-136 | for every schedule with loss, repetition and reordering, the stored state is what the newest delivered snapshot alone gives, sequence order included |
| `Convergence.LastDelivered` | backend/session-manager/src/store/checkpoint-merge.ts:49-136 | once the last snapshot got through, only it matters |
| `StoredSnapshots.FreshSessionConverges` | backend/session-manager/src/store/checkpoint-merge.ts:49-136 | a fresh session that got the last snapshot holds that snapshot list by list: messages with redacted reactions filtered, rankings, interventions, behaviour, classifications, failures, processed ids, audit and rule state, one window record per boundary |
| `StoredSnapshots.SnapshotHeld` | backend/session-manager/src/store/checkpoint-merge.ts:49-136 | merging a snapshot of a runtime started from the stored session leaves exactly the snapshot's records, content and order included |
| `StoredSnapshots.JudgmentsHeld` | backend/session-manager/src/store/checkpoint-merge.ts:49-136 | and its classifications, failures, reaction audit and redactions when those are keyed |
| `StoredSnapshots.MergeKeyed` | backend/session-manager/src/store/checkpoint-merge.ts:49-136 | whatever was stored, an accepted snapshot leaves one record per key in every list |
| `RuntimeCheckpoint.SelectedUnique` | backend/session-manager/src/store/runtime-checkpoint.ts:220-245 | a positioned table reads back in one way only |
| `RuntimeCheckpoint.TwoMergesAgree` | backend/session-manager/src/store/runtime-checkpoint.ts:220-367 | for every stored state and checkpoint the SQL row, read by position, holds the in-memory merge's history, ranking, behaviour, classifications, failures, processed ids, rule state and revision |
| `RuntimeCheckpoint.InsertAgrees` | backend/session-manager/src/store/runtime-checkpoint.ts:247-297 | inserting while skipping duplicates agrees with replacing by key when a record never changes under its id |
| `RuntimeCheckpoint.SessionRecord.PersistRuntimeCheckpoint` | backend/session-manager/src/store/runtime-checkpoint.ts:51-83 | the row in place satisfies the persisted relation the agreement is about |
| `RuntimeCheckpoint.SessionRecord.AppendRankingHistory` | backend/session-manager/src/store/runtime-checkpoint.ts:220-245 | unseen rankings are written at fresh consecutive positions behind every stored one |
| `RuntimeCheckpoint.UnseenRankings` | backend/session-manager/src/store/runtime-checkpoint.ts:220-245 | the seen-set loop keeps the first occurrence of each key not stored yet |
| `SessionRuntimes.SessionRuntime.Restore` | backend/chat-service/src/sessions/session-runtime.ts:195-221 | the runtime in place becomes the restored value of the checkpoint, last claimed boundary included |
| `SessionRuntimes.SessionRuntime.TakeCheckpoint` | backend/chat-service/src/sessions/session-runtime.ts:134-150 | the revision grows by one and the snapshot carries every list as it stands |
| `SessionRuntimes.SessionRuntime.DoRecordRanking` | backend/chat-service/src/sessions/session-runtime.ts:80-88 | a ranking state is recorded once and becomes the current one |
| `SessionRuntimes.SessionRuntime.DoRecordClassification` | backend/chat-service/src/sessions/session-runtime.ts:95-101 | a classification replaces the one of its message or is appended |
| `SessionRuntimes.SessionRuntime.DoClaimWindowBoundary` | backend/chat-service/src/sessions/session-runtime.ts:112-116 | a boundary is claimed exactly when it lies beyond the last claimed one |
| `SessionRuntimes.ChangeGrows` | backend/chat-service/src/sessions/session-runtime.ts:95-154 | every change the rules make keeps distinct ids and only lets the lists grow |
| `EventRecording.HandleEventGrows` | backend/chat-service/src/sessions/sessions.service.ts:285-429 | so does handling an event, which leaves it processed |
| `EventRecording.FirstHandlingRecords` | backend/chat-service/src/sessions/sessions.service.ts:285-429 | an event not processed before leaves exactly the records its type calls for |
| `EventRecording.ExactlyOnce` | backend/chat-service/src/sessions/sessions.service.ts:159-213 | over any overlap of history, buffered and live deliveries every handled event is recorded and no event or record id occurs twice |
| `ChatRoom.FreshIsGood` | backend/chat-service/src/sessions/sessions.service.ts:159-187 | a freshly formed session meets the condition under which the room theorems start |
| `ChatRoomSafety.CheckpointProtocol` | backend/chat-service/src/sessions/sessions.service.ts:458-588 | in every run at most one write is open, no timer runs while one is, revisions strictly grow, data not known stored has something under way that will save it, and a dirty room always has a timer, a write, a finalization or a retry |
| `ChatRoomSafety.EveryEventRecorded` | backend/chat-service/src/sessions/sessions.service.ts:159-328 | in every run each event handed over while the room takes events, and each of the replayed history, is buffered until installation and recorded from then on, once |
| `DroppedEvents.RecordedExactly` | backend/chat-service/src/sessions/sessions.service.ts:285-328 | in every run, once installed, an event of the room is processed, and with it recorded, if and only if it was stored at the start or handed over outside finalization |
| `DroppedEvents.DroppedWhileFinalizing` | backend/chat-service/src/sessions/sessions.service.ts:285-297 | an event that arrives during or after finalization leaves no trace |
| `DroppedEvents.FailedFinalizeLosesAnEvent` | backend/chat-service/src/sessions/sessions.service.ts:473-523 | a concrete run in which an event delivered during a finalize that fails is not stored, though the retry succeeds |
| `ChatRoomSafety.StoreIsNewestApplied` | backend/session-manager/src/sessions/sessions.service.ts:704-739 | in every run the store holds what its newest applied snapshot alone would give |
| `ChatRoomSafety.FinalizedForGood` | backend/chat-service/src/sessions/sessions.service.ts:473-523 | once a finalize succeeded the store holds the final snapshot record by record, every event handed over is stored with its content, and no write still in flight can change the stored session |
| `RoomRestarts.StoreHoldsNewest` | backend/session-manager/src/sessions/sessions.service.ts:704-739 | in every run the store is untouched or holds the records of the newest snapshot it applied |
| `RoomRestarts.StoreHoldsJudgments` | backend/session-manager/src/sessions/sessions.service.ts:704-739 | and, from a keyed session, that snapshot's judgements and audit |
| `RoomRestarts.StoredIsGood` | backend/chat-service/src/sessions/session-runtime.ts:195-221 | what any run leaves stored meets the condition under which the room theorems start, and stays keyed |
| `RoomRestarts.RestartsKeep` | backend/chat-service/src/sessions/sessions.service.ts:590-632 | over any number of restarts the stored session stays sound to start from, forgets no processed event, and holds the content of each |
| `RoomRestarts.FinalizedAcrossRestarts` | backend/chat-service/src/sessions/sessions.service.ts:473-523 | from a fresh session, over any number of restarts: after the last finalize every event of the last life, replayed history included, and every event stored before it is stored with its content for good |
| `ManyLives.RecordsMerged` | backend/session-manager/src/store/checkpoint-merge.ts:49-136 | a sound snapshot of any life of the room, whatever its revision, takes no event's records away and brings those of its own |
| `ManyLives.MergedGood` | backend/session-manager/src/store/checkpoint-merge.ts:49-136 | and leaves a session that is sound to start from |
| `ManyLives.ContentIsNeverLost` | backend/session-manager/src/sessions/sessions.service.ts:704-739 | over any history of lives, one after the other or at once, with writes applied late, repeated or overtaken: an event once in an applied snapshot or stored keeps its content from then on |
| `ManyLives.FinalWriteLasts` | backend/chat-service/src/sessions/sessions.service.ts:473-523 | once the final write of a finalized life is applied, every event handed to it stays stored with its content under any late writes of other lives |
| `ManyLives.LateWrite` | backend/session-manager/src/store/checkpoint-merge.ts:41-136 | a late write with a revision below the stored one only adds unseen records; otherwise it sets revision and rule state |
| `RoomServices.RoomService.ReplayEvents` | backend/chat-service/src/sessions/sessions.service.ts:184-194 | the replay loop handles each event id once, in first-occurrence order |
| `RoomServices.RoomService.FlushCheckpoint` | backend/chat-service/src/sessions/sessions.service.ts:543-566 | sends one snapshot exactly when the room is live, not finalizing and dirty |
| `RoomServices.RoomService.ResumeEnd` | backend/chat-service/src/sessions/sessions.service.ts:485-505 | waits for windows, rules and the write in turn and then sends the final snapshot |
| `WindowGrid.NoWindowSkipped` | backend/chat-service/src/sessions/sessions.service.ts:215-240 | fired in time, the timer moves to the very next boundary |
| `WindowGrid.WindowIndexExact` | backend/chat-service/src/rules/bot-rules.ts:336-347 | the recorded index is k - 1 for every k if and only if twice the negated raw warm-up is below one window |
| `WindowGrid.WindowBoundaries` | backend/chat-service/src/sessions/sessions.service.ts:215-283 | in every run with early timers, clock jumps and restarts, evaluated boundaries are strictly increasing grid points, none before its end, none twice |
| `WindowGrid.WindowsApart` | backend/chat-service/src/sessions/sessions.service.ts:215-283 | in every such run the boundaries recorded or under evaluation are at least one window length apart |
| `WindowGrid.WindowTimer.ScheduleWindowTick` | backend/chat-service/src/sessions/sessions.service.ts:215-240 | the timer in place is armed for the machine's next boundary |
| `WindowGrid.WindowTimer.OnWindowBoundary` | backend/chat-service/src/sessions/sessions.service.ts:242-283 | the timer in place takes the machine's step: wait, skip or claim |
| `ContributionRules.CountMessages` | backend/chat-service/src/rules/bot-rules.ts:375-427 | the counting loop gives every active member the tally of the messages of the window after the reset |
| `ContributionRules.ContributionSplit` | backend/chat-service/src/rules/bot-rules.ts:365-458 | the loops compute one share record per active member, in order |
| `ContributionRules.Accounting` | backend/chat-service/src/rules/bot-rules.ts:397-427 | counted messages plus excluded invitations are exactly the members' messages in the window after the reset |
| `ContributionRules.SharesAreFractions` | backend/chat-service/src/rules/bot-rules.ts:426-458 | every share lies in [0, 1]; without a positive total all shares and scores are 0 |
| `ContributionRules.SharesSumToOne` | backend/chat-service/src/rules/bot-rules.ts:446-458 | shares sum to 1 when anything scored |
| `ContributionRules.ScoresDecide` | backend/chat-service/src/rules/bot-rules.ts:446-458 | without judgements, who scored more dominates more, and equal scores dominate alike |
| `ContributionRules.WordsOnBothSides` | packages/shared/src/text.ts:8-10 | words on both sides of a space are counted apart |
| `ContributionRules.OneWord` | packages/shared/src/text.ts:8-10 | a run of characters without whitespace is one word |
| `ContributionRules.CandidatesStartAtTop` | backend/chat-service/src/rules/bot-rules.ts:177-181 | filtering by the threshold and sorting puts the first most dominant member in front, and nobody is left exactly when all are below |
| `ContributionRules.NudgeExactly` | backend/chat-service/src/rules/bot-rules.ts:113-225 | a nudge goes out if and only if phase, arm, both membership reads and the most dominant member's score and presence allow it, and to that member |
| `ContributionRules.NudgesExactly` | backend/chat-service/src/rules/bot-rules.ts:113-225 | with failing reads and posts: a nudge is recorded if and only if all of that holds, both reads answer and the post succeeds |
| `ContributionRules.StudyBotRules.OnWindowElapsed` | backend/chat-service/src/rules/bot-rules.ts:113-225 | the rule state in place gains the evaluation of the boundary, none when a membership read or the post fails, and is stamped by a nudge only |
| `ContributionRules.NudgeResets` | backend/chat-service/src/rules/bot-rules.ts:218-219 | from a nudge on, the tracker reset lies at or after its boundary |
| `ContributionRules.CountedOnce` | backend/chat-service/src/rules/bot-rules.ts:398-412 | over the boundaries any run of the window timer recorded, a message seen by two evaluations lies exactly on their shared boundary, and none at or before a nudge's boundary is seen later |
| `ContributionRules.BoundaryCountsTwice` | backend/chat-service/src/rules/bot-rules.ts:398-408 | without a nudge, exactly the messages on the shared boundary are seen by both windows |
| `MatchmakingSafety.OldestForming` | backend/session-manager/src/store/store.service.ts:876-899 | a lobby is found if and only if one can be joined, and none that can is older |
| `MatchmakingSafety.LeastClaimedArm` | backend/session-manager/src/sessions/sessions.service.ts:820-855 | an arm is assigned if and only if one recruits, and none that recruits has fewer claims |
| `MatchmakingSafety.ReservedHasNone` | backend/session-manager/src/sessions/sessions.service.ts:235-285 | whoever gets a new seat has none yet, by submission or token |
| `MatchmakingSafety.JoinChooses` | backend/session-manager/src/sessions/sessions.service.ts:235-285 | a join at most opens the first round and enters a joinable lobby or opens one for a recruiting arm |
| `MatchmakingSafety.StepSafe` | backend/session-manager/src/sessions/sessions.service.ts:206-285 | every locked section and every conditional update keeps all matchmaking invariants |
| `MatchmakingSafety.RunSafe` | backend/session-manager/src/sessions/sessions.service.ts:206-285 | in every run with fixed goals no session exceeds its group size, no arm its goal in a round, every waiting session is of the single open round and none is empty |
| `MatchmakingSafety.NobodySitsTwice` | backend/session-manager/src/store/store.service.ts:486-582 | in every run a Prolific submission sits in one place at most and a direct token in one live group at most |
| `MatchmakingSafety.EndedForGood` | backend/session-manager/src/store/store.service.ts:664-751 | in the in-memory store: over any stretch of any run a session keeps round, arm and size, never moves back and is never left once completed or aborted |
| `MatchmakingSafety.SeatsAreOfTheOpenRound` | backend/session-manager/src/sessions/sessions.service.ts:195-205 | seats are only taken under the lock, and always in a session of the round open at that moment |
| `MatchmakingSafety.SwitchClosesLobbies` | backend/session-manager/src/sessions/sessions.service.ts:206-233 | during a round switch no session waits, whatever unlocked steps run between its two halves |
| `MatchmakingSafety.RunningNeedNotBeFull` | backend/session-manager/src/sessions/room-provisioning.ts:107-138 | a concrete run that opens a room for a group one short |
| `FullGroups.OpenedGroupsAreFull` | backend/session-manager/src/sessions/room-provisioning.ts:107-138 | in every run in which no departure takes a member out of a waiting group read as full, every group provisioned or running has exactly its size |
| `FullGroups.DisturbedOpensShort` | backend/session-manager/src/sessions/sessions.service.ts:900-935 | a departure against that guard, followed by the claim and the publication, leaves that group running one short |
| `FullGroups.FullExactly` | backend/session-manager/src/sessions/room-provisioning.ts:107-138 | after any run that met the guard, a step keeps all opened groups full in every continuation that meets it if and only if the step meets it |
| `StatusWrites.TimelyKeepsEnded` | backend/session-manager/src/sessions/sessions.service.ts:520-533 | with reads and writes of the status apart: if every such write finds the session not ended otherwise, the status never moves back and an ended one stays |
| `StatusWrites.AgreedExactly` | backend/session-manager/src/sessions/sessions.service.ts:718-739 | no order of the pending writes changes an ended status if and only if they agree with each other and with it |
| `StatusWrites.LateLeaveAbortsCompleted` | backend/session-manager/src/sessions/sessions.service.ts:900-935 | a concrete run in which a departure decided earlier aborts a completed session |
| `StatusWrites.LateCompletionRevivesAborted` | backend/session-manager/src/sessions/sessions.service.ts:520-533 | a concrete run in which a completion decided earlier revives an aborted lobby |
| `SessionsServices.SessionsService.CurrentRound` | backend/session-manager/src/store/store.service.ts:279-292 | the open round, or a new one numbered one past the largest |
| `SessionsServices.SessionsService.StartNewRound` | backend/session-manager/src/store/store.service.ts:364-376 | closes the open round and opens the next number |
| `SessionsServices.SessionsService.ClaimedCount` | backend/session-manager/src/store/store.service.ts:418-426 | the loop counts the arm's sessions of the round that are not aborted |
| `SessionsServices.SessionsService.FindParticipant` | backend/session-manager/src/store/store.service.ts:486-562 | the loop finds the first seat in order of creation, skipping aborted sessions for tokens only |
| `SessionsServices.SessionsService.OldestForming` | backend/session-manager/src/store/store.service.ts:876-899 | the filter and sort compute the specified oldest joinable lobby |
| `SessionsServices.SessionsService.AssignCondition` | backend/session-manager/src/sessions/sessions.service.ts:820-855 | the loop and sort compute the specified least claimed arm |
| `SessionsServices.SessionsService.ReserveSeat` | backend/session-manager/src/sessions/sessions.service.ts:235-270 | the collections in place are swept of expired lobbies and then take the machine's step: rejoin, refusal or a chosen session |
| `SessionsServices.SweepIsExpiries` | backend/session-manager/src/sessions/sessions.service.ts:585-604 | a sweep is a run of the machine's conditional expiries, one per session |
| `SessionsServices.SessionsService.AbortLobbies` | backend/session-manager/src/store/store.service.ts:919-945 | the loop aborts exactly the matching lobbies past their deadline and reports them |
| `EtherpadSafety.CapturedForGood` | backend/session-manager/src/etherpad/etherpad.service.ts:193-207 | in every run a captured pad keeps its text, revision and capture time |
| `EtherpadSafety.OnePadEach` | backend/session-manager/src/etherpad/etherpad.service.ts:145-162 | in every run a session has at most one group pad and an owner one entry and one exit pad, each the indexed one |
| `EtherpadSafety.NothingLostToAStop` | backend/session-manager/src/etherpad/etherpad.service.ts:255-258 | in every run each pad that existed when a stop was sent had been captured with its content |
| `EtherpadSafety.StopsOnlyWhenDrained` | backend/session-manager/src/etherpad/etherpad.service.ts:212-262 | whatever the server answers, a stop leaves the mode off, no writing admission active and every pad captured |
| `EtherpadSafety.StopsExactly` | backend/session-manager/src/etherpad/etherpad.service.ts:212-262 | with an answering server the stop is sent if and only if the mode is off, nobody is active and every pad is captured or due |
| `EtherpadSafety.ReconcileCapturesOnlyDue` | backend/session-manager/src/etherpad/etherpad.service.ts:245-252 | what the supervisor captures was past its deadline, abandoned or of an aborted session, and holds what the server answered |
| `EtherpadSafety.NoNewWritersWhileOff` | backend/session-manager/src/etherpad/etherpad.service.ts:81-92 | while the mode stays off no further writer is admitted, nobody changes mode and done stays done |
| `EtherpadServices.EtherpadService.AttachSeat` | backend/session-manager/src/etherpad/etherpad.service.ts:107-122 | the admission outlives the discussion and the loop links the owner's pads and no others |
| `EtherpadServices.EtherpadService.Reconciled` | backend/session-manager/src/etherpad/etherpad.service.ts:212-262 | the whole supervisor pass in place is the specified one |
| `EtherpadServices.EtherpadService.RetireOver` | backend/session-manager/src/etherpad/etherpad.service.ts:214-225 | the loop ends the admissions of aborted sessions and finished participants |
| `EtherpadServices.EtherpadService.CreateGroupPads` | backend/session-manager/src/etherpad/etherpad.service.ts:228-236 | the loop gives every active started session its group pad once |
| `EtherpadServices.EtherpadService.CaptureUncaptured` | backend/session-manager/src/etherpad/etherpad.service.ts:245-252 | the loop captures every due pad and ends at the first failure |
| `ProlificActions.PaidAtMostOnce` | backend/session-manager/src/prolific/prolific-actions.service.ts:80-229 | over every sequence of operations, answers and failed writes the pay endpoint is called at most once, after a return request and a preparation of a positive amount, for an ended partial outcome |
| `ProlificActions.StaleScanPaysTwice` | backend/session-manager/src/prolific/prolific-actions.service.ts:43-132 | a concrete schedule that does |
| `StalePayments.GuardedPaysAtMostOnce` | backend/session-manager/src/prolific/prolific-actions.service.ts:43-229 | with passes over records read at any earlier point: at most one payment, properly prepared, when every pass after a payment meets the guard on the two records |
| `StalePayments.PassSafeExactly` | backend/session-manager/src/prolific/prolific-actions.service.ts:43-132 | after a payment, a pass can lead to no second one, whatever is answered and whatever operations follow, if and only if the two records meet the guard |
| `StalePayments.PreparedAgainPaysLater` | backend/session-manager/src/prolific/prolific-actions.service.ts:43-132 | a concrete pass that pays nothing itself and leaves a bonus an administrator then pays again |
| `ProlificActionsServices.ProlificWorker.ProcessAllDue` | backend/session-manager/src/prolific/prolific-actions.service.ts:43-59 | the loop works on the first due outcomes from the records read before the first, unless a pass is under way |
| `ProlificActionsServices.WorkedOnExact` | backend/session-manager/src/prolific/prolific-actions.service.ts:43-59 | one pass works on each listed outcome once and on no other |
| `Participation.JourneysOnlyGoOnward` | backend/session-manager/src/store/participation.store.ts:48-375 | over any stretch of any run identity and arrival stay, no stage moves back, a recorded outcome never changes, and a stage is terminal if and only if there is one |
| `Participation.HeartbeatBeatsClaim` | backend/session-manager/src/store/participation.store.ts:258-290 | between scan and claim, the claim wins if and only if no heartbeat landed and nothing ended the submission |
| `Participation.ClaimExact` | backend/session-manager/src/store/participation.store.ts:263-290 | a losing claim changes nothing, a winning one ends that submission alone |
| `Participation.ScanExact` | backend/session-manager/src/store/participation.store.ts:104-126 | the scan lists stale arrivals only: all if they fit, otherwise those unseen for longest |
| `ParticipationStores.ParticipationStore.RecordProlificArrival` | backend/session-manager/src/store/participation.store.ts:48-65 | a known submission is returned as it is, an unknown one is stored |
| `ParticipationStores.ParticipationStore.RecordParticipationStage` | backend/session-manager/src/store/participation.store.ts:140-157 | a heartbeat counts unless the journey ended; the stage moves on only |
| `ParticipationStores.ParticipationStore.TerminateStaleProlificParticipation` | backend/session-manager/src/store/participation.store.ts:263-284 | claims exactly when the submission is still stale |
| `ParticipationStores.ParticipationStore.ListStaleProlificArrivals` | backend/session-manager/src/store/participation.store.ts:104-126 | the loop, sort and cut compute the specified scan |
| `Shuffles.ShufflePermutes` | backend/session-manager/src/store/forming-session.ts:57-70 | every pick vector gives a permutation |
| `Shuffles.EveryOrderIsReached` | backend/session-manager/src/store/forming-session.ts:57-70 | every permutation is reached |
| `Shuffles.OneVectorPerOrder` | backend/session-manager/src/store/forming-session.ts:57-70 | on distinct items the picks can be read back from the order |
| `Shuffles.ShuffleIsBijective` | backend/session-manager/src/store/forming-session.ts:57-70 | every order of distinct items comes from exactly one pick vector |
| `Shuffles.ShuffleRankingOrder` | backend/session-manager/src/store/forming-session.ts:57-70 | the downward swap loop on a copy computes that shuffle and leaves the input alone |
| `Scoring.ScoreBounds` | backend/session-manager/src/reports/scoring.ts:13-26 | with an expert key onto 1..n every scored order has an even score of at most floor(n*n/2) |
| `Scoring.ZeroOnlyForExpert` | backend/session-manager/src/reports/scoring.ts:13-26 | zero if and only if it is the expert order |
| `Scoring.ReversalIsWorst` | backend/session-manager/src/reports/scoring.ts:13-26 | the full reversal is scored and attains the maximum |
| `Scoring.MoonScores` | packages/shared/src/tasks.ts:40-57 | for the ten moon-survival items at most 50, 0 for the expert order only, 50 for its reversal |
| `LabelSpread.LabelsApart` | frontend/admin-dashboard/src/session-detail.ts:412-427 | any two labels keep their vertical order, ties by input place, and stay gap apart |
| `LabelSpread.LabelsFit` | frontend/admin-dashboard/src/session-detail.ts:412-427 | nothing is above max, and nothing below min if and only if (n-1)*gap fits between them |
| `LabelSpread.LabelExact` | frontend/admin-dashboard/src/session-detail.ts:412-427 | a label sits exactly where the first pass put it, or as low as those after it allow |
| `LabelSpread.WellSpacedStay` | frontend/admin-dashboard/src/session-detail.ts:412-427 | well-spaced labels in range stay where they are |
| `LabelSpread.PushDown` | frontend/admin-dashboard/src/session-detail.ts:415-417 | the first pass in place |
| `LabelSpread.PullUp` | frontend/admin-dashboard/src/session-detail.ts:418-421 | the second pass in place |
| `LabelSpread.SpreadLabels` | frontend/admin-dashboard/src/session-detail.ts:412-427 | both passes and the hand-back compute the specified positions |
| `Csv.AlwaysReadsBack` | backend/session-manager/src/reports/csv.ts:6-16 | whatever is printed is read back, as its padded and guarded form |
| `Csv.RoundTripExactly` | backend/session-manager/src/reports/csv.ts:6-16 | the guarded cells come back if and only if there are rows and every row has cells |
| `Csv.OriginalReadsBackExactly` | backend/session-manager/src/reports/csv.ts:6-16 | the table itself comes back if and only if, besides, no cell starts a formula |
| `Csv.GuardCollidesExactly` | backend/session-manager/src/reports/csv.ts:10-16 | two cells print alike if and only if they are equal or one is the other with the guard typed in |
| `Equality.Gini` | backend/session-manager/src/reports/equality.ts:54-63 | the nested loops compute the pairwise formula; no value for fewer than two members or no contribution |
| `Equality.GiniLowest` | backend/session-manager/src/reports/equality.ts:49-63 | at least 0, and 0 if and only if all scores are equal |
| `Equality.GiniHighest` | backend/session-manager/src/reports/equality.ts:49-63 | at most (n-1)/n, and that if and only if one member has everything |

## Left out

- One runtime lineage per session is assumed in `Convergence` and `RoomRestarts`, where the stored session equals one snapshot. With several at once, or late writes of an earlier life, `ManyLives` keeps the content of every event; which ranking and rule state win is then open.
- `interventions` and `windowEvaluations` are merged without the revision check, so convergence assumes that a record never changes under its id, as the runtime only pushes them.
- SQL message and reaction rows and the upgrade of legacy reaction rows (`insertMessages`, `insertReactionEvents`, `markReactionsRedacted`): Prisma row mechanics.
- RuntimeCheckpoint.InsertAgrees: states the order of intervention and window rows as inserted, not as a later query orders them.
- ChatRoomSafety.FinalizedForGood: is about the research data; the lifecycle columns of a late finalize are in the matchmaking machine.
- Shutdown flushing, the recovery loop with its bounded concurrency (`forEachConcurrent`) and message moderation.
- Rule and window work inside the room machine adds arbitrary fresh records; what the rules record is in `ContributionRules`.
- SessionsServices.SessionsService.ReserveSeat: leaves out linking the Prolific arrival to the seat and the outcomes written for swept participants.
- MatchmakingSafety.EndedForGood: is about the in-memory store; the database's two awaits are in `StatusWrites`, on the status of one session.
- Wording of nudges, fallback rotation, the quietest members named in a prompt, classification calls and their prompts: classifier output is an arbitrary optional record.
- Timestamps are finite whole milliseconds; scores, shares and chart positions are exact reals instead of floating point.
- Goals of arms are fixed during a run of `Matchmaking`; arms may otherwise be edited, switched and reordered between joins.
- Credentials of members before provisioning, room invitations and kicks, and the notifications between the services.
- Matchmaking for arrivals of the writing workspace takes the admitted mode as a parameter of the request.
- Participation keys are pairs of study and session; the source joins them with a colon. The in-memory store is modelled: it stamps the stage time on a same-stage heartbeat, which the SQL path does not.
- Attempt counts, retry times and the selection of due outcomes; the worker may run at any time on a due record.
- Repository writes of the writing workspace always succeed, and the session facts of one reconcile are read once; a crash between storing a pad and its index is not modelled.
- In place, as methods, only what loops or is called by a loop, and the writes of a room: the administrator's payment operations, the small handlers of a room, and the pad requests are functions of their machines.
- Signed pad links, pad identities and colours.
- An expert key is a map; inherited property names of a JavaScript object are not items.
- `shareStdDev`, `engagementSummary`, `nudgeComparisons`, export column lists, request validation, tokens and guards: single-branch facts.
