# Receiving workspace: verified model

This project models the protocols of the receiving decision workspace that have to hold over every run: the two-level
token and money budget, evidence scope and citation closure, the WebSocket codec of the browser driver, the event
window and cursor stream, the crash and continuation protocols, and the client-side step machines. Each protocol is
stated twice. Value-level functions say what every step does, and lemmas prove what all runs, schedules or inputs keep.
Classes and methods with the source's own fields and loops are proved against them: a method's new state is the
corresponding step, or run of steps, from its old state. A response of the send loop is proved to be a value computed
pass by pass, and that value to be a run of the connection's steps in the order in which the loop takes them.

| file | what it models |
|---|---|
| `workflow_ledger.dfy` | the strict per-workflow ledger: reserve, reconcile, caps |
| `reservation_stream.dfy` | the adapter that clamps, reserves, streams and reconciles |
| `durable_ledger.dfy` | the append-only experiment ledger with its USD 3.00 cap |
| `experiment_runs.dfy` | runs over both ledgers, with crashes between reserve and settle |
| `json_pointer.dfy` | RFC 6901 evaluation as the citation checks perform it |
| `source_evidence.dfy` | the actor-scoped reader and the online and offline citation checks |
| `join_gate.dfy` | the AND join over OR edge scheduling |
| `websocket_frames.dfy` | RFC 6455 sections 5.2 to 5.5: printing, parsing, masking, fragmentation, pings |
| `event_window.dfy` | the bounded browser snapshot of the incident ledger |
| `event_stream.dfy` | cursor resolution, the reconnecting event stream, the send loop |
| `fake_erp.dfy` | the at-least-once step over an ERP, with and without a unique intent key |
| `native_session.dfy` | the session sequence that continues only from its exact predecessor |
| `barcode_capture.dfy` | the generation-guarded asynchronous scanner |
| `history_series.dfy`, `conversation_views.dfy` | segmentation of observations, and the retained chart |
| `candidates.dfy`, `wrappers.dfy` | shared datatypes |

Money is counted in units of 1e-7 USD, so one input token costs 55 and one output token 275. `dafny verify
dfyconfig.toml` checks everything.

## Assumptions

- Hashes are injective, so a hash is identified with what it hashes; the session identity is determined by case and
  variant. Each section under a lock, and each database commit, is one step.
- The provider, the graph runner, the workflow engine, the socket, other writers of the ledger and the browser are
  environments that may do anything within these rules: a checkpointed step is not run again; either edge of the graph
  may be evaluated at any time, and a node that failed is not recorded
  (`JoinGate.JoinHoldsExactlyWhenFailuresStop`: the join needs this); a provider may report any usage or none; a socket delivers any non-empty chunk; a
  generator's `finally` block runs.
- Run ids of an experiment are fresh, as line 2361 of
  `experiments/receiving_evidence_v1/receiving_evidence.py` makes them. The log bounds do not need this.
- An agent invocation that yields a result has stored at least one message.

## Where the code falls short of a plain promise

Each is proved with its exact condition, and shown on a witness.

- The budget ledger pops a reservation before it compares it. Books stay balanced exactly when the reservation is not
  forged (`WorkflowBudget.BalanceNeedsGenuineReservation`, `WorkflowBudget.ForgedReservationUnbalances`).
- The output bound of a stage can rise after the delegate refuses a clamp or drops its bound
  (`ReservationStream.RefusedClampRaisesBound`, `ReservationStream.BoundRisesAfterRefusedClamp`,
  `ReservationStream.BoundRisesAfterDroppedBound`).
- A repeated run id lets any number of model runs in: a reservation counts in full exactly for an id that is neither
  settled nor already reserved with a positive amount (`DurableLedger.CountedInFullIffFresh`,
  `DurableLedger.RepeatedIdAdmitsAnyNumber`).
- Index tokens with leading zeros are accepted, unlike section 4 of RFC 6901 (`JsonPointer.IndexTokenIsCanonical`,
  `JsonPointer.LeadingZeroIsAccepted`).
- Citations of a graph answer can pass online and fail offline, exactly when a specialist has not read
  (`SourceEvidence.OfflineIsOnline`, `SourceEvidence.UnreadGraphPassesOnlineOnly`).
- A masked frame without a payload that breaks off within its mask key is read as if it were whole, and no other
  proper prefix of a frame is (`WebSocketFrames.TruncatedFrame`, `WebSocketFrames.TruncatedEmptyFrameIsRead`).
- A pong or close between fragments makes the reader drop the message (`WebSocketFrames.FragmentedMessage`,
  `WebSocketFrames.PongBetweenFragmentsDropsMessage`).
- An automatic reconnection keeps the cursor of its URL, which wins over the last id received, so it resumes rightly
  only if the two agree (`EventStream.ReconnectionResumes`, `EventStream.CursorMustBeLastId`,
  `EventStream.StaleUrlRepeatsEvents`).
- The key of an existing ERP table decides, not the variant that runs on it (`FakeErp.RunComparison`,
  `FakeErp.CrashBeforeCheckpoint`, `FakeErp.TableDecidesNotVariant`).
- Two runs of a later turn can both complete if the second is checked before the first saves
  (`NativeSession.SecondStartAdmitted`, `NativeSession.OverlapForks`, `NativeSession.ForkFromEmpty`).
- Segments treat an absent and a null cohort property alike, the chart does not, so the latest observation can go
  missing (`ConversationViews.LatestIsShownIffStrictlyAlike`, `ConversationViews.AbsentThenNullShowsNothing`).

## Model

| member | source | states |
|---|---|---|
| `WorkflowBudget.StrictWorkflowLedger.Reserve` | experiments/receiving_evidence_v1/receiving_evidence.py:514-581 | A request is refused with the first check that it fails and then changes nothing; an admitted one is recorded under a fresh id with its whole bound reserved at both levels, and counts as one more request of its stage and of no other |
| `WorkflowBudget.AdmittedIffItFits` | experiments/receiving_evidence_v1/receiving_evidence.py:531-566 | On every ledger, an underestimated one included, a well-formed request is admitted if and only if every cap of stage and workflow still holds with its whole bound on the books; the cost check alone never refuses, because the token caps imply it |
| `WorkflowBudget.RefusalNamesItsCap` | experiments/receiving_evidence_v1/receiving_evidence.py:514-566 | Each refusal names a limit that the request would break |
| `WorkflowBudget.AdmissionsStopAtTheCap` | experiments/receiving_evidence_v1/receiving_evidence.py:534-538 | Over every run from a fresh ledger, forged reservations included, at most eight requests of a single stage, three of a specialist and two of the coordinator are admitted, every further one is refused for that, and the ids handed out are as many as the requests counted |
| `WorkflowBudget.RequestsCountAdmissions` | experiments/receiving_evidence_v1/receiving_evidence.py:575-576 | The request counter of a stage grows by exactly the admissions of that stage |
| `WorkflowBudget.SmallRequestsReachTheCap` | experiments/receiving_evidence_v1/receiving_evidence.py:531-566 | That many small requests are all admitted: no other cap refuses before the request cap does |
| `WorkflowBudget.StageCapsAddUpToWorkflowCaps` | experiments/receiving_evidence_v1/receiving_evidence.py:391-435 | The stage caps of each candidate add up to the caps of its workflow, whose full use costs 0.341 USD |
| `WorkflowBudget.StrictWorkflowLedger.Record` | experiments/receiving_evidence_v1/receiving_evidence.py:567-581 | Recording a reservation makes exactly the changes of an admission |
| `WorkflowBudget.StrictWorkflowLedger.Reconcile` | experiments/receiving_evidence_v1/receiving_evidence.py:587-639 | For every reservation and report, forged ones included: malformed usage changes nothing, a foreign reservation is refused after its id was popped, an own one is settled, and overuse is flagged and raised |
| `WorkflowBudget.StrictWorkflowLedger.Settle` | experiments/receiving_evidence_v1/receiving_evidence.py:607-622 | The bound leaves the reserved totals and the charge enters the actual totals of stage and workflow; unknown usage charges the whole bound and is noted |
| `WorkflowBudget.StrictWorkflowLedger.RemainingOutput` | experiments/receiving_evidence_v1/receiving_evidence.py:509-512 | The most that a stage of the candidate can still be asked for: every request above it is refused; and an error exactly for a stage that the candidate does not have |
| `WorkflowBudget.AdmissionKeepsSound` | experiments/receiving_evidence_v1/receiving_evidence.py:531-581 | An admission keeps every counter equal to the sum it stands for and, while nothing was underestimated, every stage within its caps |
| `WorkflowBudget.ReconciliationKeepsSound` | experiments/receiving_evidence_v1/receiving_evidence.py:603-639 | So does the reconciliation of any reservation that is not forged, on each of its exits |
| `WorkflowBudget.BalanceNeedsGenuineReservation` | experiments/receiving_evidence_v1/receiving_evidence.py:604-606 | After a well-formed reconciliation the books balance if and only if the reservation is not forged: its id is outstanding as that very reservation or not at all |
| `WorkflowBudget.ReconciliationMovesTheBound` | experiments/receiving_evidence_v1/receiving_evidence.py:607-622 | Reconciling an outstanding request keeps what is committed exactly when its whole bound is charged, as unknown usage always is; only a charge above the bound commits more, and no other stage or request changes |
| `WorkflowBudget.OveruseIsRaised` | experiments/receiving_evidence_v1/receiving_evidence.py:610-639 | On every ledger, a reconciliation raises, flags and notes exactly when the usage is above its bound or what is spent is above a cap; unknown usage is noted too |
| `WorkflowBudget.MalformedIffNegative` | experiments/receiving_evidence_v1/receiving_evidence.py:596-602 | Usage is malformed exactly when a count is negative, and then nothing changes |
| `WorkflowBudget.ForeignReservationIsPopped` | experiments/receiving_evidence_v1/receiving_evidence.py:604-607 | Exactly a reservation that is not outstanding, or of a stage that the candidate lacks, is refused, and its id is removed and nothing else changes |
| `WorkflowBudget.ForgedReservationUnbalances` | experiments/receiving_evidence_v1/receiving_evidence.py:604-606 | A concrete witness: the id of an outstanding request handed back with another bound is refused, yet leaves the books unbalanced |
| `WorkflowBudget.BudgetHoldsInEveryRun` | experiments/receiving_evidence_v1/receiving_evidence.py:465-639 | Over every run of reservations and reconciliations without forged reservations the books balance, and without underestimation actual plus reserved stays within stage caps, workflow caps and the cost cap |
| `WorkflowBudget.RunKeepsSound` | experiments/receiving_evidence_v1/receiving_evidence.py:514-639 | The same from any sound ledger |
| `WorkflowBudget.StageCapsImplyWorkflowCaps` | experiments/receiving_evidence_v1/receiving_evidence.py:391-435 | Within the stage caps a workflow costs at most 0.341 USD, so the stage caps imply the four workflow caps for every candidate |
| `WorkflowBudget.StageRoomIsWorkflowRoom` | experiments/receiving_evidence_v1/receiving_evidence.py:391-435 | Whatever room a stage has left in requests, input or output, the workflow has at least as much |
| `WorkflowBudget.StageAdmissionSuffices` | experiments/receiving_evidence_v1/receiving_evidence.py:531-566 | While nothing was underestimated, a request is admitted if and only if its stage admits it: the workflow request, input and cost checks never refuse first |
| `WorkflowBudget.FirstUnderestimateIsItsOwn` | experiments/receiving_evidence_v1/receiving_evidence.py:623-639 | Of the seven reasons to flag a ledger, the first flag ever raised comes exactly from a known usage above its own bound |
| `WorkflowBudget.OtherStagesLeaveStageAlone` | experiments/receiving_evidence_v1/receiving_evidence.py:607-621 | Operations of other stages do not touch the usage of a stage |
| `WorkflowBudget.ClampedBoundIsNotRefusedOnOutput` | experiments/receiving_evidence_v1/receiving_evidence.py:548-560 | A bound clamped to the remaining stage output is not refused on output later, whatever the other stages do in between |
| `ReservationStream.StrictReservationModel.SetProviderOutputBound` | experiments/receiving_evidence_v1/receiving_evidence.py:749-769 | The delegate is asked for exactly the clamped value, and the bound returned is what it then exposes, never above that value; nothing is asked of it when the clamp itself fails |
| `ReservationStream.ClampIsTheLargest` | experiments/receiving_evidence_v1/receiving_evidence.py:749-762 | The clamp is the largest output bound that setting, ceiling and stage still allow, and fails exactly when there is none |
| `ReservationStream.StrictReservationModel.Stream` | experiments/receiving_evidence_v1/receiving_evidence.py:814-898 | With other adapters running at every event, ledger and delegate go through a run of the model in which the own steps are exactly: open, observe each event before the first malformed one, close. The delegate's bound is the reserved one; the one reconciliation charges the sum of those events, or the whole bound if there were none. A stream failure leaves exactly if an event was malformed or the ending was not normal; else, unless the workflow was underestimated before, nothing is raised exactly for usage within the bound, absent usage exactly without a usage event, and underestimation exactly for usage above the bound |
| `ReservationStream.ExceptionThatLeaves` | experiments/receiving_evidence_v1/receiving_evidence.py:844-898 | The same of every consistent workflow: the exception is decided by the events, the ending and the bound alone |
| `ReservationStream.TallyIsSum` | experiments/receiving_evidence_v1/receiving_evidence.py:844-872 | What is counted is the sum of input, output and cache tokens of the usage events, up to a malformed one |
| `ReservationStream.StrictReservationModel.Consume` | experiments/receiving_evidence_v1/receiving_evidence.py:849-877 | The loop shows events to the consumer and counts usage until the first malformed one; the run's open stream holds the same tally |
| `ReservationStream.StrictReservationModel.Begin` | experiments/receiving_evidence_v1/receiving_evidence.py:814-830 | Clamp, serialisation and reservation make exactly the opening step, or report why no request is sent; a request that cannot be serialised reserves nothing but leaves the delegate clamped |
| `ReservationStream.StrictReservationModel.Finish` | experiments/receiving_evidence_v1/receiving_evidence.py:878-898 | The final reconciliation makes exactly the closing step of its stream; a failure of the stream leaves as it is, nothing is raised only after usage, and absent usage only without |
| `ReservationStream.StrictReservationModel.OthersRun` | experiments/receiving_evidence_v1/receiving_evidence.py:873 | Any steps of other adapters on the shared ledger leave the waiting stream and its stage's delegate as they are |
| `ReservationStream.OpenStreamHoldsItsTally` | experiments/receiving_evidence_v1/receiving_evidence.py:844-872 | In every interleaving an open stream has counted exactly the usage events shown to it, none of them malformed |
| `ReservationStream.TallyStopsAtMalformed` | experiments/receiving_evidence_v1/receiving_evidence.py:860-873 | Events after the first malformed one count for nothing |
| `ReservationStream.CloseReleasesItsReservation` | experiments/receiving_evidence_v1/receiving_evidence.py:878-898 | Leaving a stream removes exactly its own reservation and charges what it reported, or its whole bound; its reconciliation is never refused as unknown or malformed |
| `ReservationStream.RunKeepsConsistent` | experiments/receiving_evidence_v1/receiving_evidence.py:802-898 | In every interleaving of streams over one ledger, the outstanding reservations are exactly those of the open streams, and the ledger stays sound |
| `ReservationStream.AllEndedMeansNothingReserved` | experiments/receiving_evidence_v1/receiving_evidence.py:878-898 | When every stream of a workflow has ended, no reservation is outstanding and both reserved totals are zero |
| `ReservationStream.BoundNeverRises` | experiments/receiving_evidence_v1/receiving_evidence.py:749-769 | While the delegate takes the clamps, its bound never rises over any run of streams |
| `ReservationStream.LaterBoundIsNotLarger` | experiments/receiving_evidence_v1/receiving_evidence.py:749-769 | Of two requests of one stage the later one does not reserve more output, if the delegate took the clamps between them |
| `ReservationStream.RefusedClampRaisesBound` | experiments/receiving_evidence_v1/receiving_evidence.py:762-768 | After a refused clamp, whatever the delegate exposes, the next bound is higher if and only if the delegate dropped its bound or exposes a higher one, and the refused one was below both the request ceiling and the remaining stage output |
| `ReservationStream.BoundRisesAfterRefusedClamp` | experiments/receiving_evidence_v1/receiving_evidence.py:762-768 | A concrete witness of a bound that rises from 500 to 900 |
| `ReservationStream.BoundRisesAfterDroppedBound` | experiments/receiving_evidence_v1/receiving_evidence.py:752-753 | A concrete witness of a bound that rises from 500 to 1024 because the delegate dropped it |
| `DurableLedger.DurableExperimentLedger.State` | experiments/receiving_evidence_v1/receiving_evidence.py:2125-2140 | The loop over the rows yields the last reservation and the last settlement of each run id |
| `DurableLedger.DurableExperimentLedger.Add` | experiments/receiving_evidence_v1/receiving_evidence.py:2135-2139 | A dictionary is summed over all its keys |
| `DurableLedger.DurableExperimentLedger.ReserveWorkflow` | experiments/receiving_evidence_v1/receiving_evidence.py:2048-2069 | A row is appended exactly when charged plus unsettled plus requested stays within 3.00 USD, and nothing changes otherwise |
| `DurableLedger.DurableExperimentLedger.SettleWorkflow` | experiments/receiving_evidence_v1/receiving_evidence.py:2080-2116 | A settlement is appended exactly for a non-negative charge within an existing, unsettled reservation of that id |
| `DurableLedger.ReserveKeepsSound` | experiments/receiving_evidence_v1/receiving_evidence.py:2048-2069 | A reservation, of a repeated id too, keeps the log within the cap |
| `DurableLedger.SettleKeepsSound` | experiments/receiving_evidence_v1/receiving_evidence.py:2089-2116 | A settlement replaces its reservation by the charge in the committed total |
| `DurableLedger.ReservationAdds` | experiments/receiving_evidence_v1/receiving_evidence.py:2126-2139 | A reservation adds to the committed total its amount less what its id was holding already, and nothing for a settled id |
| `DurableLedger.CountedInFullIffFresh` | experiments/receiving_evidence_v1/receiving_evidence.py:2048-2055 | In every reachable log a model run that reserves is counted in full if and only if its id is neither settled nor already reserved with a positive amount |
| `DurableLedger.WhoIsAdmitted` | experiments/receiving_evidence_v1/receiving_evidence.py:2048-2069 | On every reachable log a rules run is admitted, and under a new id it commits nothing; a model run is admitted exactly while 0.35 of the 3.00 USD are left |
| `DurableLedger.LogStaysWithinCap` | experiments/receiving_evidence_v1/receiving_evidence.py:2036-2140 | Every log reachable with any run ids keeps charged plus unsettled reserved within 3.00 USD |
| `DurableLedger.SettlementsFollowReservations` | experiments/receiving_evidence_v1/receiving_evidence.py:2090-2103 | In every reachable log each settlement follows a reservation of its id, is the only one of its id, and does not exceed it |
| `DurableLedger.AtMostEightModelRuns` | experiments/receiving_evidence_v1/receiving_evidence.py:2050-2055 | With distinct run ids at most eight model runs are unsettled at once |
| `DurableLedger.RepeatedIdAdmitsAnyNumber` | experiments/receiving_evidence_v1/receiving_evidence.py:2126-2132 | With one repeated run id, any number of model runs is admitted and none of them settles |
| `ExperimentRuns.ExecuteCandidate` | experiments/receiving_evidence_v1/receiving_evidence.py:2361-2443 | A refused durable reservation leaves the log alone. Otherwise the workflow runs and its reservation is followed by a settlement of its actual cost if and only if that is within the reservation, as it always is without underestimation; else the settlement raises and the reservation stays |
| `ExperimentRuns.SettleSpent` | experiments/receiving_evidence_v1/receiving_evidence.py:2438-2443 | The settlement at the end of a run succeeds exactly when the log admits it |
| `ExperimentRuns.RunWorkflow` | experiments/receiving_evidence_v1/receiving_evidence.py:2367-2428 | A workflow that was not underestimated spends between nothing and what was reserved for it durably |
| `ExperimentRuns.RunFlow` | experiments/receiving_evidence_v1/receiving_evidence.py:2385-2410 | Running the stream steps one by one keeps open streams and reservations matched |
| `ExperimentRuns.StepKeepsSound` | experiments/receiving_evidence_v1/receiving_evidence.py:2361-2443 | Each start, stream step, crash and settlement keeps every run and the log in agreement |
| `ExperimentRuns.SettlementRefusedOnlyForOverspend` | experiments/receiving_evidence_v1/receiving_evidence.py:2102-2103 | In every reachable world a settlement is refused exactly when the run spent more than it reserved |
| `ExperimentRuns.SettlementSucceeds` | experiments/receiving_evidence_v1/receiving_evidence.py:2438-2443 | Over every interleaving of runs and crashes, a run that reaches settlement without underestimation settles its full actual cost and has no reservation outstanding |
| `ExperimentRuns.TotalSpendWithinCap` | experiments/receiving_evidence_v1/receiving_evidence.py:2361-2443 | Over every interleaving of runs and crashes without underestimation, all that runs spent and may still spend, plus what the log held before, stays within 3.00 USD |
| `ExperimentRuns.UndisturbedRunIsExecution` | experiments/receiving_evidence_v1/receiving_evidence.py:2361-2443 | A run that nothing disturbs leaves on the log exactly what one execution leaves: nothing if it is not admitted, else its reservation, and its actual cost unless that is above it |
| `ExperimentRuns.EndedRunStays` | experiments/receiving_evidence_v1/receiving_evidence.py:2102-2103 | A run that crashed, settled or was refused settlement stays as it is in every schedule |
| `ExperimentRuns.CrashedRunKeepsItsReservation` | experiments/receiving_evidence_v1/receiving_evidence.py:2361-2443 | In every schedule a crashed run is never settled, and its whole reservation stays on the log |
| `JsonPointer.ResolveJsonPointer` | experiments/receiving_evidence_v1/receiving_evidence.py:1145-1161 | The loop over the components computes the pointer evaluation, with its three errors |
| `JsonPointer.TwoPassesAreOne` | experiments/receiving_evidence_v1/receiving_evidence.py:1150 | Replacing `~1` and then `~0` equals one left-to-right decoding, on every token |
| `JsonPointer.DecodeEscape` | experiments/receiving_evidence_v1/receiving_evidence.py:1150 | Decoding an escaped name gives the name back, and an escaped name holds no slash |
| `JsonPointer.SplitJoin` | experiments/receiving_evidence_v1/receiving_evidence.py:1149 | Splitting at slashes undoes joining tokens that hold none |
| `JsonPointer.ParseDigits` | experiments/receiving_evidence_v1/receiving_evidence.py:1156-1158 | Reading the decimal digits of an index gives the index |
| `JsonPointer.IndexTokenIsCanonical` | experiments/receiving_evidence_v1/receiving_evidence.py:1156-1158 | An accepted index token is the one that section 4 of RFC 6901 allows if and only if it has no leading zero |
| `JsonPointer.LeadingZeroIsAccepted` | experiments/receiving_evidence_v1/receiving_evidence.py:1156-1158 | A witness: the token `00` resolves to the first element |
| `JsonPointer.PointerResolvesToSubValue` | experiments/receiving_evidence_v1/receiving_evidence.py:1145-1161 | For every non-empty path to a sub-value of any JSON value, its escaped pointer resolves to that sub-value |
| `JsonPointer.ResolvedValueIsSubValue` | experiments/receiving_evidence_v1/receiving_evidence.py:1145-1161 | Whatever a pointer resolves to is the sub-value at some non-empty path |
| `SourceEvidence.SourceReader.Retrieve` | experiments/receiving_evidence_v1/receiving_evidence.py:991-1047 | A refused read changes nothing; an accepted one returns the matching records of its packet, appends its call, and keeps the per-actor map equal to the fold of the call log |
| `SourceEvidence.ReadIsRefusedFor` | experiments/receiving_evidence_v1/receiving_evidence.py:999-1015 | A read is refused for the first that applies: no term, an actor that cannot read, the other specialist's source, a repeated id, an id outside the packet; and for nothing else |
| `SourceEvidence.ReadReturnsTheAnswers` | experiments/receiving_evidence_v1/receiving_evidence.py:1016-1043 | An accepted read returns exactly the records of the packet that were requested, or all if none were, in which every term occurs, or all of those on "all"; in the order of the request or of the packet |
| `SourceEvidence.ContainsIsOccurrence` | experiments/receiving_evidence_v1/receiving_evidence.py:1042 | A term matches exactly where it occurs at some position of the record's text |
| `SourceEvidence.SourceReader.MatchAll` | experiments/receiving_evidence_v1/receiving_evidence.py:1023-1034 | `all` selects every candidate; other terms select those whose text holds every term, in order |
| `SourceEvidence.SelectionIsAccepted` | experiments/receiving_evidence_v1/receiving_evidence.py:1010-1034 | What a read selects lies in the packet of its source, so its call is in its actor's scope |
| `SourceEvidence.LogReturnedStep` | experiments/receiving_evidence_v1/receiving_evidence.py:1035-1047 | One accepted call extends the fold of the log exactly as the reader extends its map |
| `SourceEvidence.SourceReader.ValidateCitations` | experiments/receiving_evidence_v1/receiving_evidence.py:1130-1142 | All citations pass exactly when each has an allowed actor and a literal equal to the value at its path in a record returned to that actor |
| `SourceEvidence.SourceReader.ValidateSpecialist` | experiments/receiving_evidence_v1/receiving_evidence.py:1071-1119 | An observation is accepted exactly with its own actor and identity, after a read by that actor, with a supported status and only literals that were returned to it |
| `SourceEvidence.ValidatedObservationIsEvidenced` | experiments/receiving_evidence_v1/receiving_evidence.py:1071-1119 | Of an accepted observation, every literal is the value at a non-empty path of a record that some read of that actor returned |
| `SourceEvidence.EvidencedObservationIsValid` | experiments/receiving_evidence_v1/receiving_evidence.py:1071-1119 | And an observation that is all that, with canonical pointers, is accepted |
| `SourceEvidence.AcceptedLiteralIsEvidenced` | experiments/receiving_evidence_v1/receiving_evidence.py:1058-1079 | No literal passes that its actor was not shown |
| `SourceEvidence.EvidencedLiteralIsAccepted` | experiments/receiving_evidence_v1/receiving_evidence.py:1058-1079 | Every value that its actor was shown passes under the canonical pointer to it |
| `SourceEvidence.StatusIsDetermined` | experiments/receiving_evidence_v1/receiving_evidence.py:1088-1117 | Packet, reads and literals leave one status open: unavailable, nothing matched, or evidence returned; literals need a read that returned something, and no literals an explanation |
| `SourceEvidence.EvidenceIsInScope` | experiments/receiving_evidence_v1/receiving_evidence.py:1003-1006 | What a specialist was shown is a record of its own source, and the coordinator was shown nothing |
| `SourceEvidence.AcceptedCitationsAreEvidenced` | experiments/receiving_evidence_v1/receiving_evidence.py:1130-1142 | Every citation of an accepted answer is by an actor of its candidate and says what that actor was shown |
| `SourceEvidence.EvidencedCitationsAreAccepted` | experiments/receiving_evidence_v1/receiving_evidence.py:1130-1142 | An answer that cites canonically, by such actors, what they were shown is accepted |
| `SourceEvidence.ActorScopeAndCitationClosure` | experiments/receiving_evidence_v1/receiving_evidence.py:1769-1828 | The evaluator's failure counting passes exactly when calls are in scope, every citation is closed under the case and the log, and a graph's specialists have both read |
| `SourceEvidence.OfflineIsOnline` | experiments/receiving_evidence_v1/receiving_evidence.py:1769-1828 | For every log of accepted reads the offline check passes if and only if the online citation check passes and, for the graph, both specialists have read |
| `SourceEvidence.OfflineTrustsNoLog` | experiments/receiving_evidence_v1/receiving_evidence.py:1769-1828 | Over any log at all, what passes offline made each read with its own tool in its actor's scope, and cites, by actors of its candidate, values of records of their source that a call returned to them |
| `SourceEvidence.ValidatedSpecialistsCloseTheGraph` | experiments/receiving_evidence_v1/receiving_evidence.py:1083-1085 | Two specialists that validated at any two times supply that requirement, so offline and online then agree for the graph |
| `SourceEvidence.UnreadGraphPassesOnlineOnly` | experiments/receiving_evidence_v1/receiving_evidence.py:1819-1822 | Without the reads they differ: an answer that cites nothing passes online and fails offline |
| `JoinGate.Gate.Evaluate` | experiments/receiving_evidence_v1/receiving_evidence.py:1339-1366 | The packet is replaced exactly when both nodes are recorded and both outputs exist under their own actors |
| `JoinGate.ReadyOnlyWithBoth` | experiments/receiving_evidence_v1/receiving_evidence.py:1339-1366 | An edge is ready exactly with both nodes and both outputs, and an error exactly when one of these names another actor |
| `JoinGate.StepKeepsJoined` | experiments/receiving_evidence_v1/receiving_evidence.py:1228-1237 | Each read, output, recorded node, edge evaluation and coordination keeps finished outputs validated and the packet built from them |
| `JoinGate.PromptsHoldBothValidated` | experiments/receiving_evidence_v1/receiving_evidence.py:1265-1268 | In every interleaving under OR edge scheduling, each coordinator prompt is built from a packet of the active case with both validated observations under their own actors, and the join never fails |
| `JoinGate.PromptsCiteWhatWasShown` | experiments/receiving_evidence_v1/receiving_evidence.py:1235-1236 | Over accepted reads, everything that either observation of a prompt cites was shown to its actor by a read of the run |
| `JoinGate.ValidatedPairReachesPrompt` | experiments/receiving_evidence_v1/receiving_evidence.py:1265-1268 | After any reads that validate two observations, whichever edge is evaluated, the coordinator's prompt holds just these two |
| `JoinGate.FailedOutputEndsGraph` | experiments/receiving_evidence_v1/receiving_evidence.py:1235-1236 | After an output that fails its validation nothing of the graph changes any more |
| `JoinGate.JoinErrorsEndGraph` | experiments/receiving_evidence_v1/receiving_evidence.py:1339-1366 | A join error arises exactly from an output under a wrong actor, or from a coordinator without a packet, and it ends the graph without a prompt |
| `JoinGate.RecordedFailureReachesPrompt` | experiments/receiving_evidence_v1/receiving_evidence.py:1235-1236 | A witness: if a graph recorded failed nodes, an unvalidated observation of another case would reach the prompt |
| `JoinGate.JoinHoldsExactlyWhenFailuresStop` | experiments/receiving_evidence_v1/receiving_evidence.py:1235-1236 | The assumption on the graph runner is necessary as well as sufficient: every prompt of every run is validated if and only if the runner does not record failed nodes |
| `WebSocketFrames.Client.SendFrame` | scripts/run_decision_workspace_smoke.py:447-459 | Exactly the bytes of a final frame, masked with the fixed key, in the shortest length form; a payload of 2^64 bytes or more is not sent |
| `WebSocketFrames.Client.RecvExact` | scripts/run_decision_workspace_smoke.py:461-475 | For every chunking of the socket, exactly the next bytes, or nothing after consuming what is left |
| `WebSocketFrames.Client.RecvRawFrame` | scripts/run_decision_workspace_smoke.py:477-501 | Reads what the frame parser reads and consumes the same bytes |
| `WebSocketFrames.Client.RecvAfter` | scripts/run_decision_workspace_smoke.py:483-501 | The same for what follows a header |
| `WebSocketFrames.Client.RecvFrame` | scripts/run_decision_workspace_smoke.py:503-528 | Returns, answers and consumes what the message reader does |
| `WebSocketFrames.Client.RecvRest` | scripts/run_decision_workspace_smoke.py:515-528 | The loop over continuation frames gathers fragments and answers pings in order |
| `WebSocketFrames.MaskedTwice` | scripts/run_decision_workspace_smoke.py:458 | Masking is its own inverse (section 5.3 of RFC 6455) |
| `WebSocketFrames.MaskedIsBitwise` | scripts/run_decision_workspace_smoke.py:457-458 | Bit by bit, each payload byte is combined with the key byte of its position modulo four (section 5.3 of RFC 6455) |
| `WebSocketFrames.EmptyObjectOnTheWire` | scripts/run_decision_workspace_smoke.py:447-459 | A witness: the eight bytes that carry the text `{}` |
| `WebSocketFrames.XorTwice` | scripts/run_decision_workspace_smoke.py:458 | Exclusive or with the same byte twice gives the byte back |
| `WebSocketFrames.BigEndianRoundTrip` | scripts/run_decision_workspace_smoke.py:454-456 | A length that fits is read back from its network-order bytes |
| `WebSocketFrames.NetworkOrder` | scripts/run_decision_workspace_smoke.py:453-456 | Byte by byte, a length is written with its most significant byte first |
| `WebSocketFrames.ShortestFormIsShortest` | scripts/run_decision_workspace_smoke.py:451-456 | No length form that fits the payload gives fewer bytes (section 5.2 of RFC 6455) |
| `WebSocketFrames.TopBitClear` | scripts/run_decision_workspace_smoke.py:456 | The top bit of a 64-bit length is clear exactly below 2^63 |
| `WebSocketFrames.RawRoundTrip` | scripts/run_decision_workspace_smoke.py:477-501 | Every legal frame, masked or not, in any length form that fits, followed by anything, is read back whole and nothing more is consumed |
| `WebSocketFrames.ClientRoundTrip` | scripts/run_decision_workspace_smoke.py:447-501 | For every opcode below 16 and every payload below 2^64 bytes, what is sent is read back as that final frame |
| `WebSocketFrames.FragmentedMessage` | scripts/run_decision_workspace_smoke.py:503-528 | Every split into fragments is delivered as the first opcode and the joined payload, with every ping answered in order, if and only if nothing but pings stands between the fragments (sections 5.4 and 5.5 of RFC 6455); otherwise there is no message, exactly the pings before the first other frame are answered, and everything after that frame stays unread |
| `WebSocketFrames.PongBetweenFragmentsDropsMessage` | scripts/run_decision_workspace_smoke.py:524-525 | A witness: a pong between the two fragments of a text makes the reader give it up |
| `WebSocketFrames.UnfragmentedMessage` | scripts/run_decision_workspace_smoke.py:513-528 | Any other first frame is one call's work: a final data frame is delivered alone, a ping is answered, and every other frame is dropped; nothing after it is read |
| `WebSocketFrames.PongIsRead` | scripts/run_decision_workspace_smoke.py:503-515 | The answer to a ping is a final pong of the same payload |
| `WebSocketFrames.TruncatedFrame` | scripts/run_decision_workspace_smoke.py:477-501 | Of all proper prefixes of all legal frames, exactly those of a masked frame without a payload that hold its length bytes are read, as that frame |
| `WebSocketFrames.TruncatedEmptyFrameIsRead` | scripts/run_decision_workspace_smoke.py:495-499 | A witness: the two header bytes of a masked empty frame |
| `EventWindow.BrowserSnapshot` | scripts/decision_workspace_server.py:260-296 | On a strictly increasing ledger the snapshot is its window; on any ledger it is strictly increasing, invents nothing, and shows every sequence of the tail by its last event; the three counts are right |
| `EventWindow.Listed` | scripts/decision_workspace_server.py:278-287 | Filling the dictionary by sequence in order and listing it by key |
| `EventWindow.CollectedMembers` | scripts/decision_workspace_server.py:278-287 | Of the events that share a sequence exactly the last one is listed, and events without a sequence are dropped |
| `EventWindow.SelectionIsWindow` | scripts/decision_workspace_server.py:278-287 | On a strictly increasing ledger, the dictionary detour and the sort give the kept events in ledger order |
| `EventWindow.NextAnchor` | scripts/decision_workspace_server.py:276-277 | The anchor dictionary holds exactly the latest event of each anchor type seen so far |
| `EventWindow.NextDetection` | scripts/decision_workspace_server.py:271-275 | The first detection is remembered and never replaced |
| `EventWindow.WindowMembers` | scripts/decision_workspace_server.py:266-287 | The window keeps the last 96 events, the first detection and the latest event of each anchor type, and nothing else |
| `EventWindow.WindowIsWhatWasPromised` | scripts/decision_workspace_server.py:266-287 | The window holds exactly the last 96 events, the first event of either detection type and the latest event of each anchor type |
| `EventWindow.WindowIncreasing` | scripts/decision_workspace_server.py:287 | The window of a strictly increasing ledger is strictly increasing and ends where the ledger ends |
| `EventWindow.WindowBound` | scripts/decision_workspace_server.py:182-199 | The window has at most 110 events |
| `EventWindow.WindowIdempotent` | scripts/decision_workspace_server.py:260-296 | Windowing a window returns the same events |
| `EventStream.AfterSequence` | scripts/decision_workspace_server.py:1665-1682 | A cursor is accepted exactly when the text that names it, query before header, is a non-negative integer |
| `EventStream.FirstConnectionStartsAtZero` | scripts/decision_workspace_server.py:1666-1667 | A first connection without any cursor starts before the first event |
| `EventStream.CursorPrecedence` | scripts/decision_workspace_server.py:1666-1667 | The first value of `after` decides, without one that of `after_sequence`, and only without both the header |
| `EventStream.ReconnectionResumes` | scripts/decision_workspace_server.py:1666-1667 | An automatic reconnection resumes at the last id received if and only if its URL names no cursor or names that id already |
| `EventStream.Page` | src/the_missing_20/experiment/ledger.py:187-208 | A page is the consecutive events after the cursor, and short of the limit only when the ledger ends |
| `EventStream.StepKeepsConsistent` | scripts/decision_workspace_server.py:1930-1960 | Each append, connection, page read, frame written, frame received and drop keeps received, in-flight and pending events consecutive |
| `EventStream.ExactlyOnceInOrder` | scripts/decision_workspace_server.py:1907-1976 | Over every schedule whose reconnections name the last id received, the browser holds each later event once and in order |
| `EventStream.FirstAfterReconnect` | scripts/decision_workspace_server.py:1930-1951 | The first event after a reconnection is the one after its cursor |
| `EventStream.CursorMustBeLastId` | scripts/decision_workspace_server.py:1908-1917 | With an event to deliver, the stream stays exact after a reconnection if and only if the cursor is the last id received |
| `EventStream.StaleUrlRepeatsEvents` | scripts/decision_workspace_server.py:1666-1667 | A witness: reconnecting with the cursor of the first connection delivers the first event again |
| `EventStream.OpenConnectionCatchesUp` | scripts/decision_workspace_server.py:1930-1970 | An open connection has delivered the whole ledger or has a step that brings it closer |
| `EventStream.WindowThenStream` | scripts/decision_workspace_server.py:250-256 | A browser that subscribes from the last event of its window receives every later event: nothing is missed between snapshot and stream |
| `EventStream.SendSse` | scripts/decision_workspace_server.py:1907-1976 | A bad or future cursor is refused with nothing written; otherwise ledger, frames and ending are exactly those of `Respond`, for every schedule of appends and rotations and every peer, and the events written carry the consecutive sequences after the cursor |
| `EventStream.RespondKeepsSending` | scripts/decision_workspace_server.py:1930-1970 | In every response the events written follow the cursor one by one; without rotation they are that stretch of the ledger and each heartbeat came after all that was there at open; it ends with a broken peer, a complete replay or a reset that names the latest sequence of a rotated ledger |
| `EventStream.ReplayIsExact` | scripts/decision_workspace_server.py:1910-1911 | Without rotation, whatever others append and however pages fall, a replay writes exactly the events from its cursor to the latest at open, as many as the peer takes, and is complete if and only if the peer takes them all |
| `EventStream.LiveStreamDelivers` | scripts/decision_workspace_server.py:1926-1970 | Without rotation a live response ends only with its peer, has written the stretch of the ledger after its cursor, and has written every event that was there at open unless the peer took fewer frames |
| `EventStream.ResetIffStranded` | scripts/decision_workspace_server.py:1931-1943 | Over every schedule, a response ends with a reset, its last frame, if and only if one of its passes finds its cursor beyond the ledger while the peer still takes frames |
| `EventStream.HeartbeatIffIdle` | scripts/decision_workspace_server.py:1968-1970 | Over every schedule, a frame is a heartbeat if and only if the pass that wrote it found nothing after its cursor in any of its reads: no event waits behind a heartbeat |
| `EventStream.ResponseIsRun` | scripts/decision_workspace_server.py:1930-1970 | Without rotation a response is a run of the connection: connect at the cursor, then pass by pass what others append at each of its reads, one page read and one write for each event written |
| `EventStream.ResponseContinuesReceived` | scripts/decision_workspace_server.py:1907-1976 | What a response writes for a browser that named the last id it received continues what the browser has, each event once and in order |
| `EventStream.SendTurn` | scripts/decision_workspace_server.py:1930-1970 | One pass of the loop is exactly one `Turn`: a reset for a cursor beyond the ledger, or a page, or the end of a replay, or a wait |
| `EventStream.SendPage` | scripts/decision_workspace_server.py:1944-1970 | The second half of a pass writes the whole page that is due, up to where the peer breaks; with none due it ends a replay, or waits |
| `EventStream.Await` | scripts/decision_workspace_server.py:1968-1970 | Waiting writes nothing if an event has come, and else one heartbeat, unless the peer is gone |
| `EventStream.NextPage` | scripts/decision_workspace_server.py:1944-1946 | A live stream takes the whole page after its cursor, a replay only what does not pass its target; it is empty exactly when nothing is left |
| `EventStream.WritePage` | scripts/decision_workspace_server.py:1948-1960 | The frames of a page are written in order, as many as the peer takes, and the cursor follows each frame written |
| `EventStream.Ledger.Elapse` | src/the_missing_20/experiment/ledger.py:155-185 | Other writers leave the ledger, or append the next sequences, or rotate it, as their schedule says |
| `EventStream.WritersCountOn` | src/the_missing_20/experiment/ledger.py:155-185 | What is appended carries the next sequences, after a rotation from one on |
| `FakeErp.Database.Initialize` | experiments/dbos-recovery-comparison/dbos_recovery_comparison.py:135-152 | Tables are created once; an existing table keeps its key whatever variant asks |
| `FakeErp.Database.WriteFakeErpEffect` | experiments/dbos-recovery-comparison/dbos_recovery_comparison.py:171-225 | One attempt is committed, then one effect or, on a key conflict, the original record or an error |
| `FakeErp.Runner.BillingWorkflow` | experiments/dbos-recovery-comparison/dbos_recovery_comparison.py:228-243 | A checkpointed step returns its checkpoint and touches neither table; a crash after the effect leaves no checkpoint |
| `FakeErp.CrashPhase` | experiments/dbos-recovery-comparison/dbos_recovery_comparison.py:485-497 | The first phase goes on only from one attempt and one effect |
| `FakeErp.RunComparison` | experiments/dbos-recovery-comparison/dbos_recovery_comparison.py:468-535 | The comparison succeeds exactly on an empty store, unless a table with a key meets the variant without; it ends with two attempts and one effect with the key, two effects without, and the replay returns the recovered record |
| `FakeErp.StepKeepsSound` | experiments/dbos-recovery-comparison/dbos_recovery_comparison.py:171-243 | Each start, commit, checkpoint and crash keeps rows, results and counts in agreement |
| `FakeErp.UniqueKeyGivesOneEffect` | experiments/dbos-recovery-comparison/dbos_recovery_comparison.py:202-225 | With the key, under every crash and recovery schedule, an intent has at most one effect and every result and replay for it carries that effect |
| `FakeErp.NoKeyCountsEveryAttempt` | experiments/dbos-recovery-comparison/dbos_recovery_comparison.py:183-200 | Without the key, the effects of an intent are its attempts less the executions that stand between the two commits |
| `FakeErp.CheckpointIsFinal` | experiments/dbos-recovery-comparison/dbos_recovery_comparison.py:228-243 | Once recorded, a checkpoint is the result for good |
| `FakeErp.ReplaysReturnCheckpoint` | experiments/dbos-recovery-comparison/dbos_recovery_comparison.py:325-340 | Once a workflow has its checkpoint, under every further schedule each later start of it returns that record and attempts nothing, in either variant |
| `FakeErp.CrashBeforeCheckpoint` | experiments/dbos-recovery-comparison/dbos_recovery_comparison.py:233-238 | A crash after the effect, then a recovery, gives one more attempt; a second effect and its id exactly without the key, the first effect with it; and a failure exactly when a table with a key meets the variant without; the crashed execution itself goes no further |
| `FakeErp.TableDecidesNotVariant` | experiments/dbos-recovery-comparison/dbos_recovery_comparison.py:147-152 | Two witnesses from the empty store: a table created with the key fails the variant without it, and one created without the key lets the variant with it leave a second effect |
| `NativeSession.SessionRoot.Admit` | experiments/native-receiving-comparison/native_session_sequence.py:489-518 | A turn is admitted exactly with a fresh session, or with a complete predecessor of the turn before, the same contract and the current snapshot; the first turn leaves its contract file |
| `NativeSession.TamperingIsRefused` | experiments/native-receiving-comparison/native_session_sequence.py:489-518 | With any other stored contract or history, any other record of its predecessor, or under any other contract, a turn that was admitted is refused |
| `NativeSession.SessionRoot.Converse` | experiments/native-receiving-comparison/native_session_sequence.py:523-560 | Each message extends the restored history and the whole history is stored |
| `NativeSession.SessionRoot.RunTurn` | experiments/native-receiving-comparison/native_session_sequence.py:411-627 | One run is the model's steps begin, saves and end; its record is complete exactly when it was admitted and the agent answered |
| `NativeSession.OnlyTheEndContinues` | experiments/native-receiving-comparison/native_session_sequence.py:495-518 | Only the end of a session's chain can be continued, and only while its snapshot is the stored one |
| `NativeSession.CompleteExtendsChain` | experiments/native-receiving-comparison/native_session_sequence.py:561-584 | A completed run is the next link of the chain |
| `NativeSession.StepKeepsSound` | experiments/native-receiving-comparison/native_session_sequence.py:489-600 | Each start, save, completion, failure and kill keeps every session's chain |
| `NativeSession.CompletedTurnsFormOneChain` | experiments/native-receiving-comparison/native_session_sequence.py:489-584 | When no check of a later turn falls between another check and its first save, completed turns are turns 1 to n, each once and in order, under one contract, each from its predecessor's snapshot |
| `NativeSession.TurnIsSpaced` | experiments/native-receiving-comparison/native_session_sequence.py:411-627 | Runs one after another are such a schedule |
| `NativeSession.FirstTurnCompletesOnce` | experiments/native-receiving-comparison/native_session_sequence.py:210-214 | However runs overlap, the first turn completes at most once and one contract governs all completed turns |
| `NativeSession.SecondStartAdmitted` | experiments/native-receiving-comparison/native_session_sequence.py:495-518 | A second start of a running later turn is admitted if and only if the running one has saved nothing yet |
| `NativeSession.OverlapForks` | experiments/native-receiving-comparison/native_session_sequence.py:495-584 | Two starts in that window both complete: the chain forks |
| `NativeSession.ForkFromEmpty` | experiments/native-receiving-comparison/native_session_sequence.py:489-584 | A witness from the empty root: one first turn, and two second turns that both complete |
| `NativeSession.StoppedRunSpoils` | experiments/native-receiving-comparison/native_session_sequence.py:585-600 | A stopped run leaves its session unable to continue if and only if it was the first turn or had stored a message |
| `NativeSession.SpoiledSessionStays` | experiments/native-receiving-comparison/native_session_sequence.py:489-518 | From then on no turn of that session ever completes |
| `BarcodeCaptures.BarcodeCapture.Stop` | workspace/barcode-capture.js:78-86 | A new generation, with the timer cleared and stream and URL released |
| `BarcodeCaptures.BarcodeCapture.Start` | workspace/barcode-capture.js:87-92 | Stops, opens a session under the new generation, and stops again for an unacceptable file |
| `BarcodeCaptures.BarcodeCapture.DecoderResolves` | workspace/barcode-capture.js:93-96 | A session that is no longer current does nothing more; a current one acquires a URL or asks for the camera |
| `BarcodeCaptures.BarcodeCapture.StreamResolves` | workspace/barcode-capture.js:98-100 | A stream that arrives late is stopped at once |
| `BarcodeCaptures.BarcodeCapture.PlayResolves` | workspace/barcode-capture.js:102-107 | Scanning begins only in the current session |
| `BarcodeCaptures.BarcodeCapture.Tick` | workspace/barcode-capture.js:108-118 | The end of the video stops the capture; a ready picture is decoded; otherwise the timer is set |
| `BarcodeCaptures.BarcodeCapture.TimerExpires` | workspace/barcode-capture.js:108-109 | A scheduled tick runs once, and only for the current session |
| `BarcodeCaptures.BarcodeCapture.DetectResolves` | workspace/barcode-capture.js:117-128 | Decoded readings are looked at only in the current session; a decoder error stops the capture |
| `BarcodeCaptures.BarcodeCapture.Scan` | workspace/barcode-capture.js:120-130 | The loop reports the next supported reading that was in the preceding frame and is new, stops the capture at the fifty-first, and otherwise makes the frame the preceding one |
| `BarcodeCaptures.BarcodeCapture.ReportResolves` | workspace/barcode-capture.js:126-127 | After a report the loop goes on only in the current session |
| `BarcodeCaptures.ReportsAreCurrentConfirmedAndUnique` | workspace/barcode-capture.js:117-128 | In every interleaving a code is reported only under its start's own generation, only when its format and value were read in two successive sampled frames, at most once and at most fifty times per start |
| `BarcodeCaptures.WaitingSessionReportedAll` | workspace/barcode-capture.js:119-130 | A session that waits for its next frame has reported a value if and only if some supported reading of it stood in two successive frames |
| `BarcodeCaptures.NothingLeaks` | workspace/barcode-capture.js:78-86 | In every interleaving each stream and URL acquired is the current one or released |
| `BarcodeCaptures.OnlyTheCurrentStartTicks` | workspace/barcode-capture.js:80-130 | In every interleaving a scheduled tick belongs to the current start, and each start that waits has its own scheduled |
| `BarcodeCaptures.StopSilencesEarlierStarts` | workspace/barcode-capture.js:78-80 | After `stop` or a new `start` nothing makes an earlier start report again |
| `BarcodeCaptures.CaptureEndsOnlyFor` | workspace/barcode-capture.js:78-131 | The generation moves with `stop`, with `start`, and otherwise exactly when the current session fails, its video ends, or a frame shows one code too many |
| `BarcodeCaptures.CurrentSessionGoesOn` | workspace/barcode-capture.js:87-131 | In every interleaving the current session waits for something that resumes it, is never over, and from its opening on holds the file or the camera that it was started for |
| `BarcodeCaptures.SessionMovesOn` | workspace/barcode-capture.js:93-130 | Whatever the current session waited for takes it on, unless that ends it: from the decoder to the file or the camera, to play, to a decoded picture or the next tick, to a report or the next tick |
| `BarcodeCaptures.CurrentSessionCanMove` | workspace/barcode-capture.js:87-131 | In every interleaving there is something that resumes the current session |
| `BarcodeCaptures.StartOpensItsSource` | workspace/barcode-capture.js:87-92 | A start leaves one new session of its source, waiting for its decoder; an unacceptable file leaves none |
| `BarcodeCaptures.OnlyReadyPicturesAreDecoded` | workspace/barcode-capture.js:111-130 | A picture is decoded if and only if it is ready; one that is not leaves a waiting capture exactly as it was |
| `BarcodeCaptures.EveryStreamIsCounted` | workspace/barcode-capture.js:98-100 | Every camera stream that arrives, too late or not, is on the books |
| `BarcodeCaptures.StepKeepsSound` | workspace/barcode-capture.js:78-131 | Each segment between two awaits keeps all of this |
| `HistorySeries.Series` | workspace/operations-history.js:29-48 | The loop returns the maximal runs |
| `HistorySeries.RunsAreMaximal` | workspace/operations-history.js:29-48 | Each segment is a stretch of adjacent usable observations of one cohort that cannot be extended on either side |
| `HistorySeries.SegmentsKeepUsablePoints` | workspace/operations-history.js:29-48 | The segments laid end to end are the usable observations in order |
| `HistorySeries.NeighboursShareIffJoined` | workspace/operations-history.js:39-45 | Two neighbours share a segment if and only if both are usable and each of the eight cohort properties is equal in both, or absent in one and null in the other; with no property absent, if and only if the cohorts are equal |
| `ConversationViews.LatestOf` | workspace/conversation-views.js:11-12 | The last usable observation that names its unit, or none if there is none |
| `ConversationViews.ChartUnit` | workspace/conversation-views.js:10-16 | The unit is the currency of a money metric and the unit of measure of any other, as the last usable observation with that property names it |
| `ConversationViews.NamedIffNotBlank` | workspace/conversation-views.js:12 | A text names a unit if and only if trimming it leaves something |
| `ConversationViews.OfCohortMembers` | workspace/conversation-views.js:15 | Exactly the segments whose first observation has the cohort, strictly compared |
| `ConversationViews.ChartNeverBridges` | workspace/conversation-views.js:14-15 | The chart holds whole segments in their order, so it joins only observations that were adjacent in the source |
| `ConversationViews.ChartShowsOneCohort` | workspace/conversation-views.js:13-15 | All that is shown agrees with the latest observation in each of the eight properties, absent and null taken alike |
| `ConversationViews.LatestIsShownIffStrictlyAlike` | workspace/conversation-views.js:12-15 | The latest observation is shown if and only if the first one of its segment has its cohort with absent and null told apart |
| `ConversationViews.ExplicitCohortsShowLatest` | workspace/conversation-views.js:12-15 | When no observation leaves a cohort property out, the latest one is always shown |
| `ConversationViews.ExplicitCohortsShowOneCohort` | workspace/conversation-views.js:12-15 | and everything shown then has exactly its cohort |
| `ConversationViews.AbsentThenNullShowsNothing` | workspace/conversation-views.js:12-15 | A witness: one observation without a property and one with it null form one segment, and nothing is shown |
| `ConversationViews.MessageSaysWhy` | workspace/conversation-views.js:16-17 | The message distinguishes exactly no usable value from none with a named unit |

## Left out

- Splitting a query into lower-cased terms and the canonical JSON text of a record are inputs of the reader. A JSON
  number is its canonical spelling, so that equal values are exactly those with equal canonical text.
- The answer's own identity and authority checks (experiments/receiving_evidence_v1/receiving_evidence.py:1124-1129) and the constant source mode: settled by reading one
  branch.
- `JsonPointer.ResolveJsonPointer`: index tokens are ASCII; the source's digit test accepts other digits as well, and
  raises an uncaught error for those that have no decimal value.
- `structured_output` of the adapter, event and attempt traces, timestamps, statuses, row hashes and file modes.
- Timeouts: of the socket, of a workflow, of the agent; and task cancellation that skips a `finally` block.
- `EventStream.AfterSequence`: integer parsing is a parameter, so its accepted spellings are not modelled.
- `EventStream.Page`: the identity checks on each page other than dense sequences are not modelled.
- Response headers, pacing delays and the text layout of a frame.
- `EventWindow.BrowserSnapshot`: the dictionary by sequence is kept as a list ordered by key, and the anchor dictionary
  as a list of one event per type in insertion order.
- `FakeErp.RunComparison`: the three child processes run in order on one store and one runner; process control, output
  parsing and the comparison of both variants are not modelled.
- `NativeSession.SessionRoot.RunTurn`: fixture, freeze, model and permission checks only add failures and are not
  modelled; runs that overlap are modelled on values only.
- DOM calls of the capture, state messages and the decoders themselves; a callback that calls `stop` at once is the same
  as a stop right after the report began.
- Concurrent streams, runs, executions, sessions and connections are modelled on values, step by step; their classes
  model one object at a time.
- Cohort properties that are objects or arrays, and drawing of the charts.
- ERP, Airtable, Jira, Celigo and Bedrock calls, provisioning, release checks, the smoke flow and the photo-receiving
  interface: input and output, or comparisons field by field.
