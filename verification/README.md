# JMCP control plane: a Dafny model

This project models the event-sourced control plane of JMCP and the small protocols around it, and
proves what holds over all of their runs.

- **Documents** (`Domain`): work orders, approvals, approval challenges and leases, as values with
  the specification of each operation, and as objects whose methods are proved against it.
- **The store** (`EventStore`, `Persistence`, `Refinement`): an append-only log and eight projection
  tables. `EventStore` says what a transaction, a replay and a rebuild do to log and tables;
  `Persistence` is the store object, whose transactions may be refused and roll back, and whose
  rebuild deletes the tables and projects the log again loop by loop; `Refinement` compares the
  tables kept up by the upserts with the tables replayed from the log.
- **The control plane** (`Microtasks`, `ControlPlane`, `StoreInvariant`, `SystemInvariant`, `Safety`,
  `Approvals`, `Interruptions`, `Transitions`, `Generation`, `Resubmission`, `Witnesses`): a step
  system with the store, the sweeps of the dispatcher with the snapshots they hold, and the microtask
  generator. A step is one call made under the store lock; it commits some prefix of the transactions
  the call means to make, so that every crash point and every refused write of every call is a state
  of some run. The theorems of `Safety`, `Approvals`, `Interruptions`, `Transitions`, `Generation` and
  `Resubmission` are about every sequence of steps.
- **The application** (`Application`): the object whose methods lock the store, read, change
  documents in memory and write them back. Its ghost `history` is the run of the step system that
  the store went through; every method adds its step to it, with other callers free to act wherever
  the lock is free, so the theorems about runs are theorems about the object (`StoreIsSafe`).
- **Cursors** (`EventStream`, `Telegram`): the `/events` subscription and the Telegram poll loop.
- **The cockpit** (`ReasonStream`, `Speech`, `Conversation`): the streamed reply, cut into lines and
  reassembled into tool calls, and the pieces of it that are queued to be spoken.
- **Jailgun** (`Jailgun`): the request canonicaliser that folds three account aliases into one field.

## What the proofs found

Statements that the code or its documentation suggest and that hold only under a condition. Each is
proved with its exact condition, or with a proviso and a run that shows the proviso is needed.

- A rebuild does not read `microtask.` events, so it puts a microtask back to Submitted, exactly
  when it was never up for approval (`Safety.RebuildResubmitsExactly`); the executor can then run it
  again (`Witnesses.RebuildRunsTwice`, `Resubmission.ClaimableExactly`), at most once more for each
  rebuild; and a finished microtask becomes an open duplicate of a later one
  (`Witnesses.RebuildDuplicates`, `Resubmission.RebuildDuplicatesExactly`).
- The write-back of a sweep uses the snapshot of its claim. It can move a work order from awaiting
  approval straight to completed (`Witnesses.WriteBackSkipsApproval`), and a challenge created
  between claim and write-back is the only way to get a status change that is not a transition
  (`Transitions.StatusChangesAreEdgesExactly`).
- A decision that is stopped between its transactions is in the log and on the work order, but its
  challenge stays pending for good (`Interruptions.DecisionIsCarriedExactly`).
- Evidence recorded about the nil uuid comes back from a rebuild as evidence about no work order
  (`Refinement.EvidenceSurvivesExactly`).
- A control-plane id used under two kinds may show the other record after a rebuild
  (`Refinement.ControlsAgree` says exactly when).
- The Telegram offset file is not written atomically. What a failed write may leave without an
  update being handled twice after a crash is said exactly (`Telegram.FailedWriteIsHarmlessExactly`);
  an emptied file is not harmless (`Telegram.EmptiedFileHandlesTwice`).

The `/events` route also has a branch for a batch that cannot be encoded: the cursor has passed the
batch, and an empty one is sent. The encoding of stored events does not fail, so the branch is
defensive; `EventStream` models it and says exactly when it would lose events.

## Model

| member | source | states |
|---|---|---|
| Safety.DecidedAtMostOnce | crates/jmcp-app/src/approval_flow.rs:46-163 | In every run, with any number of challenges outstanding, crashes and rebuilds, the log holds at most one `work_order.approval_decided` event per work order |
| Safety.DecisionsReachTheLogFirst | crates/jmcp-app/src/approval_flow.rs:80-92 | At every crash point and after any rebuild a decided challenge has its decision in the approval row; an approved approval row has a decision event that left the work order Approved, and a rejected one a decision event that left it Failed, in the log |
| Safety.ChallengesHaveTheirRows | crates/jmcp-app/src/approval_flow.rs:101-163 | Every stored challenge has an approval row for the same work order and approver with the same expiry, and a work-order row |
| Safety.NoRecordIsEverMissing | crates/jmcp-app/src/approval_flow.rs:68-79 | The two "record missing" answers of a decision are unreachable |
| Safety.LookUpsFindTheirOwn | crates/jmcp-store/src/store_queries.rs:17-55 | In every run a look-up finds the document it asked for: rows carry the keys they are stored under, and a token hash leads to the one challenge made with it |
| Approvals.DecisionIsAnsweredExactly | crates/jmcp-app/src/approval_flow.rs:46-99 | In every run, what a call on a challenge answers and writes: used, overdue, foreign, overdue at the second clock reading and no longer awaiting, in this order; otherwise the work order becomes Approved on an approval and Failed on a rejection, and approval row and challenge carry that decision |
| Approvals.UnknownTokenExactly | crates/jmcp-app/src/approval_flow.rs:52-57 | "Unknown token" is answered if and only if no stored challenge was made with the token |
| Approvals.SuccessMeans | crates/jmcp-domain/src/lib.rs:257-285 | In every run a successful approval leaves the work order Approved and a successful rejection leaves it Failed; the actor is the approver, user and chat of a pending challenge that is not overdue |
| Approvals.InvitedPersonDecides | crates/jmcp-app/src/approval_flow.rs:101-163 | Across both calls and whatever happens between: while the work order awaits approval, the approver, user and chat a challenge was created for can decide it until its deadline, and anyone else is answered "wrong approver" |
| Approvals.ChallengeIsStored | crates/jmcp-domain/src/approvals.rs:9-33 | A creation that is not stopped stores a pending challenge for exactly the work order, approver, channel, user, chat, token hash and deadline of the call |
| Approvals.CreateRecordsMean | crates/jmcp-app/src/approval_flow.rs:117-160 | When a creation writes, how many records, until when the challenge may be decided, and what it does to a Submitted or Leased work order, with the warning added |
| Approvals.CreatableExactly | crates/jmcp-app/src/approval_flow.rs:117-148 | In every run a challenge can be created if and only if the work order is Submitted, Leased or awaits approval: the answer "already decided" is unreachable |
| Interruptions.DecisionIsCarriedExactly | crates/jmcp-app/src/approval_flow.rs:80-92 | The converse of the write order: a decision in the log is carried by a challenge if and only if the call that made it was not stopped after its first or second transaction; a decision cut short is never completed by any later step |
| Interruptions.DecidedOrderIsNotDecidedAgain | crates/jmcp-domain/src/lib.rs:257-285 | Once the log holds a decision of a work order, no call on any of its challenges is answered with success |
| Safety.TokenIsSingleUse | crates/jmcp-domain/src/approvals.rs:35-63 | Once a challenge is decided or expired, every later attempt with its token is answered "already used" and writes nothing |
| Safety.RunMovesChallenges | crates/jmcp-store/src/projection.rs:96-119 | Over any stretch of any run challenge rows are never lost, keep their token hash, work order, approver and expiry, and a row that left Pending never changes again |
| Safety.GuardedOrdersAreNotClaimable | crates/jmcp-app/src/approval_flow.rs:117-160 | A work order with any approval or challenge row is neither Submitted nor Leased, and a claim on it commits nothing |
| Safety.NoClaimAfterChallenge | crates/jmcp-app/src/dispatch.rs:103-117 | Once a challenge was created for a work order, no later claim of it succeeds, in any run |
| Safety.ExecutedAtMostOnce | crates/jmcp-app/src/dispatch.rs:148-176 | In a run without rebuild no two executor starts are for the same work order: across concurrent sweeps, stale listings and crashes |
| Safety.ExecutedAtMostOncePerRebuild | crates/jmcp-app/src/dispatch.rs:148-176 | In any run the executor is started for a work order at most once plus once per rebuild |
| Safety.StartedWorkPassesGate | crates/jmcp-app/src/dispatch.rs:67-81 | In every run the task of whatever was started has `metadata.microtask` true, `evidence_oriented` true and not `live` true, although this was read outside the lock |
| Safety.LeasesOnlyExpire | crates/jmcp-domain/src/lib.rs:52-66 | In every run the lease of a claim validates for the claimed work order and the holder the sweep passes to the executor until it expires, and afterwards fails as expired and for no other reason |
| Safety.CompletionsCarryEvidence | crates/jmcp-app/src/dispatch.rs:120-134 | Every `microtask.completed` snapshot in the log has evidence |
| Safety.WriteBackMeans | crates/jmcp-app/src/dispatch.rs:120-144 | In every run a write-back completes the snapshot with all the produced evidence appended in order, or fails it with one warning, the error or `no_evidence_produced` |
| Safety.LeasedOrdersHaveTheirLease | crates/jmcp-app/src/dispatch.rs:103-117 | In every run, at every crash point and after any rebuild, a Leased work order has its lease on record: the lease is granted first |
| Safety.RebuildIsHarmlessInEveryRun | crates/jmcp-store/src/replay.rs:132-245 | In every run, rebuilt before or not, a rebuild succeeds (no token hash clashes), keeps the log, the work-order ids, all lease, approval, challenge, health and effect rows, the evidence up to the nil uuid, and the control-plane table exactly when every id shows the highest-ranked kind it was used under; and it is idempotent |
| Safety.RebuildResubmitsExactly | crates/jmcp-store/src/replay.rs:57-61 | A rebuilt work order is Submitted if and only if the log holds no awaiting-approval event for it |
| Resubmission.ClaimableExactly | crates/jmcp-app/src/dispatch.rs:94-117 | Whatever became of a work order, the run can go on so that it is claimed (once more) if and only if its task passes the dispatch gate and the log holds no awaiting-approval event for it |
| Resubmission.RebuildDuplicatesExactly | crates/jmcp-store/src/replay.rs:57-61 | A rebuild leaves two open microtasks of one entry and repository if and only if two that were not rejected, finished ones included, are of the same entry and repository |
| Resubmission.RebuiltIsOpenExactly | crates/jmcp-app/src/dispatch.rs:195-198 | A rebuilt work order counts as open if and only if the log does not hold its rejection |
| Witnesses.RebuildRunsTwice | crates/jmcp-app/src/dispatch.rs:103-144 | A concrete run in which a finished microtask is started a second time after a rebuild |
| Witnesses.RebuildDuplicates | crates/jmcp-app/src/dispatch.rs:181-213 | A concrete run of generator ticks and a sweep without duplicates, after which a rebuild leaves two |
| Witnesses.WriteBackSkipsApproval | crates/jmcp-app/src/dispatch.rs:120-144 | A concrete run, nothing refused and nothing crashed, in which a write-back moves a work order from AwaitingApproval to Completed, which is no edge |
| Transitions.StatusChangesAreEdgesExactly | crates/jmcp-app/src/dispatch.rs:103-144 | In a run without rebuild a persisted status change is an edge of the transition relation if and only if it is not a completion of a work order that was put up for approval and has not been approved since |
| Transitions.ClaimsAreOfUnchallengedOrders | crates/jmcp-app/src/dispatch.rs:103-117 | A successful claim is never of a work order that was put up for approval |
| Generation.NeverTwoOpenDuplicates | crates/jmcp-app/src/dispatch.rs:181-213 | With ticks of one generator, sweeps, approvals and crashes interleaved and no rebuild, at most one open microtask exists per entry and repository |
| Generation.AddedMicrotaskIsGenerated | crates/jmcp-app/src/dispatch.rs:181-191 | A microtask added to the table is the one the pending tick was about to submit, and is of its entry and repository |
| Microtasks.AcceptedPayloadPassesGate | crates/jmcp-app/src/microtasks.rs:336-409 | Overrides are accepted exactly when no guarded flag is set and both bounds are kept, and then the payload passes the auto-dispatch gate whatever they say |
| Microtasks.DispatchedExactly | crates/jmcp-app/src/dispatch.rs:56-81 | The gate both ways: Submitted, `metadata.microtask` true, `evidence_oriented` true, `live` not true |
| Microtasks.GuardedExactly | crates/jmcp-app/src/dispatch.rs:193-213 | The duplicate guard both ways: a row tagged as a microtask, of this entry's id, neither Completed nor Failed nor Cancelled, and with this `cwd` if a repository is named |
| Microtasks.GuardSeesGeneratedTask | crates/jmcp-app/src/microtasks/input_selection.rs:11-20 | An open work order with a generated payload is found by the duplicate guard for the same entry and override repository |
| Microtasks.PayloadLimits | crates/jmcp-app/src/microtasks.rs:336-396 | An accepted payload is evidence-only and not live, allows no network, GPU or durable mutation, and has the override or the cap as bounds |
| Microtasks.PayloadNamesItsEntry | crates/jmcp-app/src/microtasks.rs:377-409 | Its metadata name the entry and the planner, and keep the caller's metadata apart |
| Microtasks.PayloadNamesItsInputs | crates/jmcp-app/src/microtasks/input_selection.rs:11-43 | Repository, concept and model roots are the override or the entry's own, and absent where the entry takes none |
| Microtasks.MicrotaskPayload | crates/jmcp-app/src/microtasks.rs:336-409 | The guards in their order, then the payload built member by member; equals the specified payload |
| Microtasks.Bounded | crates/jmcp-app/src/microtasks.rs:458-474 | A value is accepted exactly from 1 to the cap, or when absent |
| Refinement.RebuildRefinesLive | crates/jmcp-store/src/replay.rs:41-245 | For every log the transactions can write, rebuild succeeds, keeps the log, restores leases, approvals, challenges, health and effects as the upserts left them, evidence up to the nil uuid, control-plane rows exactly under `HighestKindsShow`, and is idempotent |
| Refinement.EvidenceSurvivesExactly | crates/jmcp-store/src/replay.rs:74-94 | The evidence table survives a rebuild if and only if no row is about the nil uuid |
| Refinement.RebuiltOrderIsLastSnapshot | crates/jmcp-store/src/replay.rs:57-84 | A rebuilt work order is its last `work_order.` snapshot with the evidence recorded after it merged in, and is there exactly if such a snapshot is |
| Refinement.MergedAddsNewUris | crates/jmcp-store/src/replay.rs:74-84 | Merging keeps the snapshot's evidence, makes every recorded uri present, and adds only recorded evidence whose uri was not there before |
| Refinement.ControlsAgree | crates/jmcp-store/src/replay.rs:172-231 | The control-plane table, as upserts and rebuilds in any order leave it, survives a rebuild if and only if each id shows a record of the highest-ranked kind it was used under; no id is lost or added |
| Refinement.KindsInRebuildOrder | crates/jmcp-store/src/replay.rs:172-231 | The order of the kinds: voice sessions, attention packets, memory, inventory, promotions, incidents |
| Refinement.CommittedRecord | crates/jmcp-store/src/projection.rs:29-194 | What each transaction adds to the log and changes in its one table, under which key, and when a challenge is refused |
| Refinement.RebuildKeepsCurrent | crates/jmcp-store/src/replay.rs:132-245 | Evidence and control-plane tables stay of that form through rebuilds |
| Refinement.RebuildCommutes | crates/jmcp-store/src/replay.rs:132-245 | Rebuilding before or after a lease, approval, challenge, health, effect or `work_order.` record gives the same store |
| Refinement.RebuildKeepsFamilies | crates/jmcp-store/src/replay.rs:132-245 | The same in stores that were rebuilt before: keyed tables stay the projections of the log |
| StoreInvariant.CommitKeepsInv | crates/jmcp-store/src/lib.rs:142-199 | Every record a call may write keeps the invariant that ties live tables, replayed work orders and the log's decisions together |
| StoreInvariant.RebuildKeepsInv | crates/jmcp-store/src/replay.rs:132-245 | So does a rebuild |
| SystemInvariant.StepKeepsInv | crates/jmcp-app/src/approval_flow.rs:46-163 | Every step, stopped after any number of its transactions, keeps the invariant of store, sweeps and histories |
| SystemInvariant.CreateAllowed | crates/jmcp-app/src/approval_flow.rs:101-163 | Each record of a challenge creation, in the order it is committed, is allowed in the state the ones before it left |
| SystemInvariant.DecideAllowed | crates/jmcp-app/src/approval_flow.rs:46-99 | The same for a decision |
| SystemInvariant.ClaimEffect | crates/jmcp-app/src/dispatch.rs:103-117 | A successful claim is of a Submitted work order that passes the gate, leases exactly it, and hands out that snapshot |
| Domain.EdgesAreTheCalls | crates/jmcp-domain/src/lib.rs:222-326 | The transition relation is exact: a status can be reached by some call if and only if it is an edge |
| Domain.CallsKeepIdentity | crates/jmcp-domain/src/lib.rs:222-326 | No call changes id, subject, task, creation time or evidence of a work order |
| Domain.WorkOrder.Move | crates/jmcp-domain/src/lib.rs:313-325 | In place: moves to the new status if the old one allows it, otherwise changes nothing |
| Domain.WorkOrder.Lease | crates/jmcp-domain/src/lib.rs:222-237 | In place: leases a Submitted work order and returns the lease, or refuses unchanged |
| Domain.WorkOrder.RequireApproval | crates/jmcp-domain/src/lib.rs:239-255 | In place: puts a Submitted or Leased work order up for approval and returns the undecided approval |
| Domain.WorkOrder.ApplyApproval | crates/jmcp-domain/src/lib.rs:257-285 | In place: succeeds exactly for the right order and approver, in time, from AwaitingApproval; an approval then leaves it Approved and a rejection Failed; the approval is marked before the status is checked, so a failing move leaves it marked |
| Domain.WorkOrder.Complete | crates/jmcp-domain/src/lib.rs:287-293 | In place: completes a Leased or Approved work order |
| Domain.WorkOrder.Fail | crates/jmcp-domain/src/lib.rs:295-302 | In place: fails any work order and notes the reason |
| Domain.ApprovalChallenge.Decide | crates/jmcp-domain/src/approvals.rs:35-63 | In place: used, overdue and foreign attempts are refused in that order, an overdue one is marked expired, an accepted one carries its decision |
| Persistence.SqliteStore.AppendWorkOrder | crates/jmcp-store/src/lib.rs:142-149 | One transaction: event and upsert, or the store as it was |
| Persistence.SqliteStore.RecordLease | crates/jmcp-store/src/lib.rs:151-158 | The same for leases, keyed by work order and holder |
| Persistence.SqliteStore.RecordApproval | crates/jmcp-store/src/lib.rs:160-167 | The same for approvals, keyed by work order and approver |
| Persistence.SqliteStore.RecordApprovalChallenge | crates/jmcp-store/src/lib.rs:169-181 | The same for challenges; refused and rolled back if another row has the token hash, and hashes stay unique |
| Persistence.SqliteStore.InsertChallenge | crates/jmcp-store/src/projection.rs:96-119 | The upsert of a challenge never changes a stored token hash and fails exactly on a clash |
| Persistence.SqliteStore.RecordEvidence | crates/jmcp-store/src/lib.rs:183-199 | The same for evidence, logged under the nil uuid when it is about no work order |
| Persistence.SqliteStore.RecordAdapterHealth | crates/jmcp-store/src/lib.rs:201-208 | The same for adapter health, keyed by name |
| Persistence.SqliteStore.RecordEffect | crates/jmcp-store/src/lib.rs:210-217 | The same for effects |
| Persistence.SqliteStore.RecordControlPlane | crates/jmcp-store/src/store_queries.rs:141-158 | The same for the six kinds that share one table keyed by id alone |
| Persistence.SqliteStore.ApprovalChallengeByTokenHash | crates/jmcp-store/src/store_queries.rs:47-55 | The challenge with the token hash, which is one because hashes are unique |
| Persistence.SqliteStore.ListWorkOrders | crates/jmcp-store/src/store_queries.rs:13-15 | Every row once, latest change first |
| Persistence.SqliteStore.EventsAfter | crates/jmcp-store/src/replay.rs:247-269 | The events with an id above the cursor, in id order |
| Persistence.SqliteStore.ReplayProjection | crates/jmcp-store/src/replay.rs:41-130 | The loop over the log sorts it into families as `Replay` specifies |
| Persistence.SqliteStore.RebuildFromEvents | crates/jmcp-store/src/replay.rs:132-245 | Rebuilds all tables or leaves them as they were, never touches the log, and notes last event and number of work orders only after success |
| Persistence.SqliteStore.ProjectChallenges | crates/jmcp-store/src/replay.rs:156-159 | Reprojection stops exactly if some challenge clashes with one before it |
| Persistence.SqliteStore.ProjectControls | crates/jmcp-store/src/replay.rs:172-231 | The six loops project kind after kind, each in log order |
| Application.AppState.SubmitEnvelope | crates/jmcp-app/src/lib.rs:106-119 | Adds its step to the run; on success a Submitted work order of the given subject and task, without evidence or attention, is stored |
| Application.AppState.CreateApprovalChallenge | crates/jmcp-app/src/approval_flow.rs:101-163 | Commits a prefix of the specified records, all of them exactly on success, none if refused, and adds its step; the challenge is for the approver, channel, user and chat of the call; each refusal is tied to the row it is about |
| Application.AppState.DecideApprovalByToken | crates/jmcp-app/src/approval_flow.rs:46-99 | Commits a prefix of the specified records, all unless the database refused, answers as specified, and adds its step; a successful approval stores an Approved work order and a successful rejection a Failed one |
| Application.AppState.RecordControlPlane | crates/jmcp-app/src/control_plane.rs:95-141 | Adds its step; one transaction |
| Application.AppState.ReplayFromEvents | crates/jmcp-app/src/lib.rs:334-340 | Adds a rebuild step on success and leaves sweeps and the generator alone |
| Application.AppState.ListAutoDispatchable | crates/jmcp-app/src/dispatch.rs:94-100 | Lists exactly the Submitted rows with `metadata.microtask` true, `evidence_oriented` true and `live` not true |
| Application.AppState.ClaimWorkOrder | crates/jmcp-app/src/dispatch.rs:103-117 | Two transactions; on success the Submitted row is stored as Leased, its lease for the holder and time to live is stored, and the leased snapshot is returned |
| Application.AppState.CompleteWorkOrder | crates/jmcp-app/src/dispatch.rs:120-134 | Attaches the evidence to the snapshot in order, completes it and stores it, keeping its attention |
| Application.AppState.FailWorkOrder | crates/jmcp-app/src/dispatch.rs:137-144 | Fails the snapshot with the reason and stores it |
| Application.AppState.DispatchOne | crates/jmcp-app/src/dispatch.rs:155-174 | Claim, start and write-back are steps of one ticket with other callers in between; on success the history shows all three for the listed work order |
| Application.AppState.DispatchMicrotasksOnce | crates/jmcp-app/src/dispatch.rs:148-176 | What is dispatched is exactly the evidence-only, non-live Submitted rows; if no call fails, each met exactly one fate that the history bears out, and the report counts skipped, completed and failed ones, together the number listed |
| Application.TallyCountsEachOnce | crates/jmcp-app/src/dispatch.rs:44-52 | The three counters of a report add up to the number of fates |
| Application.TallyCounts | crates/jmcp-app/src/dispatch.rs:44-52 | Each counter counts what it is named after: no adapter, evidence brought, none brought or an error |
| Application.AppState.HasOpenMicrotask | crates/jmcp-app/src/dispatch.rs:193-213 | The loop over the listing answers true exactly if the table has a microtask of this id, not over, and in this repository if one is named |
| Application.AppState.GenerateMicrotaskIfAbsent | crates/jmcp-app/src/dispatch.rs:181-191 | Answers nothing exactly if the table had a microtask of this id in flight in this repository at the check; what it submits is stored, passes the gate and would be found by the next check |
| Application.StoreIsSafe | crates/jmcp-app/src/lib.rs:92-104 | After any sequence of calls the object's store holds at most one decision per work order, keeps the invariant, and can be rebuilt |
| Application.CallIsStep | crates/jmcp-app/src/approval_flow.rs:46-163 | A call that committed a prefix of its records is a step of the run |
| EventStream.SentIsExactlyWhatThePassedCursorCovers | crates/jmcp-api/src/routes_extra.rs:181-205 | Under any interleaving of appends, ticks and failures the batches concatenate to exactly the events above the start and up to the cursor, if and only if every tick that could not encode its batch came when no event was outstanding |
| EventStream.NothingLostWithoutEncodingFailure | crates/jmcp-api/src/routes_extra.rs:190-203 | Read errors lose nothing |
| EventStream.DeliveredTickCatchesUp | crates/jmcp-api/src/routes_extra.rs:190-203 | After a delivered tick no event is outstanding |
| EventStream.Subscription.Tick | crates/jmcp-api/src/routes_extra.rs:190-203 | For the answer of the store and the fate of the encoding, one tick of the closure is that tick of the protocol, and the client is sent the batch or nothing |
| EventStream.Subscription.Poll | crates/jmcp-api/src/routes_extra.rs:190-203 | The tick on what the store answers at the cursor |
| EventStream.EventsAfterIsAStretch | crates/jmcp-store/src/replay.rs:247-269 | What is read after a cursor is the contiguous stretch of the log from it on |
| Telegram.FailedWriteIsHarmlessExactly | apps/jmcpd/src/main.rs:222-231 | The exact condition on what a failed write leaves: short of another harmful write, nothing that follows handles an update twice or out of order, if and only if the offset left is above everything handled so far |
| Telegram.HandledAtMostOnceAndInOrder | apps/jmcpd/src/main.rs:143-208 | Over every run with fetch failures, harmless failed writes and crashes, updates are handled at most once and in order, what was handled is below the persisted offset, and until the first crash exactly the updates below the offset in memory were handled |
| Telegram.EachCrashLosesAtMostOne | apps/jmcpd/src/main.rs:171-208 | If failed writes do not run ahead either, each crash loses at most one update |
| Telegram.EmptiedFileHandlesTwice | apps/jmcpd/src/main.rs:210-231 | A concrete run in which a failed write empties the file and an update is handled twice |
| Telegram.PollLoop | apps/jmcpd/src/main.rs:143-208 | The loop, from whatever offset earlier processes and failed writes left, takes steps of the protocol and no others; if no write fails and it does not die, it handles exactly the updates it is offered from that offset on |
| Telegram.HandleBatch | apps/jmcpd/src/main.rs:171-206 | The inner loop over one answer: offset first, then the update; a failed write drops the rest and keeps the offset in memory; without one the whole batch is handled |
| Telegram.Processes | apps/jmcpd/src/main.rs:143-231 | Any number of processes one after another: if their failed writes were harmless they handle each update at most once and in order, and if the writes did not run ahead either they lose at most one each |
| Telegram.OffsetFile.Persist | apps/jmcpd/src/main.rs:222-231 | A successful write stores the next offset; a failed one may leave anything, because the file is truncated first |
| ReasonStream.TerminatedAppend | apps/cockpit/src/lib/speechClient.ts:223-235 | The lines of a text followed by another are those of the first, then those of its carried tail followed by the second |
| ReasonStream.UnterminatedLineIsDropped | apps/cockpit/src/lib/speechClient.ts:223-262 | Text after the last newline is never read |
| ReasonStream.ListenAppend | apps/cockpit/src/lib/speechClient.ts:232-262 | What later lines contribute does not depend on earlier ones |
| ReasonStream.AssembledCall | apps/cockpit/src/lib/speechClient.ts:251-260 | Fragment by fragment, an index gets the first non-empty id and name and the in-order concatenation of its argument pieces |
| ReasonStream.AssembledIndices | apps/cockpit/src/lib/speechClient.ts:251-260 | The call map holds exactly the distinct indices |
| ReasonStream.Stream | apps/cockpit/src/lib/speechClient.ts:187-271 | For every cutting into chunks: the deltas, text and calls of the terminated lines of the whole text, one call per distinct index in increasing order, `{}` for blank arguments; both loops terminate |
| ReasonStream.DataLineSays | apps/cockpit/src/lib/speechClient.ts:235-262 | A line `data:` with a payload gives the content of that payload as its one delta, if not empty, and calls of exactly its fragments; a blank payload or `[DONE]` gives nothing |
| ReasonStream.OtherLineSaysNothing | apps/cockpit/src/lib/speechClient.ts:236-238 | A line whose trimmed text does not start with `data:` gives nothing |
| ReasonStream.TextsAddUp | apps/cockpit/src/lib/speechClient.ts:223-262 | What a text says is what its lines say, one after another |
| ReasonStream.CallMeans | apps/cockpit/src/lib/speechClient.ts:251-260 | Which fragment gives a call its id and its name, and what its arguments are |
| ReasonStream.ReplyIsDetermined | apps/cockpit/src/lib/speechClient.ts:187-271 | A text has one reply, so the chunking cannot matter |
| ReasonStream.SortedIndices | apps/cockpit/src/lib/speechClient.ts:263-263 | The indices once each, smallest first |
| Speech.MatchIsGreedy | apps/cockpit/src/hooks/useVoiceAssistant.ts:221-221 | A match is plain text, then punctuation, then white space, each as long as possible |
| Speech.MatchesCover | apps/cockpit/src/hooks/useVoiceAssistant.ts:221-231 | The matches are consecutive from the start and leave text without clause punctuation |
| Speech.WholeReplyIsSpoken | apps/cockpit/src/hooks/useVoiceAssistant.ts:220-264 | For every delta sequence the non-blank characters of the queued pieces, in order, are those of the streamed text |
| Speech.HearSpeaks | apps/cockpit/src/hooks/useVoiceAssistant.ts:240-247 | After each delta nothing is lost and the pending text holds no clause punctuation |
| Speech.NothingPunctuatedWaits | apps/cockpit/src/hooks/useVoiceAssistant.ts:240-247 | After every delta none of `,.!?:;` is pending |
| Speech.UnpunctuatedDelta | apps/cockpit/src/hooks/useVoiceAssistant.ts:232-246 | Text without punctuation waits up to 28 characters before the first cut and 120 after it, and is then cut at its last space past the twelfth character |
| Speech.PunctuatedDelta | apps/cockpit/src/hooks/useVoiceAssistant.ts:220-243 | Text with punctuation is queued clause by clause up to the last clause |
| Speech.MatchesAreClauses | apps/cockpit/src/hooks/useVoiceAssistant.ts:221-221 | Each piece is plain text, then some of `,.!?:;`, then white space, and no piece leaves punctuation or white space of its own to the next |
| Speech.QueueIsClean | apps/cockpit/src/hooks/useVoiceAssistant.ts:195-203 | Queued pieces are trimmed at both ends and never blank |
| Speech.Voice.FlushChunks | apps/cockpit/src/hooks/useVoiceAssistant.ts:220-239 | In place: the loop over matches and the forced cut at the last space |
| Speech.Voice.OnDelta | apps/cockpit/src/hooks/useVoiceAssistant.ts:240-247 | In place: which of the two flushes a delta causes |
| Speech.Voice.SpeakHop | apps/cockpit/src/hooks/useVoiceAssistant.ts:253-264 | A whole hop queues exactly the non-blank characters of its deltas and leaves nothing pending |
| Conversation.SpeechFollowsTheReply | apps/cockpit/src/hooks/useVoiceAssistant.ts:253-264 | One hop from an empty queue: spoken and returned text agree but for white space, and nothing is queued exactly when the reply has no text |
| Conversation.RunCommand | apps/cockpit/src/hooks/useVoiceAssistant.ts:249-290 | A turn of up to four hops, going on while tools are called: what is queued is all the replies' texts in order, and the apology exactly when the last one has no text |
| Conversation.ChunkingIsInaudible | apps/cockpit/src/lib/speechClient.ts:223-262 | Two cuttings of one response lead to the same reply and the same spoken pieces |
| Jailgun.CanonicalizeRunRequest | crates/jmcp-adapter-jailgun/src/protocol.rs:24-68 | Accepts exactly the objects whose aliases are absent, or agree on distinct accounts with a browser object or none; the result has the accounts in their one place; and what each refusal means |
| Jailgun.CanonicalFormIsUnique | crates/jmcp-adapter-jailgun/src/protocol.rs:24-68 | That meaning leaves one outcome |
| Jailgun.Idempotent | crates/jmcp-adapter-jailgun/src/protocol.rs:24-68 | Canonicalising a canonical request changes nothing |
| Jailgun.EveryAgreeingChoiceGivesTheSame | crates/jmcp-adapter-jailgun/src/protocol.rs:28-63 | Requests equal but for their aliases that name the same accounts have the same outcome |
| Jailgun.OnlyAliasesChange | crates/jmcp-adapter-jailgun/src/protocol.rs:55-67 | No alias is left, the browser keeps its other members, every other key keeps its value |
| Jailgun.AgreeMeans | crates/jmcp-adapter-jailgun/src/protocol.rs:28-54 | Which three places name accounts, and what it is for all of them to name the same |
| Jailgun.RoutedMeans | crates/jmcp-adapter-jailgun/src/protocol.rs:55-67 | The canonical request key by key: `browser.account_ids` is the list, the two aliases are gone, everything else is kept |
| Jailgun.RejectDuplicateAccounts | crates/jmcp-adapter-jailgun/src/protocol.rs:87-95 | The growing set finds the first repeated account, and none exactly if all are distinct |
| Jailgun.ReadsExactlyEncodings | crates/jmcp-adapter-jailgun/src/protocol.rs:70-85 | A value reads as a list of accounts if and only if it is that list's encoding |
| Jailgun.Select | crates/jmcp-adapter-jailgun/src/protocol.rs:28-54 | Reads and compares the three aliases: agreed accounts, none named, or a refusal exactly if no accounts agree with all of them |

## Left out

- SQLite, serde and their failure modes: tables are maps keyed by the primary keys, JSON encoding is the identity, a transaction commits or is rolled back as a whole; wall-clock columns and evidence row ids are not modelled.
- Persistence.SqliteStore.InsertChallenge: a clash is looked for among the other rows whether or not the row's own id is already present; challenges are stored again only with the hash they have.
- Cryptography: token hashes are passed where the program passes tokens, signature checks on submission are not modelled, and fresh uuids are parameters required to be fresh or chosen outside the ids taken.
- Clocks: every call takes the instants it reads as parameters; two reads inside one call are two parameters where a branch depends on them, and nothing needs them to be monotone.
- Event names: work-order snapshots have the six names the live path writes; other `work_order.` names would replay like those three.
- Application.AppState.OtherCallers: the method makes any number of submit, create, decide, record and rebuild calls; its contract, the only thing callers use, also allows the steps of other sweeps.
- Generation.NeverTwoOpenDuplicates: one generator at a time, and microtask payloads reach the store through it only; direct and autonomous-action submissions of catalogue entries make no duplicate check in the program either.
- The executor and the adapters: an execution is an arbitrary list of evidence or an error, and the lease check inside adapters is only what `Safety.LeasesOnlyExpire` says of it.
- The Cancelled status, which no operation reaches, sample data, health probes, service cards and error-message texts.
- The microtask catalogue, prompt texts and local model roots: entries and surroundings are parameters of the payload.
- Telegram.PollLoop: runs for a given list of answers instead of forever; the decimal text of the offset file (and the refusal to start on text that is no number), the wrap-around of 64-bit ids and the effect of a handled message are not modelled.
- Telegram.FailedWriteIsHarmlessExactly: the bot server is taken to send everything at or above the offset it is asked from; that it forgets updates once a higher offset was asked for is not modelled.
- ReasonStream.Stream: starts at decoded text, and reading one JSON payload into content and fragments is a parameter; fragment indices are real numbers; fetch errors and aborts end the run outside the model.
- Conversation.RunCommand: the audio, the draining of the queue, aborts and errors, the tools' answers and the trimming of the history are not modelled; strings are sequences of Unicode characters, not of UTF-16 units.
- Jailgun.CanonicalizeRunRequest: reading the request from a path, the wire-version check and the search for prompt texts are not modelled.
- Microtasks.MicrotaskPayload: numbers are unbounded where the program has 32 and 64 bits; the caps of the catalogue are within both.
- HTTP routes other than `/events`, the CLI, the TUI, React views, the universe scores, ZYAL percentages and voice keyword matching: single-function facts.
