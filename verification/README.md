# Verified model of the agent-spreadsheet session core

This project models how agent-spreadsheet keeps a spreadsheet under revision control and proves what its
protocol promises. The modules follow the program's parts.

| part | modules |
|---|---|
| cells, documents, publications | Documents |
| write operations, transactions, the two ways to prepare one | Writes, CellWrites, Preparation |
| the journal record, replay, document ancestry | History, Ancestry, Records |
| commit storage, its failures, stored outcomes | Journals |
| the durable protocol as a step function, and what every step keeps | Protocol, Soundness, Runs |
| whole-run theorems | Guarantees, Service, Revisits, Retries, Approvals, Checkpoints |
| what each served request leaves behind | Effects |
| where runs start, and inputs on the failing side | Origins, Witnesses |
| the mutable owner and its recovery loops | Recovery, Sessions |
| import of legacy sessions | LegacyOrder, LegacyShape, LegacyImport |
| paged reading | Addresses, AddressForms, Paging |
| artifact store, forks, CSV, number rendering | Artifacts, Forks, Csv, NumberFormat |
| shared helpers | Wrappers, Sequences, Numerals |

The heart is one resident owner. Each request finds its own earlier record, is refused, or proposes a record and
the state to publish once that record is stored. Storage is an adversary: it may refuse, append, or append and lose
the acknowledgement, and reconciliation may itself fail. `Protocol` states this as functions, `Sessions` carries it
out on mutable state and is proved equal to those functions, and the theorems hold over every run of requests,
crashes and recoveries.

Hypotheses stand in the contracts: a session that continues after recovery from an empty journal has a new epoch
(`Approvals.FreshEpochs`); a restart record has a new request id (`Sessions.RecoverDurable`); a calculation engine
answers only for formula cells (`Runs.SaneEvaluation`), and what follows when it does not is proved too.

Hashes are injective: a content hash is the content, a request fingerprint is the tuple of what is hashed.
Documents that differ only in cached formula results count as logically equal, which is what the logical hash of
the program compares; recovery agrees with a live session up to that.

Five promises hold only under a condition. The model proves the exact condition and names an input that fails it.

| promise | holds exactly if | input that fails |
|---|---|---|
| redo inverts undo | the head lies on the current branch (`Revisits.RedosInvertUndos`, for any number of each) | `Witnesses.RedoMissesOtherBranch` |
| an importable session is imported | no event is nameless or has the name of a synthetic record of the session's own stream (`LegacyImport.NamesAreFree`) | `Witnesses.ImportableSessionIsRefused` |
| an import keeps the branch map | the legacy session has a branch `main` (`LegacyImport.Faithful`); otherwise a `main` at the base is added | `Witnesses.ImportAddsMain`; the store always writes `main`, so this is an edited branch file |
| a paged walk ends | no range runs to row 4294967295 (`Paging.WalkCompletesIffReachable`) | `Paging.LargestRowIsUnreachable` |
| a restore spares another fork checkpoint | its log is not longer than the restored one or it is dropped as later (`Forks.RestoreSparesIff`) | `Forks.TiedTimesLoseOperations` |

## Model

| member | source | states |
|---|---|---|
| `Guarantees.RecoveryRefinesLive` | crates/agent-spreadsheet/src/canonical_write.rs:2105-2231 | After any run of requests, lost acknowledgements, crashes and recoveries, rebuilding from the journal alone succeeds and gives the live session its own document (up to cached formula results), staged catalog, catalog generation and next revision. |
| `Guarantees.InterruptedRequestIsAllOrNothing` | crates/agent-spreadsheet/src/canonical_write.rs:3772-3904 | Whatever the storage does to a request, recovery then shows the state after it if its record is in the journal and the state before it if not, and nothing else. |
| `Guarantees.ErrorsAreFailStop` | crates/agent-spreadsheet/src/canonical_write.rs:1996-2001 | An error that leaves a session usable changed neither journal nor session; an unchanged journal means an unchanged session; a poisoned session serves nothing. |
| `Guarantees.HealthyStorageDecides` | crates/agent-spreadsheet/src/canonical_write.rs:3822-3903 | No false failure: with storage that works and has room, a proposed request under an unused commit identity succeeds if and only if what it names is acceptable to replay, and otherwise fails without effect. |
| `Guarantees.HistoryMovesAreServed` | crates/agent-spreadsheet/src/canonical_write.rs:4440-4625 | At every point of every run, with healthy storage and new identities, undo, redo, checkout of a known commit, a switch to a known branch and a restore of a saved checkpoint all succeed. |
| `Service.RequestsAreServedIffAdmitted` | crates/agent-spreadsheet/src/canonical_write.rs:3577-3904 | At every point of every run, with healthy storage and new identities, each of the thirteen operations succeeds if and only if what it asks for can be had, which is read off session and history beforehand: an admissible write and a new staged id, a bundle of the current revision, a known commit, a free or known branch name, a saved checkpoint, results for formula cells. |
| `Service.RecoveryIsServedIffNew` | crates/agent-spreadsheet/src/canonical_write.rs:4630-4694 | At every point of every run, recovery with healthy storage and room hands out the rebuilt session with its restart record journalled if and only if the restart's identities are new or the journal is empty. |
| `Service.PoisonIsExplained` | crates/agent-spreadsheet/src/canonical_write.rs:3822-3903 | A request poisons if and only if its evaluation failed, a stored calculation has results outside formula cells, or a commit was not acknowledged and reconciliation went unanswered. |
| `Guarantees.LiveMatchesLastRecord` | crates/agent-spreadsheet/src/canonical_write.rs:4715-4722 | Revision and catalog generation of a usable session are those of the last journal record. |
| `Retries.RequestsTakeEffectOnce` | crates/agent-spreadsheet/src/canonical_write.rs:4723-4745 | Once a record entered the journal, acknowledged or not, it is at every later point of the run the only one under its request identity, and asking again with the same input returns the original answer and changes nothing. |
| `Retries.RetryAnswersOriginal` | crates/agent-spreadsheet/src/canonical_write.rs:3577-3627 | For every operation and any later session, the early-return branch rebuilds exactly the answer the first call gave. |
| `Retries.UsedIdentitiesNeverProposeAgain` | crates/agent-spreadsheet/src/canonical_write.rs:3577-3627 | A journalled request identity never leads to a second record, whatever operation it is reused for. |
| `Retries.OtherInputIsRefused` | crates/agent-spreadsheet/src/canonical_write.rs:3577-3627 | Once a record entered the journal, asking under its identity for anything else is an error at every later point of the run and changes nothing; the one exception is the checkout that a restore amounts to. |
| `Approvals.SameRevisionSameDocument` | crates/agent-spreadsheet/src/canonical_write.rs:3055-3066 | No ABA over whole runs: equal revisions at two points of a run imply equal documents. |
| `Approvals.ApprovalPublishesPreviewedCandidate` | crates/agent-spreadsheet/src/canonical_write.rs:3721-3770 | An accepted staged apply publishes what its operations make of the document at any earlier moment of the run that had the bundle's base revision. |
| `Approvals.StagedAtOwnRevision` | crates/agent-spreadsheet/src/canonical_write.rs:3212-3226 | Staging stores the bundle under a new id with the owner's current revision as base and leaves the workbook alone. |
| `Revisits.RedosAfterUndos` | crates/agent-spreadsheet/src/canonical_write.rs:4522-4595 | After any number of served undos and then any number of served redos the path from the base to head is known exactly: undos take commits off its end, and redos put the next commits of the current branch on if what was left begins the path to its tip, and otherwise do nothing. Tree and branches stay as they are. |
| `Revisits.RedosInvertUndos` | crates/agent-spreadsheet/src/canonical_write.rs:4522-4595 | As many redos as undos, at least one and no more than there are commits to undo, return to the same head if and only if that head lies on the current branch; then the document is back too. |
| `Revisits.RedoInvertsUndo` | crates/agent-spreadsheet/src/canonical_write.rs:4522-4595 | The case of one: undo then redo leaves every branch tip alone and returns to the same head if and only if that head lies on the current branch; then the document is back too. |
| `Witnesses.RedoMissesOtherBranch` | crates/agent-spreadsheet/src/canonical_write.rs:4522-4595 | The failing side is reached by a run: the journal imported from a session with two roots on two branches, main selected and the other root checked out, is recovered; undo goes to the base and redo then goes to the root of main, all three served by healthy storage. |
| `Revisits.UndoRestoresDocument` | crates/agent-spreadsheet/src/canonical_write.rs:4522-4558 | Undo right after any document write gives back the document and head from before it and keeps the branch map as the write left it. |
| `Revisits.SwitchingBackRestores` | crates/agent-spreadsheet/src/canonical_write.rs:4440-4488 | Switching to another branch and back lands on the first branch's tip with the branch map unchanged, and restores its document. |
| `Revisits.SameHeadSameDocument` | crates/agent-spreadsheet/src/canonical_write.rs:2866-2921 | Two points of a run with the same head have logically equal live documents. |
| `Effects.WriteTakesEffect` | crates/agent-spreadsheet/src/canonical_write.rs:4699-4873 | A first write is answered with its own report. A preview, and a request of which an operation fails where all must succeed, leaves no trace; an apply leaves the document its operations make; a stage keeps the whole request under the new identity at the current revision. A cell-only apply that changes nothing leaves the workbook as it was; any other commit moves both counters, and only operations of style let the calculation proof stand. |
| `Effects.ApplyStagedTakesEffect` | crates/agent-spreadsheet/src/canonical_write.rs:3721-3770 | Applying a staged change applies exactly its operations and takes it off the list; a failing one leaves no trace. |
| `Effects.DiscardTakesEffect` | crates/agent-spreadsheet/src/canonical_write.rs:3629-3719 | A discard takes exactly the named change off the list and reports whether there was one. |
| `Effects.RecalculationStores` | crates/agent-spreadsheet/src/canonical_write.rs:4049-4231 | A served recalculation gives every cell of its results exactly that result, keeps its formula, leaves every other cell, the sheets and the staged changes alone, makes the proof current, and moves the state counter by one. |
| `Effects.StampsFollowDocuments` | crates/agent-spreadsheet/src/canonical_write.rs:3860-3900 | What becomes of the calculation proof in every request that writes nothing: current after a recalculation, void after a revocation and whenever the document moves, untouched otherwise. |
| `Effects.NewBranchTakesEffect` | crates/agent-spreadsheet/src/canonical_write.rs:4370-4438 | A new branch points at the head, at the base if so asked, or at the named commit; head, branch, document and every other branch stay. |
| `Effects.CheckoutTakesEffect` | crates/agent-spreadsheet/src/canonical_write.rs:4597-4625 | A checkout goes to the named commit and its document, and leaves branches, checkpoints and staged changes alone. |
| `Effects.RestoringTakesEffect` | crates/agent-spreadsheet/src/canonical_write.rs:4277-4321 | A restore goes to the head the checkpoint remembers, and to its document. |
| `Effects.SavingTakesEffect` | crates/agent-spreadsheet/src/core/resident_storage.rs:404-418 | A checkpoint remembers head, revision and title of its moment under the request identity; nothing else moves but the catalog generation. |
| `Effects.DeletingTakesEffect` | crates/agent-spreadsheet/src/canonical_write.rs:4323-4357 | Deleting forgets exactly the named checkpoint. |
| `Effects.HopelessIsRefused` | crates/agent-spreadsheet/src/canonical_write.rs:4370-4438 | A request whose target is no document commit, or whose branch, checkpoint or staged change is not there, or that is not current or not valid, is refused before storage is asked, whatever storage would do. |
| `Effects.RepliesNameTheRevision` | crates/agent-spreadsheet/src/canonical_write.rs:3893-3903 | Moves, branches, checkpoints and revocations are answered with the revision the session then has. |
| `Checkpoints.RestoreReturnsToSave` | crates/agent-spreadsheet/src/canonical_write.rs:4277-4321 | Over any run that does not ask to delete it, crashes and recoveries included, a checkpoint keeps head, revision and title of its save; a served restore then comes back to that head and to a document with the logic of the one live at the save, and leaves the branches where the run had them. |
| `Checkpoints.DeletedStaysDeleted` | crates/agent-spreadsheet/src/canonical_write.rs:4323-4357 | No run brings a deleted checkpoint back. |
| `Runs.RunsStayGood` | crates/agent-spreadsheet/src/canonical_write.rs:3772-3904 | Session and journal stay in step over every run: replay accepts the journal, agrees with the live revision, generation and catalog, and the live document is the fold of publications along head's ancestry. |
| `Origins.RunsFromOpened` | crates/agent-spreadsheet/src/canonical_write.rs:1948-1966 | Every run from a session opened on its base keeps session and journal in step. |
| `Origins.RunsFromImported` | crates/agent-spreadsheet/src/canonical_write.rs:2105-2231 | So does every run that starts by recovering an imported stream. |
| `Origins.ImportedHeadIsRecovered` | crates/agent-spreadsheet/src/canonical_write.rs:2105-2231 | Recovering an imported stream gives the document the legacy session showed. |
| `Runs.ProposalsAreSound` | crates/agent-spreadsheet/src/canonical_write.rs:3772-3904 | Every proposed record of every operation is admitted by replay if and only if its commit identity is unused and what it names is acceptable; its publication then succeeds at the predicted revision and keeps the invariant. |
| `Runs.RebuiltIsInStep` | crates/agent-spreadsheet/src/canonical_write.rs:2105-2231 | Recovery never refuses a journal that a run produced. |
| `Soundness.ControlIsSound` | crates/agent-spreadsheet/src/canonical_write.rs:3807-3818 | Records of control transitions (undo, redo, checkout, branches, checkpoints, receipts, revocation) are admitted exactly as published. |
| `Soundness.WriteIsSound` | crates/agent-spreadsheet/src/canonical_write.rs:4755-4872 | A write record, including a staged apply that publishes nothing, is admitted exactly when its identities are new, and publishing it keeps the session in step. |
| `Soundness.NewBranchIsSound` | crates/agent-spreadsheet/src/canonical_write.rs:4409-4416 | The branch target test looks only at the kind of transition; a staged apply that published nothing passes it but is admitted only if it is a document commit. |
| `Sessions.ResidentSession.Serve` | crates/agent-spreadsheet/src/canonical_write.rs:1937-2231 | Every request served by the mutable session moves journal, session, poison flag and reply exactly as one step of the run semantics. |
| `Sessions.ResidentSession.CommitControl` | crates/agent-spreadsheet/src/canonical_write.rs:3772-3904 | Journal first, publish second: the three endings of a commit (stored, absent, unknown) and a failed publication leave journal, session and reply as specified. |
| `Sessions.ResidentSession.ExecuteWrite` | crates/agent-spreadsheet/src/canonical_write.rs:4699-4873 | Revision check, identity lookup, preparation, commit and publication of a write, with poisoning where the outcome is unknown. |
| `Sessions.ResidentSession.PublishTransaction` | crates/agent-spreadsheet/src/canonical_write.rs:3504-3557 | Publishes document, catalog entry and consumption together and says whether the predicted revision was reached. |
| `Sessions.ResidentSession.ApplyStaged` | crates/agent-spreadsheet/src/canonical_write.rs:3721-3770 | A staged apply is refused unless bundle, expectation and session name one revision. |
| `Sessions.ResidentSession.DiscardStaged` | crates/agent-spreadsheet/src/canonical_write.rs:3629-3719 | Discarding a known change advances the catalog; an unknown one leaves a receipt. |
| `Sessions.ResidentSession.Recalculate` | crates/agent-spreadsheet/src/canonical_write.rs:4049-4231 | A failed evaluation poisons before anything is journalled; a stored proof that cannot be published leaves the session poisoned. |
| `Sessions.ResidentSession.CreateBranchAt` | crates/agent-spreadsheet/src/canonical_write.rs:4370-4438 | Branch creation with its name and target checks; label and target are measured in UTF-8 bytes. |
| `Sessions.ResidentSession.SwitchBranch` | crates/agent-spreadsheet/src/canonical_write.rs:4440-4488 | Branch switching, materialising the tip only when it differs from head. |
| `Sessions.ResidentSession.Undo` | crates/agent-spreadsheet/src/canonical_write.rs:4522-4558 | Undo, or a receipt at the base. |
| `Sessions.ResidentSession.Redo` | crates/agent-spreadsheet/src/canonical_write.rs:4560-4595 | Redo to the child on the path to the branch tip, or a receipt. |
| `Sessions.ResidentSession.Checkout` | crates/agent-spreadsheet/src/canonical_write.rs:4597-4625 | Checkout of a document commit. |
| `Sessions.ResidentSession.RestoreCheckpoint` | crates/agent-spreadsheet/src/canonical_write.rs:4277-4321 | Restoring a checkpoint is a checkout of its head. |
| `Sessions.ResidentSession.DeleteCheckpoint` | crates/agent-spreadsheet/src/canonical_write.rs:4323-4357 | Deleting a checkpoint moves the catalog generation, not the revision. |
| `Sessions.ResidentSession.SaveCheckpoint` | crates/agent-spreadsheet/src/canonical_write.rs:4233-4264 | Saving a checkpoint moves the catalog generation, not the revision. |
| `Sessions.ResidentSession.RevokeCalculation` | crates/agent-spreadsheet/src/canonical_write.rs:3991-4036 | Revoking a proof, or a receipt when there is none. |
| `Sessions.ResidentWorkbook.PublishPreparedCells` | crates/agent-spreadsheet/src/recalc/resident.rs:226-288 | All preconditions are checked before any cell changes; success assigns every effect and bumps both counters. |
| `Sessions.RecoverFromRecords` | crates/agent-spreadsheet/src/canonical_write.rs:2105-2231 | The rebuilding loops produce the specified session, and refuse exactly when replay or some document commit does not rebuild. |
| `Sessions.RecoverDurable` | crates/agent-spreadsheet/src/canonical_write.rs:4630-4694 | A rebuilt session is handed out only once its restart boundary is known to be stored. |
| `Recovery.MaterializeHead` | crates/agent-spreadsheet/src/canonical_write.rs:2866-2921 | The walk up the ancestry and the fold back down give the document at any target, including targets that are not document commits. |
| `Recovery.StreamOrderIsAncestryOrder` | crates/agent-spreadsheet/src/canonical_write.rs:2140-2146 | Applying the active commits in stream order is folding along the ancestry of head. |
| `Recovery.RecoverCatalog` | crates/agent-spreadsheet/src/canonical_write.rs:2172-2231 | The catalog pass never fails on a replayable journal and ends at the replayed generation. |
| `Recovery.RecoverDocument` | crates/agent-spreadsheet/src/canonical_write.rs:2140-2170 | Active pass plus the check of every inactive document commit. |
| `Ancestry.HistoryTreeIsSound` | crates/agent-spreadsheet/src/core/resident_storage.rs:142-587 | Heads, branch tips and checkpoints of every replayable journal name the base or an earlier publishing record, whose history parent is older still. |
| `Ancestry.RedoWalkEnds` | crates/agent-spreadsheet/src/core/resident_storage.rs:600-623 | The redo walk of a replayable journal never meets a cycle or an unknown commit. |
| `Ancestry.AncestorsEnd` | crates/agent-spreadsheet/src/core/resident_storage.rs:625-641 | The ancestry walk ends, and at the lineage read off the journal alone. |
| `Ancestry.HeadsKeepTheirDocument` | crates/agent-spreadsheet/src/core/resident_storage.rs:142-587 | Appending a record leaves the document at every earlier head alone. |
| `Ancestry.RevisionsNeverComeBack` | crates/agent-spreadsheet/src/core/resident_storage.rs:142-587 | Revisions only move up along a journal, and equal ones have the same head and document. |
| `Ancestry.CatalogFollowsStream` | crates/agent-spreadsheet/src/core/resident_storage.rs:142-587 | Replay's set of staged ids is that of the catalog rebuilt in stream order. |
| `Records.RecordsContinue` | crates/agent-spreadsheet/src/core/resident_storage.rs:142-587 | Every record of a replayable journal continues the one before it: stream parent, counters, prepared transaction, head, branch and branches follow from its predecessor, receipts stand only for what had nothing to do, and it refers only to commits, branches, changes and checkpoints that are there. |
| `Ancestry.LastRecordStands` | crates/agent-spreadsheet/src/core/resident_storage.rs:142-587 | The state after replay is the one the last record claims. |
| `History.FindRedoTarget` | crates/agent-spreadsheet/src/core/resident_storage.rs:600-623 | The loop finds the child of head on the path down to the branch tip. |
| `History.AncestryOf` | crates/agent-spreadsheet/src/core/resident_storage.rs:625-641 | The loop lists the ancestry of a commit root first, or reports a cycle or unknown id. |
| `History.ReplayBound` | crates/agent-spreadsheet/src/core/resident_storage.rs:116-131 | The loop over records is the replay function, record by record. |
| `Journals.Journal.Commit` | crates/agent-spreadsheet-wasm/src/storage.rs:38-67 | Idempotent append: rejects another fingerprint under a known identity, a full journal and anything replay refuses; otherwise appends exactly the record. |
| `Journals.Journal.Reconcile` | crates/agent-spreadsheet-wasm/src/storage.rs:68-87 | Finds the first record with the request identity, or rejects a different fingerprint. |
| `Journals.CommitAppends` | crates/agent-spreadsheet-wasm/src/storage.rs:38-67 | A commit call extends the journal by its own record or leaves it alone, and an acknowledgement names a record that is there. |
| `Journals.ReconcileAfterCommit` | crates/agent-spreadsheet/src/core/resident_storage.rs:1052-1094 | After any commit call, reconciliation says exactly whether the record is there. |
| `Journals.RequestsAreUnique` | crates/agent-spreadsheet-wasm/src/storage.rs:38-67 | Request identities are unique in every replayable journal. |
| `Journals.CommitsAreUnique` | crates/agent-spreadsheet/src/core/resident_storage.rs:142-587 | So are commit identities. |
| `Journals.BytesCoverJson` | crates/agent-spreadsheet-wasm/src/storage.rs:38-67 | The tracked size is the length of the records as one JSON array if there are none, and one more otherwise. |
| `Journals.OutcomesAreInert` | crates/agent-spreadsheet/src/canonical_outcome.rs:94-140 | A stored outcome bound to its record changes nothing that replay derives. |
| `Journals.OutcomeStorage.Commit` | crates/agent-spreadsheet/src/canonical_outcome.rs:61-71 | A successful commit under an unused commit identity has stored the caller's response inside the caller's own record and hands out that same response; under a used one the journal is unchanged, and the response handed out is the caller's, not necessarily the stored one. |
| `Journals.OutcomeStorage.Reconcile` | crates/agent-spreadsheet/src/canonical_outcome.rs:72-91 | A successful reconciliation hands out the response stored in the found record; different canonical input is rejected. |
| `Journals.OutcomeStorage.Load` | crates/agent-spreadsheet/src/canonical_outcome.rs:40-60 | Loading captures the outcome of an existing request or rejects different input. |
| `Documents.RecoveryAcceptsPublished` | crates/agent-spreadsheet/src/recalc/resident.rs:720-732 | A publication accepted live is accepted again in recovery on any logically equal document, with the same meaning. |
| `Documents.AssignAt` | crates/agent-spreadsheet/src/recalc/resident.rs:748-793 | With distinct targets, assigned effects are a pointwise overlay whatever their order. |
| `Documents.AssignKeepsLogic` | crates/agent-spreadsheet/src/recalc/resident.rs:748-793 | Assigning effects preserves logical equality of documents. |
| `CellWrites.SetCellsStores` | crates/agent-spreadsheet/src/tools/fork.rs:4817-4885 | After a successful set_cells each named address holds what its deciding entry says: value text without a formula, or no value with the formula less one leading `=`; a formula cell stays as it was unless overwriting. The deciding entry is the last one, or without overwriting the first that leaves a formula. |
| `CellWrites.EveryCellIsDecided` | crates/agent-spreadsheet/src/tools/fork.rs:4817-4885 | Every address an entry names has a deciding entry. |
| `CellWrites.SetCellsKeepsOthers` | crates/agent-spreadsheet/src/tools/fork.rs:4817-4885 | Addresses no entry names keep their cells. |
| `CellWrites.WriteMatrixStores` | crates/agent-spreadsheet/src/tools/fork.rs:4817-4885 | After a successful write_matrix the filled place in row i and column j is what the address i rows down and j columns right of the anchor holds, formula cells excepted as above. |
| `CellWrites.WriteMatrixKeepsOthers` | crates/agent-spreadsheet/src/tools/fork.rs:4817-4885 | Addresses outside the filled places keep their cells. |
| `CellWrites.CellOpsFailWithoutSheet` | crates/agent-spreadsheet/src/tools/fork.rs:4823-4826 | A cell operation fails only for a missing sheet, and no cell operation touches the list of sheets. |
| `Writes.TransactionIsAtomicOrPrefix` | crates/agent-spreadsheet/src/canonical_write.rs:2595-2737 | Atomic apply commits the fold of all operations or nothing; non-atomic apply commits the fold of exactly those before the first failure. |
| `Writes.RunIsExactPrefix` | crates/agent-spreadsheet/src/canonical_write.rs:2441-2467 | A run stops exactly at the first failing operation and keeps the fold before it. |
| `Writes.ResponseIsTruthful` | crates/agent-spreadsheet/src/canonical_write.rs:2469-2575 | Every field of the report follows from request, failure and revisions: the result vector is one run of the variant's status, then at most one failure, then skips; variant, mode, count, revisions and change identity say the same. |
| `Writes.ExecuteOnBytes` | crates/agent-spreadsheet/src/canonical_write.rs:4886-4898 | The transaction loop on clones meets the specification of commit and response. |
| `Writes.ValidateRequest` | crates/agent-spreadsheet/src/canonical_write.rs:850-1258 | The accounting loop accepts exactly the requests within the operation and cell limits. |
| `Preparation.FastPathMeansGeneralPath` | crates/agent-spreadsheet/src/canonical_write.rs:3068-3251 | For cell-only requests, in every mode, the touched-cell path publishes the same document with the same statuses, variant and counts as the clone path; only a commit that changes no cell moves the revision on one path and not the other. |
| `Preparation.EffectsPublish` | crates/agent-spreadsheet/src/canonical_write.rs:3162-3195 | Publishing exactly the collected differences turns the old document into the new one. |
| `Preparation.RunOnShadow` | crates/agent-spreadsheet/src/canonical_write.rs:3094-3160 | Running on a shadow of the touched cells gives the statuses and the cells of running on the workbook; the prepared-cell cap is never reached. |
| `Preparation.CellRunsNeedNoClone` | crates/agent-spreadsheet/src/canonical_write.rs:3141-3156 | For cell operations a failing operation leaves its candidate unchanged, so cloning makes no difference. |
| `Preparation.StagedBundleIsReported` | crates/agent-spreadsheet/src/canonical_write.rs:3212-3226 | A stage that ran through is kept whole, at the owner's revision, under exactly the identity its response reports; nothing else is staged or reports one. |
| `Preparation.OnlyStyles` | crates/agent-spreadsheet/src/canonical_write.rs:3253-3278 | The proof is preserved exactly when every applied operation is one of style. |
| `Preparation.PrepareSnapshot` | crates/agent-spreadsheet/src/canonical_write.rs:3318-3431 | The general path in all three modes. |
| `Preparation.Prepare` | crates/agent-spreadsheet/src/canonical_write.rs:3433-3460 | Admission of a request and the choice between the two paths. |
| `LegacyImport.ImportSession` | crates/agent-spreadsheet/src/canonical_write.rs:4909-5298 | Whatever is imported replays to the legacy tree, branch map, selected branch, head and documents, each event's record written under its own id with its legacy parent as history parent while that parent is head; and a session is imported if and only if it is importable and its names are free: no event is nameless, and none is named like the synthetic record at one of the places the session's own stream keeps for synthetic records. Those places are computed from events and branches, without building a record. |
| `LegacyImport.OrderAscends` | crates/agent-spreadsheet/src/canonical_write.rs:4981-5022 | After main the branches are taken in ascending order of their names. |
| `LegacyImport.AcceptedIffFree` | crates/agent-spreadsheet/src/canonical_write.rs:5280-5281 | Replay accepts the whole written stream if and only if the names are free. |
| `LegacyImport.PlainNamesAreFree` | crates/agent-spreadsheet/src/canonical_write.rs:5053-5053 | Event names without the prefix of synthetic names are always free. |
| `LegacyShape.EventsHavePlaces` | crates/agent-spreadsheet/src/canonical_write.rs:5078-5281 | Every listed event has a place in the shape read off the session. |
| `Witnesses.ImportAddsMain` | crates/agent-spreadsheet/src/canonical_write.rs:5077-5077 | A session without events whose branch file names only another branch is importable with free names, and every faithful image of it has a main branch besides. The session store itself always writes main, so the input is an edited branch file. |
| `Witnesses.ImportableSessionIsRefused` | crates/agent-spreadsheet/src/canonical_write.rs:5208-5233 | An importable session whose names are not free: one event on main, an alias branch, and the event named like the record that creates the alias. |
| `LegacyImport.WrittenIsFaithful` | crates/agent-spreadsheet/src/canonical_write.rs:5078-5281 | A stream that replays is a faithful image of the legacy session, parents before children. |
| `LegacyImport.DocumentsAreKept` | crates/agent-spreadsheet/src/canonical_write.rs:5137-5185 | At every event the fold of imported snapshots is the document the legacy session materialises. |
| `LegacyImport.CountIsCoverage` | crates/agent-spreadsheet/src/canonical_write.rs:5023-5025 | The length comparison detects exactly the events that lie on no branch. |
| `LegacyOrder.ListEvents` | crates/agent-spreadsheet/src/canonical_write.rs:5010-5022 | Paths of main and then of each branch, without repetitions. |
| `LegacyOrder.ListIsOrdered` | crates/agent-spreadsheet/src/canonical_write.rs:5010-5022 | The list has every event once, after its parent. |
| `LegacyOrder.PositionIsKnown` | crates/agent-spreadsheet/src/canonical_write.rs:5082-5091 | At each position: the first branch that owns the event, the event before it as parent, and the tip at the end of each stretch. |
| `Paging.ReadPage` | crates/agent-spreadsheet/src/canonical_reads.rs:1378-1541 | A page is a non-empty stretch of what was wanted, within row, cell and byte limits, with the rest behind its cursor; it fails only for an unreadable range or a row that alone fits no page; a cursor on the largest 32-bit row gets an empty page and itself. Under sizes that grow with rows, a page that leaves rows behind has as many as were asked for (at most 500), stops at the largest row, or would break the cell or byte budget with one row more. |
| `Paging.DecideRows` | crates/agent-spreadsheet/src/canonical_reads.rs:1240-1289 | Safe for any encoding; when encodings grow with rows, every larger count among the available rows breaks the cell budget or the byte budget. |
| `Paging.EmptyDecisionMeansNoFit` | crates/agent-spreadsheet/src/canonical_reads.rs:1280-1288 | With nothing emitted, choosing no row means a row alone cannot fit. |
| `Paging.WalkCoversExactlyOnce` | crates/agent-spreadsheet/src/canonical_reads.rs:1378-1541 | Following cursors with any page sizes and budgets lists every wanted row once and in order. |
| `Paging.WalksEnd` | crates/agent-spreadsheet/src/canonical_reads.rs:1378-1541 | A walk has no more pages than rows to read, and fewer while there is a cursor to follow. |
| `Paging.CompleteWalksNeedReachableRows` | crates/agent-spreadsheet/src/canonical_reads.rs:1412-1414 | No walk completes if some range runs to the largest 32-bit row, because the saturating end row stops one short of it. |
| `Paging.WalkCompletesIffReachable` | crates/agent-spreadsheet/src/canonical_reads.rs:1378-1541 | A walk that no error stops, followed until it ends or has a page for every row, ends if and only if no range runs to the largest 32-bit row. |
| `Paging.LargestRowIsUnreachable` | crates/agent-spreadsheet/src/canonical_reads.rs:1412-1414 | The text A4294967295 is a readable range whose walk never ends. |
| `Addresses.ParseRange` | crates/agent-spreadsheet/src/canonical_reads.rs:1039-1089 | The parsing loops compute the specified rectangle, overflow and malformed text included. |
| `Addresses.RangeRoundTrip` | crates/agent-spreadsheet/src/canonical_reads.rs:1101-1103 | Every returned range text parses to the rectangle it describes. |
| `AddressForms.FormIsRead` | crates/agent-spreadsheet/src/canonical_reads.rs:1053-1089 | A cell is read from blanks, an optional `$`, letters of either case, an optional `$`, digits and blanks. |
| `AddressForms.ReadCellHasForm` | crates/agent-spreadsheet/src/canonical_reads.rs:1053-1089 | Nothing else is read as a cell. |
| `AddressForms.CaseIsNoMatter` | crates/agent-spreadsheet/src/canonical_reads.rs:1062-1068 | The case of column letters makes no difference. |
| `AddressForms.RangeIsRead` | crates/agent-spreadsheet/src/canonical_reads.rs:1039-1052 | A range is a cell or two corners of an upright rectangle, behind anything that ends in `!`. |
| `AddressForms.ReadRangeHasForm` | crates/agent-spreadsheet/src/canonical_reads.rs:1039-1052 | Nothing else is read as a range. |
| `Addresses.ColumnName` | crates/agent-spreadsheet/src/canonical_reads.rs:1091-1099 | The right-to-left loop writes the bijective base 26 name. |
| `Addresses.ColumnNamesAreUnique` | crates/agent-spreadsheet/src/canonical_reads.rs:1091-1099 | A column's name is the only upper-case text with its value. |
| `Artifacts.SessionStore.InsertArtifact` | crates/agent-spreadsheet-wasm/src/lib.rs:65-105 | Keeps the byte count exact, eight slots to a session and the global cap (unless one oversized artifact is all there is); evicts the session's oldest, then everybody's oldest and no more than needed; the artifact is present afterwards. |
| `Artifacts.SessionStore.MakeRoom` | crates/agent-spreadsheet-wasm/src/lib.rs:81-95 | The eviction loop leaves exactly what is newer than the lowest sufficient floor. |
| `Artifacts.SessionStore.RemoveArtifact` | crates/agent-spreadsheet-wasm/src/lib.rs:52-64 | Removes one slot and its bytes, never below zero. |
| `Artifacts.SessionStore.ReadArtifact` | crates/agent-spreadsheet-wasm/src/lib.rs:106-115 | Returns the bytes and makes the slot the most recent. |
| `Artifacts.SessionStore.DropArtifacts` | crates/agent-spreadsheet-wasm/src/lib.rs:47-51 | Forgets one session and nothing else. |
| `Artifacts.EvictionStep` | crates/agent-spreadsheet-wasm/src/lib.rs:81-95 | Evicting the oldest slot raises the age floor to its tick, with the byte count following. |
| `Artifacts.TotalShrinks` | crates/agent-spreadsheet-wasm/src/lib.rs:81-95 | Evicting more never frees fewer bytes, so the floor found is the least eviction that suffices. |
| `Forks.RestoreIsExact` | crates/agent-spreadsheet/src/canonical_lifecycle.rs:918-996 | Over any run whose checkpoints are taken at increasing times, restoring a surviving checkpoint returns the work file, recalculation flag and operation log of the moment it was saved. |
| `Forks.RunsKeepMoments` | crates/agent-spreadsheet/src/canonical_lifecycle.rs:856-996 | Every call keeps checkpoints in order with log lengths within the log, and each one true to its moment. |
| `Forks.RestoreSparesIff` | crates/agent-spreadsheet/src/canonical_lifecycle.rs:948-976 | Restoring one checkpoint spares another exactly if that one is dropped as later or its log is no longer. |
| `Forks.TiedTimesLoseOperations` | crates/agent-spreadsheet/src/canonical_lifecycle.rs:948-976 | With equal creation times a concrete run restores a checkpoint without the operation it had recorded. |
| `Forks.ForkContext.RestoreCheckpoint` | crates/agent-spreadsheet/src/canonical_lifecycle.rs:918-996 | The in-place restore is the specified step. |
| `Forks.ForkContext.CreateCheckpoint` | crates/agent-spreadsheet/src/canonical_lifecycle.rs:856-890 | The in-place creation, limits included, is the specified step. |
| `Forks.ForkContext.EnforceCheckpointLimits` | crates/agent-spreadsheet/src/fork.rs:719-740 | Drops the oldest first, by count and then by size. |
| `Forks.RetainedIsLongestSuffix` | crates/agent-spreadsheet/src/fork.rs:719-740 | What limits leave is the longest suffix within them, and the newest always survives. |
| `Forks.ForkContext.ApplyStagedChange` | crates/agent-spreadsheet/src/canonical_lifecycle.rs:1108-1153 | Applying a staged bundle atomically, with its log entry and removal. |
| `Forks.ForkContext.DiscardStagedChange` | crates/agent-spreadsheet/src/canonical_lifecycle.rs:1154-1177 | Discarding a staged change. |
| `Forks.ForkContext.StageChange` | crates/agent-spreadsheet/src/fork.rs:712-717 | Staging keeps the newest twenty changes. |
| `Csv.CsvRecords` | crates/agent-spreadsheet/src/canonical_write.rs:1361-1406 | The character loop with one lookahead is the specified reader. |
| `Csv.ParsingInvertsEncoding` | crates/agent-spreadsheet/src/canonical_write.rs:1361-1406 | Every encoding of section 2 of RFC 4180 with terminated records, quoting and line ends chosen freely, reads back as exactly its records. |
| `Csv.UnterminatedLastRecord` | crates/agent-spreadsheet/src/canonical_write.rs:1402-1405 | Without a final line end the last record is lost exactly if it is a single empty field. |
| `Csv.FailsIffLeftOpen` | crates/agent-spreadsheet/src/canonical_write.rs:1399-1401 | Reading fails if and only if the reader, having taken exactly some front part of the text, stands between fields before a quote that nothing closes. |
| `NumberFormat.RenderFixed` | crates/agent-spreadsheet-render/src/numfmt.rs:455-502 | For every placeholder pattern the text, commas removed, spaces read as zeros and missing places filled, is the digits of the decimal it was made from, with every required digit shown and no leading zero beyond them; the integer part is empty exactly if it is zero, no integer digit is required, and there is no integer place or there are decimal places; the decimals are trimmed as far as the placeholders allow. |
| `NumberFormat.RenderingIsDetermined` | crates/agent-spreadsheet-render/src/numfmt.rs:455-502 | These conditions leave one text for each decimal and pattern. |
| `NumberFormat.GroupThousands` | crates/agent-spreadsheet-render/src/numfmt.rs:548-558 | The left-to-right loop groups by threes from the right. |
| `NumberFormat.CommasByThrees` | crates/agent-spreadsheet-render/src/numfmt.rs:548-558 | A comma stands exactly before each third digit from the right and never first. |
| `NumberFormat.GroupingLosesNothing` | crates/agent-spreadsheet-render/src/numfmt.rs:548-558 | Without its commas the grouped text is the digits again. |
| `NumberFormat.TrailingPlaces` | crates/agent-spreadsheet-render/src/numfmt.rs:484-500 | Only zeros are dropped or blanked and every `0` place stays; no text shown ends in a zero that a `#` would drop or a `?` would blank, and no blank hides a zero a `#` would drop. |
| `NumberFormat.TrimmedIsDetermined` | crates/agent-spreadsheet-render/src/numfmt.rs:484-500 | Digits and placeholders determine the decimals shown. |

## Left out

- XLSX import and export, hashing and JSON encoding: documents stand for bytes, hashes are injective, encoded sizes are parameters.
- Operations other than set_cells and write_matrix: an arbitrary function from document to document and success, reached through the general path only.
- Formula evaluation and calculation coverage: the engine's results are an input of the recalculation step; a proof has one completeness flag.
- Error wording, error codes, risk labels, diffs and source-operation indices of effects: none of them is in the responses.
- Formula syntax checks, payload byte limits and JSON value kinds in request validation: requests hold text values and formulas.
- Resource creation, discard and export receipts, file exports, and the fence after discard: only operations that move session, catalog or history are modelled.
- The filesystem journal's torn-tail repair, locks and file sync: its commit and reconcile contract is the one of the memory journal with injected failures.
- Sessions.ResidentSession.ExecuteWrite: the branch for a commit that reports an older commit identity is left out; the identity was looked up just before and one owner writes the journal, so it cannot be taken.
- Sessions.ResidentSession.Recalculate: external calculation backends, the test of the backend's identity and the error for incomplete coverage are left out; the engine's results are an input.
- Sessions.RecoverDurable: the early return for a resource that a tombstone marks as discarded is left out, because discarding a resource is.
- History.ReplayBound: the schema version of a record, discard tombstones and the receipts of file exports are left out.
- Journals.OutcomesAreInert: the response schema, the shape of the input hash and the bindings particular to one operation are left out of the validity of an outcome.
- Journals.OutcomeStorage.Load: the refusal for identities that a file export has reserved is left out, because file exports are.
- Journals.OutcomeStorage.Commit: under a used commit identity nothing ties the response handed out to the stored one; the program does not compare them.
- Writes.ValidateRequest: payload size, formula syntax and the checks of operations other than set_cells and write_matrix are left out.
- The non-durable apply and discard methods: they bypass the journal and are not part of durable runs.
- The intermediate revision that recovery restores before it replays: only the revision it ends with is visible.
- Sessions.ResidentSession.Serve: runs on the journal directly; `Journals.OutcomesAreInert` is what carries its results over to outcome-carrying storage.
- The frozen-copy marker, payload hashes and file layout of a legacy session: one flag and the hash chain; listing rejected staged ids is left out.
- LegacyImport.ImportSession: `events` is what the session store's event reader returns. That reader refuses ids with other characters than letters, digits, `_` and `-` and drops events that no branch tip or head reaches, so the nameless case of `NamesAreFree` does not come up behind it.
- Paging.ReadPage: the resource lookup, the cursor's revision and fingerprint checks and its hexadecimal encoding are left out; the row selection and grid export pages need row sources that are not part of this model.
- Artifacts.SessionStore.InsertArtifact: the empty slot list that an insertion briefly creates for a new session is not materialised; nothing reads it.
- Forks.ForkContext.EnforceCheckpointLimits: snapshot files are taken to exist and to be deleted without error; their sizes are a parameter.
- NumberFormat.RenderFixed: starts from an exact decimal, so floating-point rounding and the largest supported magnitude are left out, as are section selection, colours and scientific notation.
- Concurrency: the program serialises requests to one owner; each durable call is one step with a chosen storage outcome.
