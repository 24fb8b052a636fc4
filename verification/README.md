# Verified model of upload, Report editing and acceptance support

This project models the parts of Case Intelligence that keep work safe when replies are lost, pages
are old and storage is short, and proves what they promise. `dafny verify dfyconfig.toml` checks it.

- **Contrast compositor** (`ContrastCompositor`): the probe that paints a chain of nested, translucent
  elements and measures text contrast. It is proved to compute isolated-group compositing (section 5.1
  of W3C Compositing and Blending Level 1, section 3.2 of CSS Color Level 3) for every chain.
- **Upload planner** (`UploadPlanner`): the greedy batcher behind every plan, its minimality, and the
  restart stability that gives a saved `batch_index` its meaning.
- **Selection review** (`SelectionReview`): the server's metadata checks, the bounded requests, the
  scanner snapshot, the ordered admission pass and the review of a saved plan.
- **Upload ledger** (`UploadLedger`, `UploadQuota`, `UploadRuns`, `UploadStore`, `UploadAdmission`):
  sessions, items, staged bytes, reservations and the matter quota. Every step is one atomic effect and
  a run is any sequence of steps, so crashes and concurrent requests are runs that stop or interleave
  anywhere. The quota guard is such a sequence too: it counts one file name after another, then reads
  what is reserved, then inserts, while chunks that have passed their capacity check and finalizations
  go on. `UploadQuota` says what the guard may overlook and what its answer is worth; `UploadStore` is
  the row-by-row form of the checks and transactions; `UploadAdmission` covers paths, receipt rows,
  taking over older sessions, capacity reports and whole uploads; `UploadRuns` holds concrete runs.
- **Upload recovery** (`UploadRecovery`, `UploadCheckpoint`, `UploadDecisions`, `RecoveryRuns`): the browser's checkpoint,
  with reloads anywhere, replies that are lost, malformed or about another session, changed plans,
  refused resumes, cancels by the user and by others, and other people signed in at the same browser.
  Every run of it is a run of the ledger.
- **Report editing** (`ReportEditing`, `ReportHistory`, `ReportStore`): version tokens on a shared Report,
  for any number of reviewers with pages of any age, one edit at a time and over whole logs of saves. `ReportStore` is the table form, one statement at a time, under
  the rule that ordinals are unique.
- **Loops and codecs** (`PdfText`, `SpeechTimeline`, `QuotaFiller`, `TargetSettling`).

Byte counts, times and versions are unbounded integers, colours and seconds are reals, and a
fingerprint is modelled by the value it is taken of. Sessions, collections and sections are named by
numbers that are never reused.

## What turned out not to hold

- The quota is not a bound in every run, because the guard reads one thing after another while other
  requests move bytes. In a ten-byte matter, a six-byte chunk recorded between its two readings lets ten
  more bytes in (`UploadRuns.GuardReadsTwice`); a source linked where the scan has been and discarded
  where it has not is overlooked whole (`UploadRuns.LinkMovesBehindTheScan`); and a chunk whose request
  took the source lock just before its session was cancelled is counted nowhere
  (`UploadRuns.StrayChunkPassesQuota`). What always holds is the quota plus what some guard overlooked:
  nothing if nothing is written or linked while a guard is open and no such chunk is on its way, and at
  most two chunks if nothing is linked meanwhile (`UploadQuota.DiskStaysWithinQuota`). An undisturbed
  guard over a settled matter is right about every request exactly when no such chunk is on its way
  (`UploadQuota.GuardIsRightExactly`).
- Stored plus reserved bytes can pass the quota after a crash between the write of a chunk and the
  record of its offset (`UploadRuns.InterruptedChunkCountsTwice`); the sum is exact exactly when every
  item is settled (`UploadQuota.ProjectionExact`).
- A cancelled or complete session does not stay so. A late failure of one of its items relabels it
  partial; a finish that checked its item before a cancel relabels the cancelled session
  (`UploadRuns.LateFinishRelabels`); a cancel that checked the session before its last item was queued
  releases the complete session (`UploadRuns.LateCancelReleases`). Nothing else does
  (`UploadLedger.SettledExactly`).
- Batches before the one being sent are complete or partial, unless a request other than the browser's
  own cancelled them. A batch cancelled while it is sent is passed over exactly when each of its items was
  settled or fully received (`UploadRecovery.CancelStopsExactly`), and one that was partial can still be
  cancelled from another window while a later one is sent (`RecoveryRuns.CancelledBatchIsPassed`).
- The saved checkpoint belongs to the matter and not to a person. A second member at the same browser is
  told that the first member's session is missing, the checkpoint is given up and the reservation stays
  (`RecoveryRuns.OtherMemberForgets`); with a checkpoint of the older format a refused resume does the
  same (`RecoveryRuns.OlderFormatForgets`). `UploadCheckpoint.LeftBehindExactly` says when.
- An old Draft page is refused only while the Report is Final. After Draft, Final, Draft an untouched
  section can again be saved from it, as `docs/REPORT_EDITING.md:29-31` says
  (`ReportEditing.DraftPageAfterReopening`).

## Model

| member | source | states |
|---|---|---|
| ContrastCompositor.PaintIsIsolatedGroups | scripts/browser-accept-dusk.py:33-50 | rendering onto the backdrop and blending back by opacity gives, for every chain, the colours of compositing each subtree off-screen in premultiplied RGBA, scaling by opacity and drawing source-over |
| ContrastCompositor.VisibleDifference | scripts/browser-accept-dusk.py:37-49 | per channel, final ink minus final surface is the product of all opacities and the ink alpha, times ink minus the stack of backgrounds |
| ContrastCompositor.OpaqueChainIsFold | scripts/browser-accept-dusk.py:33-49 | with every opacity 1 the recursion is a plain fold of `over` |
| ContrastCompositor.PseudoOpacityIsAGroup | scripts/browser-accept-dusk.py:43-46 | multiplying a pseudo-element's opacity into its ink alpha is the same as making it one more group inside its element |
| ContrastCompositor.PaintInGamut | scripts/browser-accept-dusk.py:33-50 | colours stay in 0 to 255 for every valid chain |
| ContrastCompositor.RatioBounds | scripts/browser-accept-dusk.py:51-54 | the ratio is symmetric and in [1, 21]; it is 1 only for equal luminances and 21 only for black on white |
| ContrastCompositor.RatioIsContrast | scripts/browser-accept-dusk.py:54 | the ratio times the darker luminance plus 0.05 is the lighter luminance plus 0.05 |
| ContrastCompositor.ChannelsAddUp | scripts/browser-accept-dusk.py:51-52 | a colour's luminance is the sum of those of its channels alone |
| ContrastCompositor.PureChannels | scripts/browser-accept-dusk.py:51-52 | full red, green and blue have luminance 0.2126, 0.7152 and 0.0722, a weaker channel its share by the curve, white 1 and black 0 |
| ContrastCompositor.CurveOfChannel | scripts/browser-accept-dusk.py:51 | the curve is channel over 255 times 12.92 up to 0.04045, and the power of a straight line above |
| ContrastCompositor.BrighterIsLighter | scripts/browser-accept-dusk.py:51 | the curve grows, if the power does and takes over no lower than the line ends |
| ContrastCompositor.LuminanceUnit | scripts/browser-accept-dusk.py:51-52 | luminance is in [0, 1] for any curve that maps the unit interval into itself |
| ContrastCompositor.InvisibleExactly | scripts/browser-accept-dusk.py:37-49 | nothing of the ink is left exactly when it is clear or some element of the chain is fully transparent |
| ContrastCompositor.BuildChain | scripts/browser-accept-dusk.py:34 | the parent walk collects the ancestors, outermost first |
| ContrastCompositor.Measure | scripts/browser-accept-dusk.py:32-54 | the whole probe, with its pseudo-element and adjacent modes: it fails only for an adjacent reading of a root, and a reading has the composited colours and the contrast of their luminances, lighter over darker with 0.05 added to each |
| UploadPlanner.BuildBatches | src/case_intelligence/static/case-intelligence.js:1521-1539 | the loop produces exactly the longest-admissible-prefix plan |
| UploadPlanner.PlanSplits | scripts/browser-accept-loose-file-preflight.py:228-237 | batches are a single file or within both limits, and concatenate back to the selection |
| UploadPlanner.PlanIsMinimal | scripts/browser-accept-loose-file-preflight.py:228-237 | no order-preserving split into such batches has fewer of them |
| UploadPlanner.PlanIsPackedSplit | scripts/browser-accept-loose-file-preflight.py:228-237 | a split is the plan if and only if no batch could also take the next file |
| UploadPlanner.PlanWithinLimits | src/case_intelligence/managed_storage.py:57-72 | under the storage policy's file limits no planned session is too large or too long for the server |
| UploadPlanner.PlanRestarts | src/case_intelligence/static/case-intelligence.js:1816-1822 | planning the files left after k batches gives the remaining batches |
| UploadPlanner.PlanExtends | src/case_intelligence/static/case-intelligence.js:1521-1539 | appending files changes no batch but the last, which only grows |
| SelectionReview.EvaluateRequest | src/case_intelligence/loose_file_preflight.py:93-211 | the server's loop gives one row per descriptor, remembering the paths it found valid |
| SelectionReview.EvaluatedExactly | src/case_intelligence/loose_file_preflight.py:143-211 | a row is valid exactly when its file is clean and no earlier valid file of the request has its path, and a duplicate exactly when it is clean and one has |
| SelectionReview.VerdictsExactly | src/case_intelligence/loose_file_preflight.py:93-196 | exactly when a row is failed, unsupported, over the limit or in need of a scanner, and what size, path and scan it reports |
| SelectionReview.SnapshotIsFirst | src/case_intelligence/static/case-intelligence.js:733-743 | the scanner snapshot is what the first scanned row reports |
| SelectionReview.RequestSplitIsInvisible | src/case_intelligence/static/case-intelligence.js:733-777 | however the selection is cut into requests and however scanner readiness varied, the settled rows are those of one request at the snapshot, each judged as if alone |
| SelectionReview.BuildRequests | src/case_intelligence/static/case-intelligence.js:833-879 | every descriptor goes out once, in order, in non-empty requests within the item and byte limits, none of which is ended while the next file in order would still have fitted; exactly those too large for any request fail locally |
| SelectionReview.AdmitRows | src/case_intelligence/static/case-intelligence.js:1075-1118 | the loop computes the admission pass and the list of admitted rows |
| SelectionReview.PassJudges | src/case_intelligence/static/case-intelligence.js:1085-1112 | every row is over the limit, a duplicate or valid by the bytes and paths admitted before it and nothing else |
| SelectionReview.JudgementsAreUnique | src/case_intelligence/static/case-intelligence.js:1085-1112 | that rule determines all states |
| SelectionReview.AdmissionIsSafe | src/case_intelligence/static/case-intelligence.js:1085-1112 | admitted bytes never exceed the capacity and no path is admitted twice |
| SelectionReview.BlockedRowsBlockNobody | scripts/browser-accept-loose-file-preflight.py:882-946 | a duplicate has an admitted earlier row with its path; a row blocked by size blocks nobody |
| SelectionReview.Combine | src/case_intelligence/static/case-intelligence.js:930-943 | the combined capacity is at least as cautious as every reply, and fresh room never exceeds available room |
| SelectionReview.CombineIsAttained | src/case_intelligence/static/case-intelligence.js:930-944 | each combined figure is some reply's own, and the checkpoint counts as confirmed exactly if there are replies and all confirm it |
| SelectionReview.SettledRowsEcho | src/case_intelligence/static/case-intelligence.js:945-980 | however the descriptors were sent, the settled rows repeat the sizes and paths of the files they stand for |
| SelectionReview.FrozenPass | src/case_intelligence/static/case-intelligence.js:1078-1112 | a pass over a saved plan admits that plan's rows and no others |
| SelectionReview.FrozenPassJudges | src/case_intelligence/static/case-intelligence.js:1085-1099 | under a saved plan a row outside it is a duplicate if it repeats a planned path and over the limit otherwise |
| SelectionReview.ReviewKeepsSavedPlan | src/case_intelligence/static/case-intelligence.js:1012-1131 | reviewing an unchanged selection either stops or confirms the saved rows and batches |
| SelectionReview.ReviewFits | src/case_intelligence/static/case-intelligence.js:1047-1112 | what an accepted review still has to send fits the spare room if a reviewed plan is saved, and the available room if none is |
| SelectionReview.ReviewJudges | src/case_intelligence/static/case-intelligence.js:1082-1133 | a finished review without a confirmed checkpoint judges every row against the spare room if a reviewed plan is saved and the available room if not, and plans exactly the rows it admits |
| SelectionReview.ConfirmedReviewJudges | src/case_intelligence/static/case-intelligence.js:1074-1099 | with a confirmed checkpoint the saved rows are admitted and every other candidate is refused, as a duplicate or as over the limit |
| SelectionReview.ReviewDoneExactly | src/case_intelligence/static/case-intelligence.js:1012-1140 | exactly when a review of complete rows is finished and when it stops |
| SelectionReview.LackingStops | src/case_intelligence/static/case-intelligence.js:984-987 | one row without the path or size that its verdict needs stops the review |
| SelectionReview.ReviewAdmitsOnce | src/case_intelligence/static/case-intelligence.js:1085-1133 | the admitted files are in selection order, eligible, and no path appears twice |
| SelectionReview.FullMatterResume | scripts/browser-accept-loose-file-preflight.py:1898-1931 | with no fresh room a confirmed checkpoint passes review exactly when its session is the last and its remaining reservation still covers it |
| UploadLedger.ChangeIsSound | src/case_intelligence/workbench.py:12131-12329 | each effect on an item keeps it sound, keeps its name and size, never revives a settled item and never raises what it may occupy |
| UploadLedger.CreateIsSound | src/case_intelligence/workbench.py:1543-1585 | opening a session adds exactly the requested bytes to what is claimed, and only if they fit beside what its guard counted |
| UploadLedger.StepIsSound | src/case_intelligence/workspace_store.py:6250-6489 | any other step, guard steps and taking over included, keeps every session sound, removes nothing and raises no claim; a session is open exactly while a file of it is unfinished |
| UploadLedger.ChunkMovesBytes | src/case_intelligence/workbench.py:12192-12232 | sending a chunk that nothing overtakes moves exactly its bytes from reserved to stored |
| UploadLedger.BrokenChunk | src/case_intelligence/workbench.py:12192-12232 | a chunk that breaks off keeps what was written, frees the lock, and can be recorded later, byte for byte |
| UploadLedger.FinalizeKeepsBytes | src/case_intelligence/workbench.py:12259-12287 | linking or copying, queuing and discarding leave both sums unchanged |
| UploadLedger.LinkTakesRoom | src/case_intelligence/workbench.py:12259-12266 | a received file is linked whatever has become of its item; a link takes no room, a copy its size once more |
| UploadLedger.DiscardFrees | src/case_intelligence/workbench.py:12343-12346 | discarding frees exactly the staged bytes of an unlinked file, or a settled one's spare copy, and no reservation |
| UploadLedger.FailureReleases | src/case_intelligence/workspace_store.py:6435-6467 | a failure frees what the item still reserved, keeps its bytes, and leaves the session partial exactly if nothing else is unfinished |
| UploadLedger.CancelReleases | src/case_intelligence/workspace_store.py:6469-6489 | a cancel that nothing overtakes releases exactly what the session still reserved and touches no other session |
| UploadLedger.LastItemDecides | src/case_intelligence/workspace_store.py:6401-6427 | the last item to be queued completes the session if all were queued, else leaves it partial |
| UploadLedger.SettledExactly | src/case_intelligence/workspace_store.py:6306-6310 | over any one step a complete or cancelled session keeps its status if and only if the step is no failure of an item of it, no late finish of a cancelled one and no late cancel of a complete one |
| UploadQuota.StepIsWatched | src/case_intelligence/managed_storage.py:262-291 | over every step while a guard is open, what it has seen of each item, with what was written or linked since, covers that item, and at most one chunk can land behind it |
| UploadQuota.RunKeeps | src/case_intelligence/workbench.py:1530-1603 | over every run claims stay within the quota plus the most that a guard overlooked when it let a session in, which is at most two chunks if nothing was linked meanwhile |
| UploadQuota.DiskStaysWithinQuota | src/case_intelligence/managed_storage.py:262-329 | so do the stored bytes, hard links counted once, apart from spare copies; in a calm run they stay within the quota |
| UploadQuota.ProjectionExact | src/case_intelligence/workbench.py:1419-1427 | stored, reserved and stray bytes equal the claims exactly when every item is settled, and exceed them otherwise |
| UploadQuota.ProjectionWithinQuota | src/case_intelligence/workbench.py:1419-1430 | stored plus reserved stays within the quota in every calm run that ends settled |
| UploadQuota.UndisturbedIsExact | src/case_intelligence/workbench.py:1550-1554 | a guard during which nothing moved has read exactly what is stored and what is reserved, though it looks at one name at a time and counts links once |
| UploadQuota.GuardIsRightExactly | src/case_intelligence/workbench.py:1550-1565 | over a settled matter an undisturbed guard is right about every request exactly when no stray chunk is on its way |
| UploadRuns.GuardReadsTwice | src/case_intelligence/workbench.py:1550-1585 | a run in which a chunk is recorded between the guard's two readings and sixteen bytes are admitted to ten |
| UploadRuns.LinkMovesBehindTheScan | src/case_intelligence/managed_storage.py:262-291 | a run in which the scan misses a whole source between its two names |
| UploadRuns.StrayChunkPassesQuota | src/case_intelligence/workbench.py:12183-12232 | a run in which a chunk lands after its session was cancelled and the quota is passed |
| UploadRuns.InterruptedChunkCountsTwice | src/case_intelligence/workbench.py:12216-12232 | a run that stops between write and record leaves fifteen bytes projected for a ten-byte file |
| UploadRuns.LateFinishRelabels | src/case_intelligence/workspace_store.py:6306-6426 | a finish whose check came before a cancel makes the cancelled session partial |
| UploadRuns.LateCancelReleases | src/case_intelligence/workspace_store.py:6472-6487 | a cancel whose check came before the last finish makes the complete session cancelled |
| UploadStore.UploadTable.OpenSession | src/case_intelligence/workbench.py:1530-1603 | the quota sums and the insertion, with nothing moving in between, answer and change the rows as the ledger does |
| UploadStore.UploadTable.SumRows | src/case_intelligence/workspace_store.py:6216-6230 | the sum over all rows |
| UploadStore.UploadTable.SetOffset | src/case_intelligence/workspace_store.py:6250-6290 | compare-and-set: an offset moves only from the value read, forward, within the size, on an unfinished item; the new row is given in full and no other row changes |
| UploadStore.UploadTable.CheckFinish | src/case_intelligence/workspace_store.py:6306-6310 | what a finish finds before its transaction is what the ledger's check of a linked item finds |
| UploadStore.UploadTable.Finish | src/case_intelligence/workspace_store.py:6401-6427 | the transaction of a checked finish: queues the item if it is still received, and recomputes the status whatever it finds |
| UploadStore.UploadTable.Fail | src/case_intelligence/workspace_store.py:6435-6467 | fails an unsettled item and recomputes the status either way |
| UploadStore.UploadTable.CheckCancel | src/case_intelligence/workspace_store.py:6472-6474 | what a cancel finds before its transaction is what the ledger's check finds |
| UploadStore.UploadTable.Cancel | src/case_intelligence/workspace_store.py:6475-6487 | the transaction of a checked cancel: cancels every unsettled item and the session, whatever it finds |
| UploadAdmission.RunHoldsNothingTwice | src/case_intelligence/workspace_store.py:5934-5996 | no run holds one live path of a collection, or one receipt row, in two places, whatever older sessions are taken over |
| UploadAdmission.RunStaysInOwnHands | src/case_intelligence/workspace_store.py:5969-5981 | no run puts one person's session into another's collection |
| UploadAdmission.CheckExactly | src/case_intelligence/intake_receipts.py:420-451 | exactly when a request is fresh to the receipt and which session answers it: the one that took exactly its rows, in order, in the same hands and not cancelled |
| UploadAdmission.RefusedExactly | src/case_intelligence/workspace_store.py:5920-5996 | a fresh request is refused exactly if it is empty, has a file without bytes or one path twice, names a collection that is not its sender's or that has one of its paths, or does not fit beside what was counted |
| UploadAdmission.AdoptIsOrderly | src/case_intelligence/intake_receipts.py:452-512 | taking over a collection gives each of its items the row that the receipt lists for its path and spends no row twice |
| UploadAdmission.TakeOverExactly | src/case_intelligence/intake_receipts.py:471-505 | a session can be taken over exactly if the receipt lists every item of its collection, in the same hands, under its own row or one that nobody has, and no path occurs twice |
| UploadAdmission.TakenOver | src/case_intelligence/intake_receipts.py:506-512 | taking over gives the items of that collection the rows listed for their paths and changes nothing else |
| UploadAdmission.AnswerHoldsFiles | src/case_intelligence/intake_receipts.py:420-450 | the session that answers a request holds exactly the requested files, in the same hands, and is not cancelled |
| UploadAdmission.RetriedRequestOpensNothing | src/case_intelligence/intake_receipts.py:440-451 | once answered, a receipt's batch is refused or answered with the same session for ever, and opens nothing more |
| UploadAdmission.ReportIsConsistent | src/case_intelligence/workbench.py:1441-1493 | every capacity report passes the browser's checks, whatever was counted, and its credit is the session's own reservation |
| UploadAdmission.ReportIsExact | src/case_intelligence/workbench.py:1458-1481 | a checkpoint is validated exactly if it names an existing session of this person, in its collection, open, complete or partial; its credit is what that session reserves, as far as the total goes, and else nothing |
| UploadAdmission.WholeUploadOpens | src/case_intelligence/static/case-intelligence.js:1808-1853 | an upload that fits when it starts gets one session for each batch, in order, in one collection, though each batch is transferred, fails or is cancelled before the next is opened |
| UploadAdmission.ReviewedUploadOpens | src/case_intelligence/static/case-intelligence.js:1075-1133 | a selection reviewed against the server's report is opened whole, batch by batch, if nothing else was reserved in between |
| UploadRecovery.AcceptanceHolds | src/case_intelligence/workbench.py:11978-12103 | an accepted submission names a session of the same person with exactly the submitted files, in the named collection, and the resumed one if one was named, taken over or not |
| UploadRecovery.AcceptanceBindsRows | src/case_intelligence/intake_receipts.py:452-520 | under a receipt the accepted session then holds each file under the row submitted for it, also if it was made without rows |
| UploadRecovery.PlayKeeps | src/case_intelligence/static/case-intelligence.js:1552-1893 | every run of requests, replies, reloads, sign-ins and other people's steps keeps the checkpoint truthful |
| UploadRecovery.EarlierBatchesAreDelivered | src/case_intelligence/static/case-intelligence.js:1811-1853 | while files of batch k are sent, its session holds exactly that batch, and each of batches 0 to k - 1 of the plan is complete or partial in the same collection, or was cancelled by a request that is not the browser's own |
| UploadRecovery.DeliveryUndoneExactly | src/case_intelligence/workspace_store.py:6469-6489 | a complete or partial batch ceases to be either exactly by a cancel whose check found it not complete |
| UploadRecovery.CancelStopsExactly | src/case_intelligence/static/case-intelligence.js:1402-1483 | a batch cancelled while it is sent is passed over exactly when each of its items was reported settled or fully received; else the upload stops |
| UploadRecovery.RecoveryWithinQuota | src/case_intelligence/static/case-intelligence.js:1788-1893 | every run of the recovery is a run of the ledger and keeps its quota bound |
| UploadDecisions.CancelReplyExactly | src/case_intelligence/static/case-intelligence.js:1624-1657 | after its own cancel the browser begins anew if and only if the reply says that the checkpoint's session, in its collection, is cancelled; after any other, or none, it pauses and keeps the checkpoint |
| UploadDecisions.ConfirmedCancelBeginsAnew | src/case_intelligence/static/case-intelligence.js:1624-1657 | a cancel of an open session that is carried out and confirmed frees its reservation, and the upload begins with its first batch |
| UploadDecisions.StatusReplyExactly | src/case_intelligence/static/case-intelligence.js:1599-1623 | which status replies begin anew and which lead to a cancel, and that any other pauses |
| UploadDecisions.ConfirmExactly | src/case_intelligence/static/case-intelligence.js:1552-1591 | exactly which checkpoints are resumed, from which batch, and which are settled first |
| UploadDecisions.NewAnswer | src/case_intelligence/workbench.py:11978-12012 | how a submission that resumes nothing is answered |
| UploadDecisions.SubmitExactly | src/case_intelligence/static/case-intelligence.js:1838-1873 | what the browser makes of each answer to a submission, the new checkpoint and the items it need not send among it |
| UploadDecisions.FinalizeRefusedExactly | src/case_intelligence/static/case-intelligence.js:1453-1461 | a refused finalization shows the browser which items are settled by then |
| UploadDecisions.BatchEndExactly | src/case_intelligence/static/case-intelligence.js:1811-1882 | a batch ends exactly when every item is settled and was either reported so or fully received; the next goes into the same collection, and after the last the checkpoint is cleared exactly if its session is complete or partial |
| UploadDecisions.InterruptionsExactly | src/case_intelligence/static/case-intelligence.js:1998-2014 | a reload, a pause and the user's cancel end the upload; only a confirmed cancel takes the checkpoint with it |
| UploadDecisions.ClearedExactly | src/case_intelligence/static/case-intelligence.js:1593-1890 | over every event the checkpoint is cleared exactly by a reply that settles it, a refused resume of the older format, the end of the last batch, or the user's confirmed cancel |
| UploadCheckpoint.OpensOnlyWhenFree | src/case_intelligence/static/case-intelligence.js:1800-1846 | the browser opens a session only when its checkpoint is gone, or belongs to this plan and its session is over |
| UploadCheckpoint.RecoveryFailsClosed | src/case_intelligence/static/case-intelligence.js:1593-1650 | while a changed plan is settled, work starts only once the old session is over or is not shown to whoever is signed in; any other reply keeps the checkpoint, and only a cancel that was carried out changes the matter |
| UploadCheckpoint.FreshStartExactly | scripts/browser-accept-loose-file-preflight.py:2474-2699 | which status replies start afresh, 404 among them, and which lead to a cancel |
| UploadCheckpoint.ResumeAnswer | src/case_intelligence/workbench.py:11978-12073 | when a resume is accepted, for the checkpoint's own session only, and when it is refused as a mismatch: its session was cancelled or is another person's, or the receipt's rows belong to another session |
| UploadCheckpoint.OwnRowsFindSession | src/case_intelligence/intake_receipts.py:440-451 | a session's receipt rows lead its owner back to it unless it is cancelled |
| UploadCheckpoint.ReloadResumes | scripts/browser-accept-loose-file-preflight.py:1434-1554 | a reload during a transfer and the same confirmation come back to the same session and batch with no new reservation |
| UploadCheckpoint.RestartIsClean | src/case_intelligence/static/case-intelligence.js:1855-1873 | after a refused resume of the older format, whatever happens, the next acceptance is of batch 0, in a collection that did not exist at the refusal unless a session already holds the batch's receipt rows |
| UploadCheckpoint.RestartsAtMostOnce | src/case_intelligence/static/case-intelligence.js:1802-1876 | between two confirmations a run restarts at most once, and only from the older format |
| UploadCheckpoint.LeftBehindExactly | src/case_intelligence/static/case-intelligence.js:1593-1650 | an event leaves the checkpoint's open session with nobody naming it exactly when that session is reported missing to somebody it is not shown to, or an older checkpoint cannot be resumed because the session is another person's or its rows are another session's |
| UploadCheckpoint.NoReservationForgotten | src/case_intelligence/static/case-intelligence.js:1593-1650 | in every run a session the checkpoint ever named reserves bytes only if the checkpoint still names it, or was given up by such an event |
| RecoveryRuns.OtherMemberForgets | src/case_intelligence/workspace_store.py:6105-6112 | a run in which a second member's confirmation gives up the first member's checkpoint and six bytes stay reserved |
| RecoveryRuns.OlderFormatForgets | src/case_intelligence/static/case-intelligence.js:1855-1873 | the same through the restart from an older checkpoint |
| RecoveryRuns.CancelledBatchIsPassed | src/case_intelligence/workspace_store.py:6472-6487 | a run in which an earlier, partial batch is cancelled from another window while the next is sent |
| ReportEditing.PerformMovesOn | src/case_intelligence/store/reports.py:291-347 | every applied edit advances the Report's token, and each section's token tells its versions apart; any other outcome changes nothing |
| ReportEditing.LogMovesOn | docs/REPORT_EDITING.md:38-44 | the same from each point of any log of saves to each later one |
| ReportEditing.AppliedExactlyWhenShown | src/case_intelligence/store/reports.py:291-321 | an edit from an earlier page is applied if and only if what it replaces or depends on is still what the page showed |
| ReportEditing.NoLostUpdate | scripts/browser-accept-report-conflicts.py:177-232 | the same for any number of reviewers and any interleaving |
| ReportEditing.OutcomesExactly | src/case_intelligence/store/reports.py:291-321 | exactly which edits from an earlier page are answered with missing, full, nothing to do and conflict |
| ReportEditing.RefusalsOverLogs | src/case_intelligence/store/reports.py:291-321 | the same over any log of saves and any page of it |
| ReportEditing.SavedAt | src/case_intelligence/store/reports.py:323-326 | an applied edit is saved at the clock's time, or just after the last change if the clock has not passed it, and so is every section it writes |
| ReportEditing.FinalSawEverything | scripts/browser-accept-report-conflicts.py:234-247 | the status changes only through a page that showed the whole current Report |
| ReportEditing.DraftPagesAreRefused | scripts/browser-accept-report-conflicts.py:247-254 | while the Report is Final nothing from a Draft page is applied |
| ReportEditing.DraftPageAfterReopening | docs/REPORT_EDITING.md:27-31 | after reopening, an old Draft page's section edit is applied again |
| ReportEditing.SaveChangesOneSection | src/case_intelligence/store/reports.py:534-588 | a section edit changes that section's text and nothing else |
| ReportEditing.DifferentSectionsBothSaved | scripts/browser-accept-report-conflicts.py:220-232 | two edits of different sections from one page commute: both succeed, in either order, with one result |
| ReportEditing.AdditionsAreKept | src/case_intelligence/store/reports.py:411-507 | two additions are appended in the order they arrive; `ReportHistory.DifferentWorkAllSurvives` is the same over a whole log |
| ReportEditing.RemoveDropsOne | src/case_intelligence/store/reports.py:648-685 | a removal drops one section and keeps the others' text and order |
| ReportEditing.MoveAndBack | src/case_intelligence/store/reports.py:590-646 | a move changes places with one neighbour, and moving back undoes it |
| ReportEditing.MoveKeepsEditors | docs/REPORT_EDITING.md:21-23 | moving leaves every section's open editor valid |
| ReportHistory.SurvivesExactly | scripts/browser-accept-report-conflicts.py:177-232 | over any log of saves, from any point to any later one, a section is unchanged if and only if no applied save in between replaced it, removed it or deleted the Report |
| ReportHistory.ChangedOnlyBySight | src/case_intelligence/store/reports.py:291-321 | a section that is no longer as it was was first changed from a page that showed that very version |
| ReportHistory.EditorValidExactly | docs/REPORT_EDITING.md:21-31 | a section's editor stays good, over any log, exactly while the status is what its page showed and no applied save touches the section |
| ReportHistory.DetailsSurvive | src/case_intelligence/store/reports.py:328-347 | title, purpose and status stay until a later save of the details is applied or the Report is deleted |
| ReportHistory.SavedDetailsSurvive | src/case_intelligence/store/reports.py:328-347 | saved details are the Report's own at the end of every log that saves none after them |
| ReportHistory.SavedTextSurvives | src/case_intelligence/store/reports.py:411-588 | what an applied edit or addition wrote is read at the end of every log in which nothing applied touches that section after it |
| ReportHistory.DifferentWorkAllSurvives | scripts/browser-accept-report-conflicts.py:220-232 | any number of edits of different sections and additions sent from one page, in any order, are all applied while there is room, and all their texts are there at the end |
| ReportStore.ReportTable.SetOrdinal | src/case_intelligence/migrations/sqlite/0016_report_builder.sql:19-39 | an ordinal may be written only if it is positive and no other section holds it |
| ReportStore.ReportTable.SaveHeader | src/case_intelligence/store/reports.py:328-347 | the table operation has the outcome and the contents that the edit promises |
| ReportStore.ReportTable.Add | src/case_intelligence/store/reports.py:411-507 | likewise, at the greatest ordinal plus one |
| ReportStore.ReportTable.SaveSection | src/case_intelligence/store/reports.py:534-588 | likewise |
| ReportStore.ReportTable.Move | src/case_intelligence/store/reports.py:590-646 | likewise, by three updates through a temporary ordinal that never collides |
| ReportStore.ReportTable.Remove | src/case_intelligence/store/reports.py:648-685 | likewise, with the later sections moved up one by one and ordinals again exactly 1 to n |
| ReportStore.ReportTable.DeleteReport | src/case_intelligence/store/reports.py:687-704 | likewise, with every section gone |
| PdfText.EscapeIsOnePass | scripts/browser-accept-workflow-handoff.py:65-66 | the three whole-string replacements equal one pass that puts a backslash before each special character |
| PdfText.BackslashLastDiffers | scripts/browser-accept-workflow-handoff.py:65-66 | replacing the backslash last would not |
| PdfText.LiteralRoundTrip | scripts/browser-accept-workflow-handoff.py:65-68 | a reader of literal strings (section 7.3.4.2 of ISO 32000-1) gets an escaped line back and stops at its closing parenthesis |
| PdfText.StreamRoundTrip | scripts/browser-accept-workflow-handoff.py:65-68 | the content stream shows exactly the list of lines, each one row below the one before |
| SpeechTimeline.Join | scripts/browser-accept-workflow-handoff.py:77-98 | each segment starts at the end of the one before, counted in bytes at 32,000 a second |
| SpeechTimeline.SegmentOwnsItsFrames | scripts/browser-accept-workflow-handoff.py:92-102 | the joined frames between a segment's times are that segment's own frames |
| SpeechTimeline.SegmentsTile | scripts/browser-accept-workflow-handoff.py:93-98 | the segments tile the recording without gap or overlap, each with its own text and a second for every 32,000 bytes |
| QuotaFiller.FillBatch | scripts/browser-accept-intake-receipts.py:367-374 | the inner loop ends with files that add up to the batch, all but the last of the full size, all positive if the batch is |
| QuotaFiller.Fill | scripts/browser-accept-intake-receipts.py:363-376 | the nested loops end; with quota enough, every session is accepted, all but the last full, and exactly 1,024 bytes stay free; with less, the only request is refused |
| QuotaFiller.NamesNeverRepeat | scripts/browser-accept-intake-receipts.py:372 | generated names never repeat |
| QuotaFiller.NameReads | scripts/browser-accept-intake-receipts.py:372-373 | a generated name reads back, digit by digit, as its session and item |
| TargetSettling.NavigationTarget.Poll | scripts/browser-accept-matter-knowledge.py:92-117 | the one-variable detector fires exactly on two usable samples in a row with one box, and its queue holds the last six samples |
| TargetSettling.GraphTarget.Poll | scripts/browser-accept-evidence-graph.py:152-160 | the full-history detector fires on the same condition |
| TargetSettling.WaitWithBoth | scripts/browser-accept-evidence-graph.py:152-164 | fed the same samples, both fire at exactly the same polls |
| TargetSettling.UnusableResets | scripts/browser-accept-matter-knowledge.py:97-117 | a poll that sees an unusable sample, and the poll after it, never settle |

## Left out

- Browser driving, screenshots, sockets, downloads, page rendering and progress texts: user interface and I/O.
- Hashes, JSON, Unicode normalisation and case folding: a fingerprint stands for the value it is taken of, a duplicate token for its canonical path, and two different values never share one.
- CSS colour parsing and computed styles: the compositor starts from numbers in range. Rounding of floating-point numbers and the power 2.4: reals and any curve of the unit interval.
- The copy of the compositor in `scripts/browser-accept-evidence-graph.py:39-54`: it is the same recursion without pseudo-elements or adjacent readings, which `Measure` covers.
- How people sign in and become members, administrators who read without being members, CSRF, closing and closed matters, audit records: who is signed in, and whether as a member, changes at any time.
- Extracted text, playback copies and their reservations, removal of sources, the direct upload route without sessions, the global free-space reserve: the quota results are about sources uploaded in sessions.
- In a submission the receipt's check before the guard and the one at the insertion are one, and the insertion with its rows is one step; everything that the guard reads is a step of its own.
- UploadQuota.DiskStaysWithinQuota: excepts the second copy of a source where hard links are unavailable, which lasts until its staged bytes are discarded.
- UploadCheckpoint.NoReservationForgotten: is about sessions that the checkpoint named; a session opened by a request whose reply was lost is found again through its receipt rows (`RetriedRequestOpensNothing`), not through the checkpoint.
- The browser's upload is a state machine over values and not a class with fields: its steps are separated by replies that may never come, so each step is one function of the whole state. Parallel transfers of one batch, retry delays, two tabs sharing one storage, and storage that refuses writes are not modelled.
- A reply that names the checkpoint's session and collection, and a reply 404, are the server's own; every other reply may say anything. A request and its reply are one event placed where the server acts, because nothing that the browser does comes between; the exception, not modelled, is a reply to the user's cancel that arrives after the user has confirmed another upload in the same page.
- UploadStore.UploadTable.OpenSession: is the guard with nothing in between; how other requests interleave with its readings is in the ledger's runs.
- Reading the checkpoint back from storage: a value that does not have the shape of a checkpoint counts as none, and nobody else writes one.
- Receipt recording, sealing, filtering and export, and field validation of names, titles and texts.
- Citations, review bases appended to section texts, actors and creation times of Reports.
- Text wrapping and PDF object structure around the content stream; speech synthesis and WAV headers.
- TargetSettling.WaitWithBoth: uses one shared test of a usable sample; the two scripts decide visibility by the centre of the element and by its edges.
- Extraction, OCR, transcription, answers, entity discovery, databases beyond the tables above.
