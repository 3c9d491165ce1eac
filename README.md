# Quiz portal: review workflow, validators and role rules

This project models the core of a quiz-content portal. The portal is a React
app backed by a Firestore document store, plus two Node administration
scripts.

- **Question flow.** Editors write questions one at a time (the dashboard form), upload them in bulk from a spreadsheet, or generate them with an AI model.
  - Administrators' questions go straight to the live `quizQuestions` collection.
  - Everyone else's generated questions become one `pending` staging batch. A reviewer approves the batch, which publishes it in atomic groups of 450 writes, or rejects it.
  - After a 14-day retention window a reviewed batch may be deleted.
- **Access.** Access to the portal and to the review screen follows the custom claims `admin` and `operational` of the user's ID token.
- **Scripts.** The two scripts grant or remove those claims, and list who holds them.

Every collection is a Dafny `map` from document id to document, a `Doc`
being a `map<string, Value>` over JavaScript values (`values.dfy`). Auto-ids,
the current time (an integer of milliseconds), the answers of
confirmation dialogs and the failures of store calls are parameters.

The modules, one per source file, plus shared ones:

- `Text`: the string built-ins the portal uses (`trim`, ASCII `toLowerCase`, `split(',')`, `parseInt`, decimal rendering).
- `Values`: JavaScript values, truthiness and the review screen's `toJsDate`.
- `Store`: the store. It is a class whose fields are the live collection, the staging batches and each batch's `questions` sub-collection, plus the atomic write-group semantics.
- `Lists`: the screens' copy-and-edit list operations.
- `AdminReview`: chunked approval, rejection, the retention rule and cleanup.
- `QuizGenerator`: the payload builders, `persistGeneratedQuestions`, the edit form and the generator screen's state.
- `BulkUpload`: the per-row validation pipeline and the upload loop with its counters.
- `QuestionForm`: the single-question form's defaults and validation.
- `Dashboard`: the ordered listing, save (update or create) and delete.
- `Auth`: role state from claims, and the auth listener.
- `RouteGuard`: the route guards.
- `ScriptArgs`, `SetAdminClaim`, `ListAdmins`: the two scripts.

## Model

| member | source | states |
|---|---|---|
| `Text.Trim` | src/components/QuestionForm.jsx:29 | the result has no whitespace at either end |
| `Text.TrimIsInfix` | src/components/QuestionForm.jsx:29 | what `trim` keeps is the infix between the leading and the trailing whitespace |
| `Text.TrimIdempotent` | src/components/QuestionForm.jsx:44-50 | trimming twice is trimming once |
| `Text.BlankIffAllSpace` | src/components/QuestionForm.jsx:29-32 | a text is blank exactly when every character is whitespace |
| `Text.Lower` | scripts/set-admin-claim.mjs:22 | same length; each ASCII capital becomes its small letter, every other character is kept |
| `Text.LowerIdempotent` | scripts/set-admin-claim.mjs:22 | lower-casing twice is lower-casing once |
| `Text.Split` | src/components/BulkUpload.jsx:135 | at least one piece, and no piece holds a comma |
| `Text.JoinSplit` | src/components/BulkUpload.jsx:135 | joining the pieces with commas gives back the text |
| `Text.SplitJoin` | src/components/BulkUpload.jsx:135 | splitting comma-free pieces joined with commas gives back the pieces |
| `Text.DigitRun` | src/components/BulkUpload.jsx:115 | the digit prefix `parseInt` reads is the longest run of digits |
| `Text.NatToString` | src/components/BulkUpload.jsx:91 | a non-empty string of decimal digits |
| `Text.ParseIntOfRendered` | src/components/BulkUpload.jsx:115 | `parseInt` skips leading whitespace and reads back a rendered integer followed by any non-digit text |
| `Text.ParseIntOfIntToString` | src/components/BulkUpload.jsx:125 | `parseInt(String(n), 10) === n` |
| `Text.TrimOfRendered` | src/components/BulkUpload.jsx:114 | trimming a rendered integer keeps it |
| `Values.DateOf` | src/components/AdminReview.jsx:20-31 | `null` is time 0, a boolean 0 or 1, a number or timestamp itself when inside the JavaScript date range and invalid outside it; a string, list or object gives no date |
| `Values.ToJsDate` | src/components/AdminReview.jsx:20-31 | no value or a falsy value gives no date; a timestamp gives its own time; any other truthy value gives the date of `new Date(value)` |
| `Store.ApplyWrite` | src/components/AdminReview.jsx:90-121 | a write changes only its target: a delete removes it, a put replaces it, a merge overwrites the given fields and keeps the others |
| `Store.ApplyWritesAppend` | src/components/AdminReview.jsx:84-124 | committing two groups in turn is committing their concatenation |
| `Store.ApplyWritesUntouched` | src/components/AdminReview.jsx:123 | a document no write of the group targets is unchanged |
| `Store.Firestore.constructor` | src/components/AdminReview.jsx:79-81 | the store holds the given collections |
| `Lists.ReplaceAt` | src/components/QuestionForm.jsx:20-24 | the copy has the same length, the new value at the index, and every other slot unchanged |
| `Lists.RemoveAtSlices` | src/components/QuizGenerator.jsx:349 | dropping a position is the slice before it followed by the slice after it; an index outside the list changes nothing |
| `Lists.Without` | src/components/QuizGenerator.jsx:394 | the value is gone and every other element is kept |
| `Lists.WithoutConcat` | src/components/QuizGenerator.jsx:394 | filtering a concatenation filters each part, keeping order and repeats |
| `Lists.WithoutSingle` | src/components/QuizGenerator.jsx:394 | one element is kept exactly when it differs from the value |
| `Lists.WithoutAbsent` | src/components/QuizGenerator.jsx:394 | filtering out a value that does not occur changes nothing |
| `Lists.WithoutKeepsNoDup` | src/components/QuizGenerator.jsx:394 | filtering keeps a list free of repeats |
| `AdminReview.ChunkCountAt` | src/components/AdminReview.jsx:83-86 | commit k exists exactly when 450k is below the item count |
| `AdminReview.ChunksPartition` | src/components/AdminReview.jsx:83-86 | ceil(n/450) commits, starting at 0 and ending at n, contiguous, each non-empty and at most 450 items |
| `AdminReview.ChunkOfItem` | src/components/AdminReview.jsx:84-86 | every item lands in exactly one commit, commit i/450 |
| `AdminReview.CopiedFields` | src/components/AdminReview.jsx:96-101 | exactly the item's question fields, with their values |
| `AdminReview.PublishedPayload` | src/components/AdminReview.jsx:95-114 | the published document carries the batch id and the approval time as `publishedAt` and `updatedAt` |
| `AdminReview.PublishedPayloadShape` | src/components/AdminReview.jsx:95-114 | the payload holds the item's question fields, `explanation` defaulting to `''`, `createdAt` from the item or now, `updatedAt` = `publishedAt` = now, `publishedBatchId`, and `imageUrl` only when non-blank and trimmed |
| `AdminReview.PayloadKeys` | src/components/AdminReview.jsx:96-114 | the payload's keys are the copied fields present, the five stamps, and `imageUrl` when given |
| `AdminReview.PayloadCopies` | src/components/AdminReview.jsx:97-101 | copied fields keep the item's values |
| `AdminReview.PayloadStamps` | src/components/AdminReview.jsx:102-107 | the stamped values |
| `AdminReview.PayloadImage` | src/components/AdminReview.jsx:108-114 | `imageUrl` is present exactly when the item's is a non-blank string, and it is trimmed |
| `AdminReview.NotAPublishedField` | src/components/AdminReview.jsx:96-107 | `__action`, `__targetId`, `published` and `id` are never published |
| `AdminReview.DispatchDefaults` | src/components/AdminReview.jsx:88-121 | a missing action or a falsy target is a create; a delete or update goes to its target when `doc()` accepts it, and throws when the target is truthy but no string or holds `/` |
| `AdminReview.MalformedTargetExamples` | src/components/AdminReview.jsx:88-121 | `__targetId: 5` on a delete and `'a/b'` on an update throw; an empty target or no action is a create |
| `AdminReview.PlanWriteTarget` | src/components/AdminReview.jsx:89-121 | an item's write touches its target, or its fresh id for a create |
| `AdminReview.DeleteEffect` | src/components/AdminReview.jsx:90-94 | a targeted delete removes only its target |
| `AdminReview.UpdateEffect` | src/components/AdminReview.jsx:115-117 | a targeted update merges the payload into the target and keeps its other fields and every other document |
| `AdminReview.CreateEffect` | src/components/AdminReview.jsx:118-121 | a create inserts exactly one new document, under the fresh id |
| `AdminReview.PlanWritesSplit` | src/components/AdminReview.jsx:84-122 | the writes of a range are those of its two halves |
| `AdminReview.CommitStep` | src/components/AdminReview.jsx:84-124 | committing the next group after the earlier ones commits the longer prefix |
| `AdminReview.WritesAround` | src/components/AdminReview.jsx:84-124 | the approval is the writes before item k, item k's write, then the writes after it |
| `AdminReview.LastWriteWins` | src/components/AdminReview.jsx:84-124 | item k's write decides an id no later item touches |
| `AdminReview.CreatedItemIsPublished` | src/components/AdminReview.jsx:118-121 | after the whole approval a created item is stored under its fresh id with its payload |
| `AdminReview.DeletedTargetIsGone` | src/components/AdminReview.jsx:90-94 | a targeted delete wins unless a later item targets the same id |
| `AdminReview.FirstBadTarget` | src/components/AdminReview.jsx:87-121 | the first item whose target reference throws, with none before it; none exactly when every item has a write |
| `AdminReview.RefusedCommit` | src/components/AdminReview.jsx:84-124 | the failing commit is the store's refusal or the first group holding a throwing item, whichever is earlier; with no throwing item it is the store's refusal |
| `AdminReview.RefusedAt` | src/components/AdminReview.jsx:84-124 | the loop stops at the group that throws or is refused, when no earlier one did |
| `AdminReview.BadTargetBlocksApproval` | src/components/AdminReview.jsx:84-141 | a throwing item keeps its group and every later one uncommitted, so the batch is never stamped approved |
| `AdminReview.ChunkWrites` | src/components/AdminReview.jsx:86-122 | the write group of one commit is the planned writes of its slice, or nothing when building one of its references throws |
| `AdminReview.CommitChunks` | src/components/AdminReview.jsx:84-124 | the commits before the first group that throws or is refused, and only those, are applied to the live collection; batches untouched |
| `AdminReview.ApproveBatch` | src/components/AdminReview.jsx:75-145 | a dismissed dialog changes nothing; otherwise the prefix before the first throwing or refused group is published, and the batch is stamped approved only after every commit succeeded |
| `AdminReview.FullApprovalPublishesAll` | src/components/AdminReview.jsx:84-131 | with no refused commit every item is published |
| `AdminReview.FailedApprovalPublishesPrefix` | src/components/AdminReview.jsx:139-141 | a refused commit f leaves exactly the first 450f items published |
| `AdminReview.RejectBatch` | src/components/AdminReview.jsx:147-166 | the batch is stamped rejected with the note or `''`, whatever its status; the live collection is untouched |
| `AdminReview.ApprovedBatchCanBeRejected` | src/components/AdminReview.jsx:256-259 | an approved batch can still be rejected; it cannot be approved again |
| `AdminReview.ButtonsNeedReviewer` | src/components/AdminReview.jsx:256-259 | without the reviewer role neither button is enabled |
| `AdminReview.CanCleanupBatch` | src/components/AdminReview.jsx:168-179 | a batch may be deleted exactly when it is approved (or rejected) and its approval (or rejection) time is a valid date at least 14 days back |
| `AdminReview.RetentionBoundary` | src/components/AdminReview.jsx:168-179 | a batch may be deleted exactly 14 days after its review and not one millisecond earlier |
| `AdminReview.RetentionMonotone` | src/components/AdminReview.jsx:168-179 | once deletable, always deletable |
| `AdminReview.UnreviewedNeverCleanable` | src/components/AdminReview.jsx:168-179 | a pending batch, or one without a valid review time, is never deletable |
| `AdminReview.Survivors` | src/components/AdminReview.jsx:191-196 | at most as many survivors as items |
| `AdminReview.SurvivorPositions` | src/components/AdminReview.jsx:191-196 | the survivors are exactly the items at the refused positions, in increasing position order |
| `AdminReview.NoFailureNoSurvivors` | src/components/AdminReview.jsx:191-196 | with no refused deletion no item survives |
| `AdminReview.CleanupBatch` | src/components/AdminReview.jsx:181-207 | nothing is deleted unless the retention rule holds and the user confirms; then the items go, and the batch goes only if every item went |
| `QuizGenerator.BasePayload` | src/components/QuizGenerator.jsx:121-130 | the base payload carries the numeric level, the selected user types and the explanation or `""` |
| `QuizGenerator.BasePayloadShape` | src/components/QuizGenerator.jsx:121-130 | the base payload holds the question's text, options and index as they are, the numeric level, a copy of the selected user types and the explanation or `""` |
| `QuizGenerator.BaseFieldsAreNotStamps` | src/components/QuizGenerator.jsx:121-130 | a base field is neither a time stamp nor a staging marker |
| `QuizGenerator.LivePayload` | src/components/QuizGenerator.jsx:132-140 | one time for `createdAt` and `updatedAt`, the level kept |
| `QuizGenerator.LivePayloadShape` | src/components/QuizGenerator.jsx:132-140 | the base payload plus `createdAt` = `updatedAt` = now |
| `QuizGenerator.StagingPayload` | src/components/QuizGenerator.jsx:142-154 | an unpublished `create` item without a target, stamped with the creation time |
| `QuizGenerator.StagingPayloadShape` | src/components/QuizGenerator.jsx:142-154 | the live payload plus `published: false`, `publishedBatchId: null`, `__action: "create"`, `__targetId: null` |
| `QuizGenerator.LivePayloads` | src/components/QuizGenerator.jsx:166-167 | entry k is question k's live payload, one per question |
| `QuizGenerator.StagingPayloads` | src/components/QuizGenerator.jsx:183-187 | entry k is question k's staging payload, one per question |
| `QuizGenerator.AddDocsKeys` | src/components/QuizGenerator.jsx:166-169 | adding m documents adds exactly their m auto-ids |
| `QuizGenerator.AddDocsValues` | src/components/QuizGenerator.jsx:166-169 | with fresh ids each document sits under its own id and old documents are kept |
| `QuizGenerator.CallsDone` | src/components/QuizGenerator.jsx:164-194 | fewer than n calls complete exactly when a call below n throws |
| `QuizGenerator.ItemsStored` | src/components/QuizGenerator.jsx:182-189 | the items stored never exceed the question count, and none are stored before the batch exists |
| `QuizGenerator.PersistGeneratedQuestions` | src/components/QuizGenerator.jsx:156-197 | no store throws; an empty list writes nothing and counts 0; an admin's questions are added live, in order, with no batch; anyone else's become one staging batch with its items, the live collection untouched |
| `QuizGenerator.AddLiveQuestions` | src/components/QuizGenerator.jsx:164-171 | the payloads before the throwing call are added under their auto-ids and counted |
| `QuizGenerator.ItemsAfterStep` | src/components/QuizGenerator.jsx:183-188 | one more stored item appends it to the batch's sub-collection |
| `QuizGenerator.SubmitStagingBatch` | src/components/QuizGenerator.jsx:173-196 | the batch, its items and its final totals after the calls that completed; the live collection untouched |
| `QuizGenerator.AddStagedItems` | src/components/QuizGenerator.jsx:182-189 | the staged items before the throwing call are appended to the batch, in order, and counted |
| `QuizGenerator.FinishedBatchFields` | src/components/QuizGenerator.jsx:173-194 | a completed batch is `pending`, created by the caller, with totals {n, 0, n} |
| `QuizGenerator.CompletedStagingOpensOneBatch` | src/components/QuizGenerator.jsx:173-194 | a completed save adds exactly one batch and keeps the others |
| `QuizGenerator.CompletedStagingStoresAllItems` | src/components/QuizGenerator.jsx:182-189 | a completed save stores the n staged payloads, in order, as the new batch's items |
| `QuizGenerator.GenerateGuard` | src/components/QuizGenerator.jsx:216-225 | a blank prompt is refused first, then a missing key, each with its message |
| `QuizGenerator.EnabledGenerateNeedsOnlyKey` | src/components/QuizGenerator.jsx:486-490 | a click on the enabled button passes the prompt check and fails only for a missing key |
| `QuizGenerator.ToggleUserType` | src/components/QuizGenerator.jsx:392-398 | a selected type is removed, an unselected one appended at the end; the others are kept |
| `QuizGenerator.ToggleTwiceRestores` | src/components/QuizGenerator.jsx:392-398 | ticking and unticking a type restores the selection |
| `QuizGenerator.ToggleKeepsNoDup` | src/components/QuizGenerator.jsx:392-398 | a selection without repeats stays without repeats |
| `QuizGenerator.SubmitEdit` | src/components/QuizGenerator.jsx:20-44 | accepted exactly when the three rules hold, refused with the first failing rule, and the output is trimmed with options trimmed slot by slot and the index unchanged |
| `QuizGenerator.EditedQuestionShape` | src/components/QuizGenerator.jsx:38-43 | the edited question holds exactly the four edited fields |
| `QuizGenerator.LoadEditForm` | src/components/QuizGenerator.jsx:9-12 | the edit form holds the question's string text and explanation or `''`, its numeric index or 0, and its options when they are all strings, four blank ones otherwise |
| `QuizGenerator.LoadEditedForm` | src/components/QuizGenerator.jsx:9-12 | an edited question reopens with the trimmed fields it was saved with |
| `QuizGenerator.SubmitTrimmedEdit` | src/components/QuizGenerator.jsx:20-44 | submitting the trimmed fields again gives the same question |
| `QuizGenerator.ReopenEditedIsStable` | src/components/QuizGenerator.jsx:8-44 | reopening an edited question and saving it unchanged gives the same question |
| `QuizGenerator.GeneratorScreen.constructor` | src/components/QuizGenerator.jsx:110-119 | level 1, `practitioner` selected, nothing generated, no error |
| `QuizGenerator.GeneratorScreen.GenerateQuestions` | src/components/QuizGenerator.jsx:216-245 | a refused request only sets the error; otherwise the list is replaced by the response, or emptied with the failure message |
| `QuizGenerator.GeneratorScreen.HandleUserTypeChange` | src/components/QuizGenerator.jsx:392-398 | the selection is toggled and nothing else changes |
| `QuizGenerator.GeneratorScreen.HandleEditQuestion` | src/components/QuizGenerator.jsx:400-402 | the editor opens on the index and nothing else changes |
| `QuizGenerator.GeneratorScreen.HandleSaveEdit` | src/components/QuizGenerator.jsx:404-409 | only the edited slot is replaced, and the editor closes |
| `QuizGenerator.GeneratorScreen.SaveQuestion` | src/components/QuizGenerator.jsx:341-360 | only a successful save drops the question's slot |
| `QuizGenerator.GeneratorScreen.SaveAllQuestions` | src/components/QuizGenerator.jsx:362-390 | no store or an empty list does nothing; a successful save empties the list, a failed one keeps it |
| `BulkUpload.FirstTruthy` | src/components/BulkUpload.jsx:88 | the first truthy cell among the columns, none when every one is falsy or absent |
| `BulkUpload.FirstPresent` | src/components/BulkUpload.jsx:112 | none exactly when every column is absent |
| `BulkUpload.FirstTruthyAt` | src/components/BulkUpload.jsx:88 | the cell read is the one of the first truthy column |
| `BulkUpload.FirstPresentAt` | src/components/BulkUpload.jsx:112 | the cell read is the one of the first present column |
| `BulkUpload.QuestionTextOf` | src/components/BulkUpload.jsx:88-93 | all text cells falsy: missing text; a non-text cell: `.trim` fails; a text: its trim, or missing text when that is blank |
| `BulkUpload.RowOptions` | src/components/BulkUpload.jsx:96-103 | at most four options, none empty |
| `BulkUpload.OptionText` | src/components/BulkUpload.jsx:96-102 | a column group with no truthy cell gives `''`; otherwise its first truthy cell as a string, trimmed |
| `BulkUpload.RowOptionsOfCells` | src/components/BulkUpload.jsx:96-103 | for any row, the options are the four groups' first truthy cells, of any type and spelling, as strings and trimmed, in column order, empty ones dropped |
| `BulkUpload.RowOptionsOfTexts` | src/components/BulkUpload.jsx:96-103 | four option texts give their trimmed values in column order with the empty ones dropped |
| `BulkUpload.OptionTextOfText` | src/components/BulkUpload.jsx:96-102 | an option column holding a text gives it trimmed; an empty text falls through to `''` |
| `BulkUpload.IndexOf` | src/components/BulkUpload.jsx:112-121 | a missing cell or a blank text is NaN; a non-blank text is `parseInt` of its trim, stored as that number; a number is stored and compared as itself; a boolean is stored as itself and compares as 0 or 1 |
| `BulkUpload.LevelOf` | src/components/BulkUpload.jsx:123-130 | all level cells falsy gives 1; otherwise the first truthy of `level` and `Level`: a text is its `parseInt`, a number itself, a boolean 0 or 1 |
| `BulkUpload.ExplanationOf` | src/components/BulkUpload.jsx:148-157 | all explanation cells falsy gives `''`; a text gives its trim; any other cell fails on `.trim` |
| `BulkUpload.KeepValid` | src/components/BulkUpload.jsx:139-140 | exactly the valid user types among the entries |
| `BulkUpload.KeepValidConcat` | src/components/BulkUpload.jsx:139-140 | keeping distributes over concatenation, so order and repeats are kept |
| `BulkUpload.KeepValidSingle` | src/components/BulkUpload.jsx:139-140 | one entry is kept exactly when it names a user type |
| `BulkUpload.KeepValidIgnoresEmpty` | src/components/BulkUpload.jsx:135-140 | dropping the empty pieces first does not change which entries are kept |
| `BulkUpload.UserTypesOfText` | src/components/BulkUpload.jsx:132-140 | a text keeps exactly its comma pieces that, trimmed and lower-cased, name a user type, in order |
| `BulkUpload.CleanEntries` | src/components/BulkUpload.jsx:135 | each piece trimmed and lower-cased, one for one |
| `BulkUpload.UserTypeEntries` | src/components/BulkUpload.jsx:134-136 | a text yields exactly its non-empty comma pieces, trimmed and lower-cased; any other cell is one lower-cased entry |
| `BulkUpload.ValidateRow` | src/components/BulkUpload.jsx:86-157 | a row is accepted exactly when every rule passes; its fields are then the trimmed text, the row's options, its index, level, kept user types and explanation, and they are well formed |
| `BulkUpload.FirstFailureWins` | src/components/BulkUpload.jsx:88-121 | a missing text is reported whatever else the row holds; then too few options; then a bad index |
| `BulkUpload.LaterFailuresWin` | src/components/BulkUpload.jsx:123-157 | after the index, a bad level, then no valid user type, then a non-text explanation decides the error |
| `BulkUpload.RowRecord` | src/components/BulkUpload.jsx:151-160 | the eight stored fields: text, options, index as read, level, user types, explanation, and the row's two clock reads as `createdAt` and `updatedAt` |
| `BulkUpload.IndexOfRendered` | src/components/BulkUpload.jsx:112-116 | an index written as text reads back as that number |
| `BulkUpload.LevelOfRendered` | src/components/BulkUpload.jsx:123-125 | a level written as text reads back as that number |
| `BulkUpload.UserTypesOfJoined` | src/components/BulkUpload.jsx:132-140 | valid user types joined with commas read back as those types, in order |
| `BulkUpload.RowOutcome` | src/components/BulkUpload.jsx:83-166 | a row is written iff it validates and the store accepts it, as its record stamped with its own clock reads; otherwise its first failing rule's message |
| `BulkUpload.Outcomes` | src/components/BulkUpload.jsx:83-167 | one outcome per row, outcome k being row k's with row k's clock reads |
| `BulkUpload.LaterRowsStampedLater` | src/components/BulkUpload.jsx:150-160 | on a clock that never goes back a row's `updatedAt` is no earlier than its `createdAt`, and a later accepted row is stamped no earlier than an earlier one |
| `BulkUpload.Messages` | src/components/BulkUpload.jsx:90-165 | every refused row's message is collected, and no more messages than rows |
| `BulkUpload.MessagesConcat` | src/components/BulkUpload.jsx:90-165 | the messages of two runs of rows follow each other in row order |
| `BulkUpload.MessagesSingle` | src/components/BulkUpload.jsx:90-165 | a refused row contributes its message, an accepted one nothing |
| `BulkUpload.EachRowCountedOnce` | src/components/BulkUpload.jsx:79-172 | successes plus messages equal the row count |
| `BulkUpload.WrittenKeys` | src/components/BulkUpload.jsx:151-160 | the writes add exactly the auto-ids of the accepted rows |
| `BulkUpload.WrittenValues` | src/components/BulkUpload.jsx:151-160 | each accepted row's record is stored under its own id; old documents are kept |
| `BulkUpload.Report` | src/components/BulkUpload.jsx:169-174 | success counts the writes and error the messages, together the row count; the errors shown are the first ten messages in row order |
| `BulkUpload.WriteOutcomes` | src/components/BulkUpload.jsx:83-167 | the loop counts the successes, collects the messages in order and writes each accepted row |
| `BulkUpload.ProcessData` | src/components/BulkUpload.jsx:73-176 | no store gives no report; otherwise the report of the outcomes and exactly the accepted rows written |
| `QuestionForm.NonBlankFlags` | src/components/QuestionForm.jsx:34 | flag k says whether option k is non-blank |
| `QuestionForm.OneTrueIff` | src/components/QuestionForm.jsx:34-37 | the count is positive exactly when some flag is set |
| `QuestionForm.TwoTrueIff` | src/components/QuestionForm.jsx:34-37 | the count is at least two exactly when two distinct flags are set |
| `QuestionForm.TwoNonBlankIff` | src/components/QuestionForm.jsx:34-37 | at least two options are non-blank exactly when two distinct slots are |
| `QuestionForm.OneNonBlankIff` | src/components/QuestionForm.jsx:34-37 | some option is non-blank exactly when the count is positive |
| `QuestionForm.CheckDraft` | src/components/QuestionForm.jsx:29-42 | accepted exactly when the text is non-blank, two options are non-blank and the correct option is non-blank; the first failing rule is named |
| `QuestionForm.TrimAll` | src/components/QuestionForm.jsx:46 | same length, and each slot is the trimmed option at that position |
| `QuestionForm.TrimAllIdempotent` | src/components/QuestionForm.jsx:46 | trimming the options twice is trimming once |
| `QuestionForm.TrimKeepsNonBlank` | src/components/QuestionForm.jsx:29-30 | trimming keeps a text non-blank |
| `QuestionForm.CountNonBlankTrimAll` | src/components/QuestionForm.jsx:34-46 | trimming the options keeps the count of non-blank ones |
| `QuestionForm.StringsOfStrList` | src/components/QuestionForm.jsx:13 | a stored list of strings reads back as those strings |
| `QuestionForm.LoadForm` | src/components/QuestionForm.jsx:4-18 | a new form is the empty one; an existing question gives its string fields (missing ones `''`, difficulty `Medium`), its numeric index or 0, and its options when they are all strings, four blank ones otherwise |
| `QuestionForm.LoadFormDefaults` | src/components/QuestionForm.jsx:4-18 | a new form, or a question without those fields, gives `''`, four blank options, index 0, `Medium`, `''`; present fields are used |
| `QuestionForm.Submit` | src/components/QuestionForm.jsx:26-51 | accepted exactly when the three rules hold; the output has the trimmed text, the options trimmed slot by slot, the same index, the chosen difficulty and the trimmed explanation |
| `QuestionForm.CheckDraftOfTrimmed` | src/components/QuestionForm.jsx:29-50 | the rules accept the trimmed fields of every draft they accept |
| `QuestionForm.ResubmitIsStable` | src/components/QuestionForm.jsx:10-50 | reopening a saved record and submitting it again gives the same record |
| `QuestionForm.SavedIsValid` | src/components/QuestionForm.jsx:26-51 | every accepted record has a non-blank text and a non-blank correct option |
| `Dashboard.StrBelowIrreflexive` | src/components/Dashboard.jsx:22 | no string sorts below itself |
| `Dashboard.StrBelowTransitive` | src/components/Dashboard.jsx:22 | the string order is transitive |
| `Dashboard.StrBelowTotal` | src/components/Dashboard.jsx:22 | two different strings are ordered one way or the other |
| `Dashboard.AboveTransitive` | src/components/Dashboard.jsx:22 | the descending order is transitive |
| `Dashboard.AboveAsymmetric` | src/components/Dashboard.jsx:22 | the descending order is asymmetric |
| `Dashboard.AboveTotal` | src/components/Dashboard.jsx:22 | two different documents are ordered one way or the other |
| `Dashboard.DatedIds` | src/components/Dashboard.jsx:22 | the query returns exactly the documents with a `createdAt` |
| `Dashboard.TopExists` | src/components/Dashboard.jsx:22 | a non-empty set of dated documents has one that sorts first |
| `Dashboard.TopUnique` | src/components/Dashboard.jsx:22 | the first document is unique |
| `Dashboard.ListingSorted` | src/components/Dashboard.jsx:22 | the listing holds each dated document once, in strictly descending order |
| `Dashboard.SortedArrangementIsListing` | src/components/Dashboard.jsx:22 | the listing is the only strictly descending arrangement of those documents |
| `Dashboard.ListedQuestion` | src/components/Dashboard.jsx:26 | the document's fields plus its id under `id` |
| `Dashboard.LoadedQuestionsAreNewestFirst` | src/components/Dashboard.jsx:20-28 | the loaded list is the dated documents, each with its id, newest first |
| `Dashboard.PushAll` | src/components/Dashboard.jsx:24-27 | the loop pushes each document, with its id, in snapshot order |
| `Dashboard.SavedFieldsAreNotStamps` | src/components/Dashboard.jsx:39-42 | the form's fields never include `createdAt`, `updatedAt` or `id` |
| `Store.RefOf` | src/components/Dashboard.jsx:46 | a reference exists exactly for a non-empty string id without `/`, and it is that id |
| `Dashboard.UpdateTouchesOnlyTarget` | src/components/Dashboard.jsx:39-46 | an update changes only the edited question: the form's fields and `updatedAt` = now overwrite, `createdAt` and the other fields are kept |
| `Dashboard.StampedMerge` | src/components/Dashboard.jsx:39-46 | merging stamped fields keeps every other field of the document |
| `Dashboard.CreateAddsOneQuestion` | src/components/Dashboard.jsx:39-50 | a create adds exactly one question, under the auto-id, with `createdAt` = `updatedAt` = now |
| `Dashboard.SavedQuestionReopens` | src/components/Dashboard.jsx:37-55 | a saved question reopens in the form with the fields it was saved with |
| `Dashboard.FieldsReopen` | src/components/QuestionForm.jsx:10-18 | a document holding the saved fields loads them back into the form |
| `Dashboard.DeleteRemovesOnlyTarget` | src/components/Dashboard.jsx:68 | a delete removes only the given question |
| `Dashboard.DashboardScreen.constructor` | src/components/Dashboard.jsx:9-12 | an empty list, loading, no question being edited, the form closed |
| `Dashboard.DashboardScreen.LoadQuestions` | src/components/Dashboard.jsx:20-35 | the list becomes the ordered listing, or is kept when there is no store; loading ends |
| `Dashboard.DashboardScreen.HandleEdit` | src/components/Dashboard.jsx:76-79 | the form opens on the question |
| `Dashboard.DashboardScreen.HandleAddNew` | src/components/Dashboard.jsx:81-84 | the form opens empty |
| `Dashboard.DashboardScreen.HandleSave` | src/components/Dashboard.jsx:37-60 | a successful write closes the form and reloads, ending loading; a failure, or no store, leaves the store, the list, loading and the form as they were |
| `Dashboard.SaveWrite` | src/components/Dashboard.jsx:37-51 | a new question lands under the fresh id; an edit needs a valid reference to an existing question and keeps the key set; a refusal fails |
| `Dashboard.DashboardScreen.HandleDelete` | src/components/Dashboard.jsx:62-74 | nothing happens without confirmation; a successful delete reloads and ends loading, otherwise the list and loading are kept |
| `Dashboard.DeleteWrite` | src/components/Dashboard.jsx:68 | succeeds exactly for a valid reference the store accepts, removing just that id |
| `Auth.CreateRoleState` | src/contexts/AuthContext.jsx:15-20 | a role flag is set exactly when its claim is the boolean `true` |
| `Auth.OnlyTrueGrants` | src/contexts/AuthContext.jsx:15-20 | a truthy claim other than `true` grants nothing; no claims and empty claims give no roles |
| `Auth.HasAnyRole` | src/contexts/AuthContext.jsx:74 | true exactly when some candidate is a held role |
| `Auth.HasRole` | src/contexts/AuthContext.jsx:73 | only `admin` and `operational` can hold, each as its flag says |
| `Auth.CanAccessPortal` | src/contexts/AuthContext.jsx:69-71 | portal access is holding the admin or the operational role |
| `Auth.CanAccessPortalIsAnyRole` | src/contexts/AuthContext.jsx:69-74 | portal access is holding either role; the empty candidate list gives false |
| `Auth.FetchedRoles` | src/contexts/AuthContext.jsx:55-60 | a fetched token's claims decide the roles; a failed fetch gives none |
| `Auth.ListenerRoles` | src/contexts/AuthContext.jsx:48-64 | no user or a failed claim fetch gives no roles; otherwise the token's claims decide |
| `Auth.NoClaimsNoAccess` | src/contexts/AuthContext.jsx:50-60 | a signed-out user or a failed fetch cannot use the portal; access needs a `true` claim |
| `Auth.AuthProvider.constructor` | src/contexts/AuthContext.jsx:23-25 | no user, no roles, loading |
| `Auth.AuthProvider.Start` | src/contexts/AuthContext.jsx:41-46 | without an auth service the roles are cleared and loading ends |
| `Auth.AuthProvider.OnAuthStateChanged` | src/contexts/AuthContext.jsx:48-54 | the user is stored at once; a sign-out clears the roles and ends loading, a sign-in leaves both for the claim fetch |
| `Auth.AuthProvider.ClaimsFetched` | src/contexts/AuthContext.jsx:55-63 | the fetched roles are set whatever user is current by then, and loading ends |
| `Auth.AuthProvider.RunListener` | src/contexts/AuthContext.jsx:48-64 | a listener call that runs to its end stores the user and leaves the roles the listener's outcome, loading over |
| `RouteGuard.ProtectedRoute` | src/components/ProtectedRoute.jsx:5-11 | the page is shown exactly to a signed-in user; anyone else goes to `/login` |
| `RouteGuard.AdminRoute` | src/components/ProtectedRoute.jsx:14-23 | no user goes to `/login` first, a non-admin to `/`, an admin sees the page |
| `RouteGuard.AdminRouteIsStricter` | src/components/ProtectedRoute.jsx:5-23 | an admin page shows only where a protected page would, and both send to `/login` alike |
| `RouteGuard.AdminPageNeedsAdminClaim` | src/components/ProtectedRoute.jsx:14-23 | once the listener call for the current user has run to its end, the admin page shows exactly to a signed-in user whose token carries `admin: true` |
| `ScriptArgs.LastOccurrenceWins` | scripts/set-admin-claim.mjs:19-22 | a flag's value is the remainder of its last occurrence, and there is none exactly when no argument carries it |
| `ScriptArgs.LastFlagValueAppend` | scripts/set-admin-claim.mjs:21-22 | a later argument carrying the flag overrides the earlier value |
| `ScriptArgs.KeyAndRoleFlagsDiffer` | scripts/set-admin-claim.mjs:21-22 | no argument is both a key and a role option |
| `ScriptArgs.DashlessIsNoFlag` | scripts/set-admin-claim.mjs:20-23 | an argument not starting with `-` is no option |
| `ScriptArgs.RoleArgExamples` | scripts/set-admin-claim.mjs:18-22 | the role defaults to `admin` and is lower-cased; the last `--role=` wins |
| `SetAdminClaim.Positionals` | scripts/set-admin-claim.mjs:23 | the positional arguments, each an argument that is no option |
| `SetAdminClaim.EmailOf` | scripts/set-admin-claim.mjs:23 | the first non-empty positional; none without positionals |
| `SetAdminClaim.ClaimArgsOfAppend` | scripts/set-admin-claim.mjs:19-24 | one more argument updates the parsed options as the loop body does |
| `SetAdminClaim.ParseArgs` | scripts/set-admin-claim.mjs:17-26 | the loop computes the email, key path, unset flag and role the arguments name |
| `SetAdminClaim.ClaimArgsExamples` | scripts/set-admin-claim.mjs:18-23 | the defaults; the first positional is the email; `--unset` sets the flag |
| `SetAdminClaim.NextClaims` | scripts/set-admin-claim.mjs:80-85 | `--unset` removes the role, otherwise the role is `true` |
| `SetAdminClaim.NextClaimsKeepsOthers` | scripts/set-admin-claim.mjs:80-85 | every other claim is kept |
| `SetAdminClaim.NextClaimsIdempotent` | scripts/set-admin-claim.mjs:80-85 | running twice gives the same claims |
| `SetAdminClaim.SetThenUnset` | scripts/set-admin-claim.mjs:80-85 | setting then unsetting is unsetting; unsetting an absent role restores the claims |
| `SetAdminClaim.SetClaimMain` | scripts/set-admin-claim.mjs:60-95 | exit 0 exactly when the email and role are valid and every step succeeds; otherwise 1 |
| `SetAdminClaim.BadArgumentsExitEarly` | scripts/set-admin-claim.mjs:62-69 | a missing email or unknown role exits 1 before any credential or network step, writing nothing |
| `SetAdminClaim.WrittenClaimsAreNext` | scripts/set-admin-claim.mjs:79-86 | a run that writes, writes the next claims for the parsed role |
| `ListAdmins.ListArgsOfAppend` | scripts/list-admins.mjs:17-21 | one more argument updates the parsed options as the loop body does |
| `ListAdmins.ParseArgs` | scripts/list-admins.mjs:15-23 | the loop computes the key path, `--all` and role the arguments name |
| `ListAdmins.ListArgsExamples` | scripts/list-admins.mjs:16-21 | the defaults; a positional argument changes nothing |
| `ListAdmins.NonOptionIgnored` | scripts/list-admins.mjs:16-21 | any argument that is not one of the three options changes nothing, wherever it stands |
| `ListAdmins.AllFlagExample` | scripts/list-admins.mjs:18 | `--all` sets the flag only |
| `ListAdmins.Filter` | scripts/list-admins.mjs:55 | exactly the users whose claim for the role is `true` |
| `ListAdmins.FilterOfConcat` | scripts/list-admins.mjs:55 | filtering a concatenation concatenates the filtered parts |
| `ListAdmins.FilterKeepsOrder` | scripts/list-admins.mjs:55 | the filter keeps the input order |
| `ListAdmins.Selected` | scripts/list-admins.mjs:55 | `--all` selects everyone; otherwise exactly the holders of the role |
| `ListAdmins.NoClaimsNeverSelected` | scripts/list-admins.mjs:55 | a user without claims is never selected by role |
| `ListAdmins.EntryOf` | scripts/list-admins.mjs:60-64 | the uid; a non-empty email as it is, `(no email)` otherwise; the claims when present, `{}` otherwise |
| `ListAdmins.PrintUsers` | scripts/list-admins.mjs:54-65 | one "none found" line exactly when the selection is empty; otherwise one entry per selected user, in order |
| `ListAdmins.PrintedUsersHoldRole` | scripts/list-admins.mjs:55-64 | without `--all` every printed entry is a listed holder of the role |
| `ListAdmins.NoneFoundMessages` | scripts/list-admins.mjs:56-58 | "No users found." with `--all`, "No {role} users found." otherwise |
| `ListAdmins.ListMain` | scripts/list-admins.mjs:67-87 | exit 0 exactly when the role is valid and the credential and listing steps succeed, with the users printed |
| `ListAdmins.InvalidRoleExitsFirst` | scripts/list-admins.mjs:69-72 | an unknown role exits 1 whatever the later steps would answer |
| `ListAdmins.RoleValidationExamples` | scripts/list-admins.mjs:13-20 | `--role=ADMIN` is accepted, `--role=owner` is not |

## Left out

- The AI call, its JSON parsing and code-fence extraction (`src/components/QuizGenerator.jsx:247-339`) are network I/O and a foreign library. `GenerateQuestions` takes the response, or its failure, as a parameter.
- Loading the API key from `localStorage` and the environment (`src/components/QuizGenerator.jsx:199-214`) is environment I/O. The key is a parameter.
- CSV and Excel parsing and the template download (`src/components/BulkUpload.jsx:12-71`) run in foreign libraries. The model starts from rows already parsed into text, number or boolean cells.
- The live subscriptions of the review screen, Firebase initialisation (`src/firebase/config.js` is not part of this model), routing, rendering and styles are UI and SDK wiring.
- `login` and `logout` (`src/contexts/AuthContext.jsx:27-39`) only forward to the auth service.
- The scripts' credential setup, the paging of the user listing, console output and `process.exit` are I/O.
  - Credentials are one success flag.
  - The user listing is one list, or its failure.
  - Each run ends in an exit code.
  - The usage text is not modelled.
- Confirmation dialogs, prompts and alerts are inputs (a flag or a note) or not modelled.
- Store refusals are injected as parameters: the failing commit, call or row, and the set of refused deletions. Other exceptions of the store, such as network errors or permission rules, are not modelled.
- The store's refusal of fields whose value is `undefined` is not modelled. A field missing from an item is simply missing from its payload.
- Date strings are not parsed: `new Date(text)` is taken as an invalid date.
- `Promise.all` over the item deletions of a cleanup is a sequential loop. Its refused deletions are the given positions.
- The order in which the store's auto-ids are handed out is not modelled. Auto-ids are given as parameters, distinct and unused.
- Excel cells holding non-integer numbers are floating point, which is not modelled. Numbers are integers.
- `toLowerCase` is ASCII-only. Every role name and user type is ASCII.
- `AdminReview.ApproveBatch`: computes every item's payload before the first commit. This is equivalent because a payload depends only on the item, the batch id and the time. Every clock read of one approval is taken at the same `now`.
- `QuizGenerator.PersistGeneratedQuestions`: every clock read of one save is taken at the same `now`.
- `BulkUpload.ProcessData`: computes each row's outcome before the write loop. A row's outcome depends only on the row, on the two clock reads made while writing it (given as one `ClockReads` per row) and on whether the store refuses its write.
- `BulkUpload.RowMessage`: the messages of JavaScript `TypeError`s (a `.trim` call on a non-text cell) are fixed texts, not the engine's exact wording.
- `Dashboard.Above`: documents whose `createdAt` values have the same type and value are ordered by document id. An invalid date ranks as a timestamp. Firestore's order between values of other types is represented only by type rank.
- `Store.RefOf` and `AdminReview.TargetOf`: an id holding `/` counts as a bad reference (the call throws) even where the path would address a document of another collection.
- `Dashboard.SaveWrite`: a new question's `updatedAt` and `createdAt` are two clock reads in the source; the model takes both at the same `now`.
- `Dashboard.DashboardScreen.HandleSave`: a failure while reloading after a successful write is not modelled. The reload is the ordered listing.
- `QuestionForm.LoadForm` and `QuizGenerator.LoadEditForm`: a field of the wrong type is treated as absent. The source would put it into the form state as it is. For the edit form this matters more, since generated questions come from parsed AI output rather than from the store.
- `QuizGenerator.GeneratorScreen.HandleSaveEdit`: requires the index to be one of the list's slots. The editor only opens on a listed question.
- `QuizGenerator.GeneratorScreen.SaveQuestion` and `QuizGenerator.GeneratorScreen.SaveAllQuestions`: state only the notice and the list. What they write is stated by `QuizGenerator.PersistGeneratedQuestions`, which they call. The loading flag and the alerts are not modelled.
- `Dashboard.DashboardScreen.LoadQuestions`: follows the code, so documents without a `createdAt` field are not listed. The query's ordering on `createdAt` drops them.
- `AdminReview.CleanupBatch`: follows the code. The retention rule is re-checked on the caller's copy of the batch, not on a fresh read.
- `AdminReview.RejectBatch`: follows the code. A dismissed note prompt still rejects the batch, with an empty note.
- `AdminReview.ApproveBatch`, `AdminReview.CleanupBatch` and `QuizGenerator.AddStagedItems`: a batch's items are kept and read in the order they were added. The store lists a sub-collection by document id instead. This order decides which items a refused commit of a later chunk leaves published, which of two items with the same update target wins, and the order of the items that `QuizGenerator.CompletedStagingStoresAllItems` states.
- `Auth.AuthProvider.ClaimsFetched`: the token refresh and the claim read (its two awaits) are one step. Neither sets any state, so no interleaving is lost. Which listener call's fetch finishes when is chosen by the caller, who may run `ClaimsFetched` late, after a later `OnAuthStateChanged`.
