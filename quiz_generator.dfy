/** The AI generator screen: the payloads it builds for a generated question,
    the routing of a save (an administrator writes live questions, anyone else
    submits one pending staging batch), the guards in front of generation, the
    edits of the generated list, and the form that edits one generated question. */
module QuizGenerator {
  import opened Text
  import opened Values
  import opened Store
  import opened Lists
  import opened QuestionForm

  // ---------------------------------------------------------------------------
  // Payload builders

  /** The fields of a generated question copied as they are. */
  const QUESTION_FIELDS: set<string> := {"questionText", "options", "correctIndex"}

  /** The fields every base payload carries whatever the question holds. */
  const SELECTION_FIELDS: set<string> := {"level", "usertype", "explanation"}

  /** The fields a staging payload adds to a live one. */
  const STAGING_FLAGS: set<string> := {"published", "publishedBatchId", "__action", "__targetId"}

  /** `buildBaseQuestionPayload`: the question's text, options and answer index,
      the selected level and user types, and its explanation or `""`. */
  function BasePayload(question: Doc, level: int, userTypes: seq<string>): (p: Doc)
    ensures "level" in p && p["level"] == Num(level)
    ensures "usertype" in p && p["usertype"] == StrList(userTypes)
    ensures "explanation" in p && p["explanation"] == (if FieldTruthy(question, "explanation") then question["explanation"] else Str(""))
  {
    (map f | f in QUESTION_FIELDS * question.Keys :: question[f])
    + map["level" := Num(level), "usertype" := StrList(userTypes),
          "explanation" := FieldOr(question, "explanation", Str(""))]
  }

  /** `buildLiveQuestionPayload`: the base payload stamped with one creation time. */
  function LivePayload(question: Doc, level: int, userTypes: seq<string>, now: int): (p: Doc)
    ensures "createdAt" in p && "updatedAt" in p && p["createdAt"] == p["updatedAt"] == Time(now)
    ensures "level" in p && p["level"] == Num(level)
  {
    BasePayload(question, level, userTypes) + map["createdAt" := Time(now), "updatedAt" := Time(now)]
  }

  /** `buildStagingQuestionPayload`: the live payload plus the markers of an
      unpublished `create` item. */
  function StagingPayload(question: Doc, level: int, userTypes: seq<string>, now: int): (p: Doc)
    ensures "published" in p && p["published"] == Bool(false)
    ensures "__action" in p && p["__action"] == Str("create") && "__targetId" in p && p["__targetId"] == Null
    ensures "createdAt" in p && p["createdAt"] == Time(now)
  {
    LivePayload(question, level, userTypes, now)
    + map["published" := Bool(false), "publishedBatchId" := Null,
          "__action" := Str("create"), "__targetId" := Null]
  }

  lemma QuestionFieldsAreNotSelection(f: string)
    requires f in QUESTION_FIELDS
    ensures f !in SELECTION_FIELDS && f != "createdAt" && f != "updatedAt" && f !in STAGING_FLAGS
  {
  }

  lemma SelectionFieldsAreNotStamps(f: string)
    requires f in SELECTION_FIELDS
    ensures f != "createdAt" && f != "updatedAt" && f !in STAGING_FLAGS
  {
  }

  /** A base payload holds exactly the question fields the question has, plus
      the level, a copy of the user-type selection and the explanation (`""`
      when the question has none). */
  lemma BasePayloadShape(question: Doc, level: int, userTypes: seq<string>)
    ensures var p := BasePayload(question, level, userTypes);
            && p.Keys == (QUESTION_FIELDS * question.Keys) + SELECTION_FIELDS
            && (forall f :: f in QUESTION_FIELDS && f in question ==> p[f] == question[f])
            && p["level"] == Num(level)
            && p["usertype"] == StrList(userTypes)
            && p["explanation"] == (if FieldTruthy(question, "explanation") then question["explanation"] else Str(""))
  {
    var copied := map f | f in QUESTION_FIELDS * question.Keys :: question[f];
    var selection := map["level" := Num(level), "usertype" := StrList(userTypes),
                         "explanation" := FieldOr(question, "explanation", Str(""))];
    assert selection.Keys == SELECTION_FIELDS;
    forall f | f in copied ensures f !in selection {
      QuestionFieldsAreNotSelection(f);
    }
    DisjointUnion(copied, selection);
  }

  /** The fields of a base payload are neither time stamps nor staging markers. */
  lemma BaseFieldsAreNotStamps(question: Doc, level: int, userTypes: seq<string>, f: string)
    requires f in BasePayload(question, level, userTypes)
    ensures f != "createdAt" && f != "updatedAt" && f !in STAGING_FLAGS
  {
    BasePayloadShape(question, level, userTypes);
    if f in QUESTION_FIELDS {
      QuestionFieldsAreNotSelection(f);
    } else {
      SelectionFieldsAreNotStamps(f);
    }
  }

  /** A live payload is the base payload with `createdAt` and `updatedAt` both
      set to the save time. */
  lemma LivePayloadShape(question: Doc, level: int, userTypes: seq<string>, now: int)
    ensures var p := LivePayload(question, level, userTypes, now);
            var base := BasePayload(question, level, userTypes);
            && p.Keys == base.Keys + {"createdAt", "updatedAt"}
            && (forall f :: f in base ==> p[f] == base[f])
            && p["createdAt"] == p["updatedAt"] == Time(now)
  {
    var base := BasePayload(question, level, userTypes);
    var stamps := map["createdAt" := Time(now), "updatedAt" := Time(now)];
    forall f | f in base ensures f !in stamps {
      BaseFieldsAreNotStamps(question, level, userTypes, f);
    }
    DisjointUnion(base, stamps);
  }

  /** A staging payload is the live payload plus an unpublished `create` marker
      with no target: every live field is kept with its value, and the staged
      item is created at the same instant it is last updated. */
  lemma StagingPayloadShape(question: Doc, level: int, userTypes: seq<string>, now: int)
    ensures var p := StagingPayload(question, level, userTypes, now);
            var live := LivePayload(question, level, userTypes, now);
            && p.Keys == live.Keys + STAGING_FLAGS
            && (forall f :: f in live ==> p[f] == live[f])
            && p["published"] == Bool(false) && p["publishedBatchId"] == Null
            && p["__action"] == Str("create") && p["__targetId"] == Null
            && p["createdAt"] == p["updatedAt"] == Time(now)
  {
    var live := LivePayload(question, level, userTypes, now);
    var flags := map["published" := Bool(false), "publishedBatchId" := Null,
                     "__action" := Str("create"), "__targetId" := Null];
    assert flags.Keys == STAGING_FLAGS;
    LivePayloadShape(question, level, userTypes, now);
    forall f | f in live ensures f !in flags {
      if f in BasePayload(question, level, userTypes) {
        BaseFieldsAreNotStamps(question, level, userTypes, f);
      }
    }
    DisjointUnion(live, flags);
  }

  /** The live payloads of a list of questions, in order. */
  function LivePayloads(questions: seq<Doc>, level: int, userTypes: seq<string>, now: int): (ps: seq<Doc>)
    ensures |ps| == |questions|
    ensures forall k :: 0 <= k < |questions| ==> ps[k] == LivePayload(questions[k], level, userTypes, now)
  {
    seq(|questions|, k requires 0 <= k < |questions| => LivePayload(questions[k], level, userTypes, now))
  }

  /** The staging payloads of a list of questions, in order. */
  function StagingPayloads(questions: seq<Doc>, level: int, userTypes: seq<string>, now: int): (ps: seq<Doc>)
    ensures |ps| == |questions|
    ensures forall k :: 0 <= k < |questions| ==> ps[k] == StagingPayload(questions[k], level, userTypes, now)
  {
    seq(|questions|, k requires 0 <= k < |questions| => StagingPayload(questions[k], level, userTypes, now))
  }

  // ---------------------------------------------------------------------------
  // Persisting generated questions

  /** The collection after `addDoc` of the first `m` documents under the first
      `m` auto-ids, one after the other. */
  function AddDocs(c: Collection, ids: seq<string>, docs: seq<Doc>, m: nat): Collection
    requires m <= |ids| && m <= |docs|
  {
    if m == 0 then c else AddDocs(c, ids, docs, m - 1)[ids[m - 1] := docs[m - 1]]
  }

  /** Auto-ids for `n` new documents: pairwise distinct and unused. */
  predicate FreshIdsFor(ids: seq<string>, c: Collection, n: nat) {
    && n <= |ids|
    && (forall i, j :: 0 <= i < j < n ==> ids[i] != ids[j])
    && (forall i :: 0 <= i < n ==> ids[i] !in c)
  }

  /** The first `m` auto-ids. */
  function FirstIds(ids: seq<string>, m: nat): (r: set<string>)
    requires m <= |ids|
    ensures forall k :: 0 <= k < m ==> ids[k] in r
  {
    set k | 0 <= k < m :: ids[k]
  }

  lemma FirstIdsStep(ids: seq<string>, m: nat)
    requires 0 < m <= |ids|
    ensures FirstIds(ids, m) == FirstIds(ids, m - 1) + {ids[m - 1]}
  {
    assert forall id :: id in FirstIds(ids, m) ==> id in FirstIds(ids, m - 1) || id == ids[m - 1];
  }

  /** Adding `m` documents adds exactly their `m` ids to the collection. */
  lemma {:induction false} AddDocsKeys(c: Collection, ids: seq<string>, docs: seq<Doc>, m: nat)
    requires m <= |ids| && m <= |docs|
    ensures AddDocs(c, ids, docs, m).Keys == c.Keys + FirstIds(ids, m)
    decreases m
  {
    if m > 0 {
      AddDocsKeys(c, ids, docs, m - 1);
      FirstIdsStep(ids, m);
    }
  }

  /** With fresh ids, each added document sits under its own id and every
      existing document is left as it was. */
  lemma {:induction false} AddDocsValues(c: Collection, ids: seq<string>, docs: seq<Doc>, m: nat)
    requires m <= |docs| && FreshIdsFor(ids, c, m)
    ensures var r := AddDocs(c, ids, docs, m);
            && (forall k :: 0 <= k < m ==> ids[k] in r && r[ids[k]] == docs[k])
            && (forall id :: id in c ==> id in r && r[id] == c[id])
    decreases m
  {
    if m > 0 {
      AddDocsValues(c, ids, docs, m - 1);
      var r := AddDocs(c, ids, docs, m);
      forall k | 0 <= k < m - 1
        ensures ids[k] in r && r[ids[k]] == docs[k]
      {
        assert ids[k] != ids[m - 1];
      }
      forall id | id in c
        ensures id in r && r[id] == c[id]
      {
        assert id != ids[m - 1];
      }
    }
  }

  /** Where a save went. */
  datatype Destination = Live | Staging

  /** What `persistGeneratedQuestions` returns. */
  datatype Persisted = Persisted(destination: Destination, count: nat, batchId: Option<string>)

  /** Why it threw: no store configured, or store call number `step` failed. */
  datatype PersistError = NotConfigured | WriteFailed(step: nat)

  /** How many of `n` store calls complete when call number `failAt` (if any)
      throws. */
  function CallsDone(failAt: Option<nat>, n: nat): (d: nat)
    ensures d <= n
    ensures d < n <==> failAt.Some? && failAt.value < n
  {
    if failAt.Some? && failAt.value < n then failAt.value else n
  }

  /** The `{ success, error, total }` counters of a staging batch. */
  function Totals(success: nat, error: nat, total: nat): Value {
    Obj(map["success" := Num(success), "error" := Num(error), "total" := Num(total)])
  }

  /** The staging batch a non-administrator's save opens. */
  function NewBatch(user: Option<User>, now: int, total: nat): Doc {
    map["status" := Str("pending"), "createdAt" := Time(now),
        "createdByUid" := UidOrNull(user), "createdByEmail" := EmailOrNull(user),
        "totals" := Totals(0, 0, total), "notes" := Str("AI generator submission")]
  }

  /** The final update of that batch once every item is stored. */
  function FinishBatch(success: nat, total: nat, now: int): Doc {
    map["totals" := Totals(success, 0, total), "updatedAt" := Time(now)]
  }

  /** How many staged items exist when `done` of the staging path's calls
      completed: call 0 opens the batch, calls 1 to n add the items. */
  function ItemsStored(done: nat, n: nat): (m: nat)
    ensures m <= n
    ensures m == 0 <==> done <= 1 || n == 0
  {
    if done <= 1 then 0 else if done - 1 < n then done - 1 else n
  }

  /** `persistGeneratedQuestions`. Store calls are numbered in the order they
      are made; `failAt` is the one that throws, if any. A missing store throws
      before anything else, and an empty list writes nothing. Otherwise an
      administrator's questions go live (`AddLiveQuestions`) and anyone else's
      become one staging batch (`SubmitStagingBatch`). All clock reads of one
      save happen at `now`. */
  method PersistGeneratedQuestions(db: Firestore?, isAdmin: bool, user: Option<User>, questions: seq<Doc>,
                                   level: int, userTypes: seq<string>, now: int,
                                   freshIds: seq<string>, batchId: string, failAt: Option<nat>)
    returns (r: Result<Persisted, PersistError>)
    requires |freshIds| == |questions|
    modifies db
    ensures db == null ==> r == Err(NotConfigured)
    ensures db != null && |questions| == 0 ==>
              && r == Ok(Persisted(if isAdmin then Live else Staging, 0, None))
              && db.quizQuestions == old(db.quizQuestions)
              && db.stagingBatches == old(db.stagingBatches)
              && db.batchQuestions == old(db.batchQuestions)
    ensures db != null && |questions| > 0 && isAdmin ==>
              var done := CallsDone(failAt, |questions|);
              && db.quizQuestions == AddDocs(old(db.quizQuestions), freshIds,
                                             LivePayloads(questions, level, userTypes, now), done)
              && db.stagingBatches == old(db.stagingBatches)
              && db.batchQuestions == old(db.batchQuestions)
              && (done == |questions| ==> r == Ok(Persisted(Live, |questions|, None)))
              && (done < |questions| ==> r == Err(WriteFailed(done)))
    ensures db != null && |questions| > 0 && !isAdmin ==>
              var staged := StagingPayloads(questions, level, userTypes, now);
              var done := CallsDone(failAt, |questions| + 2);
              && db.stagingBatches == BatchesAfter(old(db.stagingBatches), user, |questions|, now, batchId, done)
              && db.batchQuestions == ItemsAfter(old(db.batchQuestions), staged, batchId, done)
              && r == StagingResult(|questions|, batchId, done)
              && db.quizQuestions == old(db.quizQuestions)
  {
    if db == null {
      return Err(NotConfigured);
    }
    if |questions| == 0 {
      return Ok(Persisted(if isAdmin then Live else Staging, 0, None));
    }
    if isAdmin {
      r := AddLiveQuestions(db, LivePayloads(questions, level, userTypes, now), freshIds, failAt);
    } else {
      r := SubmitStagingBatch(db, user, StagingPayloads(questions, level, userTypes, now), now, batchId, failAt);
    }
  }

  /** The administrator's path: add each payload to the live collection under
      its auto-id, in order, counting the successes (calls 0 to n-1). */
  method AddLiveQuestions(db: Firestore, payloads: seq<Doc>, freshIds: seq<string>, failAt: Option<nat>)
    returns (r: Result<Persisted, PersistError>)
    requires |freshIds| == |payloads|
    modifies db
    ensures var done := CallsDone(failAt, |payloads|);
            && db.quizQuestions == AddDocs(old(db.quizQuestions), freshIds, payloads, done)
            && db.stagingBatches == old(db.stagingBatches)
            && db.batchQuestions == old(db.batchQuestions)
            && (done == |payloads| ==> r == Ok(Persisted(Live, |payloads|, None)))
            && (done < |payloads| ==> r == Err(WriteFailed(done)))
  {
    var success: nat := 0;
    while success < |payloads|
      invariant success <= |payloads|
      invariant failAt.Some? && failAt.value < |payloads| ==> success <= failAt.value
      invariant db.quizQuestions == AddDocs(old(db.quizQuestions), freshIds, payloads, success)
      invariant db.stagingBatches == old(db.stagingBatches) && db.batchQuestions == old(db.batchQuestions)
    {
      if failAt == Some(success) {
        return Err(WriteFailed(success));
      }
      db.quizQuestions := db.quizQuestions[freshIds[success] := payloads[success]];
      success := success + 1;
    }
    return Ok(Persisted(Live, success, None));
  }

  /** The staging batches after `done` calls of the staging path: untouched
      before call 0 completes, the new batch with its initial totals until the
      last call, and the batch with its final totals after it. */
  function BatchesAfter(batches0: Collection, user: Option<User>, n: nat, now: int, batchId: string,
                        done: nat): Collection
  {
    if done == 0 then batches0
    else if done <= n + 1 then batches0[batchId := NewBatch(user, now, n)]
    else batches0[batchId := NewBatch(user, now, n) + FinishBatch(n, n, now)]
  }

  /** The sub-collections after `done` calls: the batch's items gain the first
      `ItemsStored(done, n)` staged payloads, in order. */
  function ItemsAfter(items0: map<string, seq<Doc>>, staged: seq<Doc>, batchId: string, done: nat)
    : map<string, seq<Doc>>
  {
    var stored := ItemsStored(done, |staged|);
    if stored == 0 then items0
    else items0[batchId := (if batchId in items0 then items0[batchId] else []) + staged[..stored]]
  }

  /** One more stored item appends it to the batch's sub-collection. */
  lemma ItemsAfterStep(items0: map<string, seq<Doc>>, staged: seq<Doc>, batchId: string, k: nat)
    requires k < |staged|
    ensures var m := ItemsAfter(items0, staged, batchId, k + 1);
            ItemsAfter(items0, staged, batchId, k + 2) == m[batchId := (if batchId in m then m[batchId] else []) + [staged[k]]]
  {
    var base := if batchId in items0 then items0[batchId] else [];
    assert ItemsStored(k + 2, |staged|) == k + 1;
    assert staged[..k + 1] == staged[..k] + [staged[k]];
    if k == 0 {
      assert ItemsAfter(items0, staged, batchId, k + 1) == items0;
      assert staged[..k + 1] == [staged[k]];
    } else {
      assert ItemsStored(k + 1, |staged|) == k;
      assert base + staged[..k + 1] == (base + staged[..k]) + [staged[k]];
    }
  }

  /** The result after `done` of the `n + 2` calls. */
  function StagingResult(n: nat, batchId: string, done: nat): Result<Persisted, PersistError> {
    if done < n + 2 then Err(WriteFailed(done)) else Ok(Persisted(Staging, n, Some(batchId)))
  }

  /** Everyone else's path: open one `pending` batch (call 0), add one item per
      payload to its `questions` sub-collection (calls 1 to n), then stamp the
      final totals (call n+1). */
  method SubmitStagingBatch(db: Firestore, user: Option<User>, staged: seq<Doc>, now: int, batchId: string,
                            failAt: Option<nat>)
    returns (r: Result<Persisted, PersistError>)
    modifies db
    ensures var done := CallsDone(failAt, |staged| + 2);
            && db.stagingBatches == BatchesAfter(old(db.stagingBatches), user, |staged|, now, batchId, done)
            && db.batchQuestions == ItemsAfter(old(db.batchQuestions), staged, batchId, done)
            && r == StagingResult(|staged|, batchId, done)
    ensures db.quizQuestions == old(db.quizQuestions)
  {
    var n := |staged|;
    if failAt == Some(0) {
      return Err(WriteFailed(0));
    }
    db.stagingBatches := db.stagingBatches[batchId := NewBatch(user, now, n)];
    var success := AddStagedItems(db, batchId, staged, failAt);
    if success < n {
      return Err(WriteFailed(success + 1));
    }
    if failAt == Some(n + 1) {
      return Err(WriteFailed(n + 1));
    }
    ghost var batches1 := db.stagingBatches;
    db.stagingBatches := db.stagingBatches[batchId := db.stagingBatches[batchId] + FinishBatch(success, n, now)];
    assert db.stagingBatches == old(db.stagingBatches)[batchId := NewBatch(user, now, n) + FinishBatch(n, n, now)] by {
      assert batches1[batchId] == NewBatch(user, now, n);
    }
    return Ok(Persisted(Staging, success, Some(batchId)));
  }

  /** The item loop of the staging path: add each payload to the batch's
      `questions` sub-collection in order, item `k` being call `k + 1`, and
      count the successes; the count stops short of `|staged|` exactly when
      one of those calls throws. */
  method AddStagedItems(db: Firestore, batchId: string, staged: seq<Doc>, failAt: Option<nat>)
    returns (success: nat)
    requires failAt != Some(0)
    modifies db
    ensures success == ItemsStored(CallsDone(failAt, |staged| + 2), |staged|)
    ensures success < |staged| <==> failAt.Some? && failAt.value <= |staged|
    ensures db.batchQuestions == ItemsAfter(old(db.batchQuestions), staged, batchId, success + 1)
    ensures db.stagingBatches == old(db.stagingBatches) && db.quizQuestions == old(db.quizQuestions)
  {
    success := 0;
    while success < |staged|
      invariant success <= |staged|
      invariant failAt.Some? ==> failAt.value > success
      invariant db.batchQuestions == ItemsAfter(old(db.batchQuestions), staged, batchId, success + 1)
      invariant db.stagingBatches == old(db.stagingBatches) && db.quizQuestions == old(db.quizQuestions)
    {
      if failAt == Some(success + 1) {
        return;
      }
      ItemsAfterStep(old(db.batchQuestions), staged, batchId, success);
      db.batchQuestions := db.batchQuestions[batchId := db.ItemsOf(batchId) + [staged[success]]];
      success := success + 1;
    }
  }

  /** The batch a completed save leaves: `pending`, created by the caller,
      with totals `{n, 0, n}` and the AI-generator note. */
  lemma FinishedBatchFields(user: Option<User>, n: nat, now: int)
    ensures var b := NewBatch(user, now, n) + FinishBatch(n, n, now);
            && b["status"] == Str("pending") && b["totals"] == Totals(n, 0, n)
            && b["createdByUid"] == UidOrNull(user) && b["createdByEmail"] == EmailOrNull(user)
            && b["createdAt"] == b["updatedAt"] == Time(now)
            && b["notes"] == Str("AI generator submission")
  {
  }

  /** With a fresh batch id, a save that completes opens exactly one new
      batch, the finished one, and leaves every other batch untouched. */
  lemma CompletedStagingOpensOneBatch(batches0: Collection, user: Option<User>, n: nat, now: int, batchId: string)
    requires batchId !in batches0
    ensures var batches := BatchesAfter(batches0, user, n, now, batchId, n + 2);
            && batches.Keys == batches0.Keys + {batchId}
            && (forall id :: id in batches0 ==> batches[id] == batches0[id])
            && batches[batchId] == NewBatch(user, now, n) + FinishBatch(n, n, now)
  {
  }

  /** A save that completes stores the `n` staged items, in order, as the new
      batch's sub-collection and leaves every other sub-collection untouched. */
  lemma CompletedStagingStoresAllItems(items0: map<string, seq<Doc>>, staged: seq<Doc>, batchId: string)
    requires batchId !in items0 && |staged| > 0
    ensures var items := ItemsAfter(items0, staged, batchId, |staged| + 2);
            && items.Keys == items0.Keys + {batchId}
            && items[batchId] == staged
            && (forall id :: id in items0 ==> items[id] == items0[id])
  {
    assert staged[..|staged|] == staged;
  }

  // ---------------------------------------------------------------------------
  // Generation guards

  /** `generateQuestions` refuses a blank prompt first, then a missing API key;
      `None` means the request goes out. */
  function GenerateGuard(prompt: string, apiKey: string): (e: Option<string>)
    ensures e.None? <==> NonBlank(prompt) && apiKey != ""
    ensures !NonBlank(prompt) ==> e == Some("Please enter a prompt")
    ensures NonBlank(prompt) && apiKey == "" ==> e == Some("Please enter your AI API key or set it in .env file")
  {
    if !NonBlank(prompt) then Some("Please enter a prompt")
    else if apiKey == "" then Some("Please enter your AI API key or set it in .env file")
    else None
  }

  /** The Generate button is enabled when nothing is generating, the prompt is
      not blank and at least one user type is selected. */
  predicate GenerateEnabled(generating: bool, prompt: string, userTypes: seq<string>) {
    !(generating || !NonBlank(prompt) || |userTypes| == 0)
  }

  /** A click on the enabled button never meets the prompt check; whether it
      goes out depends on the API key alone. The user-type selection is checked
      only by the button. */
  lemma EnabledGenerateNeedsOnlyKey(prompt: string, apiKey: string, userTypes: seq<string>)
    requires GenerateEnabled(false, prompt, userTypes)
    ensures GenerateGuard(prompt, apiKey) != Some("Please enter a prompt")
    ensures GenerateGuard(prompt, apiKey).None? <==> apiKey != ""
  {
  }

  // ---------------------------------------------------------------------------
  // The user-type selection

  /** `handleUserTypeChange`: drop a selected type, append an unselected one. */
  function ToggleUserType(selected: seq<string>, t: string): (r: seq<string>)
    ensures t in r <==> t !in selected
    ensures forall k :: 0 <= k < |selected| && selected[k] != t ==> selected[k] in r
    ensures forall k :: 0 <= k < |r| && r[k] != t ==> r[k] in selected
    ensures t !in selected ==> r == selected + [t]
  {
    if t in selected then Without(selected, t) else selected + [t]
  }

  /** Ticking an unticked type and unticking it again restores the selection. */
  lemma ToggleTwiceRestores(selected: seq<string>, t: string)
    requires t !in selected
    ensures ToggleUserType(ToggleUserType(selected, t), t) == selected
  {
    assert (selected + [t])[..|selected|] == selected;
    WithoutAbsent(selected, t);
  }

  /** A selection without repeats stays without repeats. */
  lemma ToggleKeepsNoDup(selected: seq<string>, t: string)
    requires NoDup(selected)
    ensures NoDup(ToggleUserType(selected, t))
  {
    if t in selected {
      WithoutKeepsNoDup(selected, t);
    }
  }

  // ---------------------------------------------------------------------------
  // The form that edits one generated question

  /** The edit form's state; it has no difficulty. */
  datatype EditForm = EditForm(questionText: string, options: seq<string>, correctIndex: int, explanation: string)

  /** The edit form opened on a generated question: each field falls back to
      the empty value when missing, falsy or of another type than the form holds. */
  function LoadEditForm(question: Doc): (f: EditForm)
    ensures if "questionText" in question && question["questionText"].Str? then f.questionText == question["questionText"].s
            else f.questionText == ""
    ensures if "explanation" in question && question["explanation"].Str? then f.explanation == question["explanation"].s
            else f.explanation == ""
    ensures if "correctIndex" in question && question["correctIndex"].Num? then f.correctIndex == question["correctIndex"].n
            else f.correctIndex == 0
    ensures if "options" in question && question["options"].List?
               && forall k :: 0 <= k < |question["options"].elems| ==> question["options"].elems[k].Str?
            then |f.options| == |question["options"].elems|
                 && forall k :: 0 <= k < |f.options| ==> f.options[k] == question["options"].elems[k].s
            else f.options == BLANK_OPTIONS
  {
    EditForm(TextOr(question, "questionText", ""), OptionsOr(question, BLANK_OPTIONS), IndexOr0(question),
             TextOr(question, "explanation", ""))
  }

  /** The question the edit form hands back. */
  function EditedQuestion(questionText: string, options: seq<string>, correctIndex: int, explanation: string): Doc {
    map["questionText" := Str(questionText), "options" := StrList(options),
        "correctIndex" := Num(correctIndex), "explanation" := Str(explanation)]
  }

  /** `EditQuestionForm.handleSubmit`: the question form's three rules, then
      the trimmed question handed back, without a difficulty. */
  function SubmitEdit(f: EditForm): (r: Result<Doc, FormError>)
    ensures r.Ok? <==> CheckDraft(f.questionText, f.options, f.correctIndex).None?
    ensures r.Err? ==> Some(r.error) == CheckDraft(f.questionText, f.options, f.correctIndex)
    ensures r.Ok? ==> r.value == EditedQuestion(Trim(f.questionText), TrimAll(f.options), f.correctIndex,
                                                Trim(f.explanation))
  {
    match CheckDraft(f.questionText, f.options, f.correctIndex)
    case Some(e) => Err(e)
    case None => Ok(EditedQuestion(Trim(f.questionText), TrimAll(f.options), f.correctIndex, Trim(f.explanation)))
  }

  /** The edited question holds exactly the four edited fields; in particular
      it has no difficulty. */
  lemma EditedQuestionShape(questionText: string, options: seq<string>, correctIndex: int, explanation: string)
    ensures var q := EditedQuestion(questionText, options, correctIndex, explanation);
            && q.Keys == {"questionText", "options", "correctIndex", "explanation"}
            && q["questionText"] == Str(questionText) && q["options"] == StrList(options)
            && q["correctIndex"] == Num(correctIndex) && q["explanation"] == Str(explanation)
            && "difficulty" !in q
  {
  }

  /** An edited question opens again with exactly the trimmed fields it was
      saved with. */
  lemma LoadEditedForm(f: EditForm)
    requires SubmitEdit(f).Ok?
    ensures LoadEditForm(SubmitEdit(f).value)
            == EditForm(Trim(f.questionText), TrimAll(f.options), f.correctIndex, Trim(f.explanation))
  {
    var t := Trim(f.questionText);
    EditedQuestionShape(t, TrimAll(f.options), f.correctIndex, Trim(f.explanation));
    StringsOfStrList(TrimAll(f.options));
    TrimKeepsNonBlank(f.questionText);
  }

  /** Submitting an already trimmed, accepted form hands back the same fields. */
  lemma SubmitTrimmedEdit(f: EditForm)
    requires SubmitEdit(f).Ok?
    ensures SubmitEdit(EditForm(Trim(f.questionText), TrimAll(f.options), f.correctIndex, Trim(f.explanation)))
            == SubmitEdit(f)
  {
    CheckDraftOfTrimmed(f.questionText, f.options, f.correctIndex);
    TrimIdempotent(f.questionText);
    TrimIdempotent(f.explanation);
    TrimAllIdempotent(f.options);
  }

  /** Reopening an edited question and saving it unchanged gives back the same
      question. */
  lemma ReopenEditedIsStable(f: EditForm)
    requires SubmitEdit(f).Ok?
    ensures SubmitEdit(LoadEditForm(SubmitEdit(f).value)) == SubmitEdit(f)
  {
    LoadEditedForm(f);
    SubmitTrimmedEdit(f);
  }

  // ---------------------------------------------------------------------------
  // The generator screen

  /** What a save reports: no store, nothing to save, or the outcome of
      `persistGeneratedQuestions`. */
  datatype SaveNotice = NoStore | NothingToSave | Finished(r: Result<Persisted, PersistError>)

  /** The generator screen's state. */
  class GeneratorScreen {
    var prompt: string
    var level: int
    var selectedUserTypes: seq<string>
    var generated: seq<Doc>
    var editingIndex: Option<nat>
    var error: string

    /** The screen as it opens: level 1, `practitioner` selected, nothing generated. */
    constructor ()
      ensures prompt == "" && level == 1 && selectedUserTypes == ["practitioner"]
      ensures generated == [] && editingIndex == None && error == ""
    {
      prompt := "";
      level := 1;
      selectedUserTypes := ["practitioner"];
      generated := [];
      editingIndex := None;
      error := "";
    }

    /** `generateQuestions`: a refused request only sets the error; otherwise
        the list is replaced by the response's questions, or emptied with an
        error when the request fails. */
    method GenerateQuestions(apiKey: string, response: Result<seq<Doc>, string>)
      modifies this
      ensures prompt == old(prompt) && level == old(level) && selectedUserTypes == old(selectedUserTypes)
      ensures editingIndex == old(editingIndex)
      ensures GenerateGuard(prompt, apiKey).Some? ==>
                error == GenerateGuard(prompt, apiKey).value && generated == old(generated)
      ensures GenerateGuard(prompt, apiKey).None? && response.Ok? ==> error == "" && generated == response.value
      ensures GenerateGuard(prompt, apiKey).None? && response.Err? ==>
                error == "Failed to generate questions: " + response.error && generated == []
    {
      var refusal := GenerateGuard(prompt, apiKey);
      if refusal.Some? {
        error := refusal.value;
        return;
      }
      error := "";
      generated := [];
      match response
      case Ok(questions) =>
        generated := questions;
      case Err(message) =>
        error := "Failed to generate questions: " + message;
    }

    /** `handleUserTypeChange`. */
    method HandleUserTypeChange(t: string)
      modifies this
      ensures selectedUserTypes == ToggleUserType(old(selectedUserTypes), t)
      ensures prompt == old(prompt) && level == old(level) && generated == old(generated)
      ensures editingIndex == old(editingIndex) && error == old(error)
    {
      selectedUserTypes := ToggleUserType(selectedUserTypes, t);
    }

    /** `handleEditQuestion`: open the editor on one slot. */
    method HandleEditQuestion(index: nat)
      modifies this
      ensures editingIndex == Some(index)
      ensures prompt == old(prompt) && level == old(level) && selectedUserTypes == old(selectedUserTypes)
      ensures generated == old(generated) && error == old(error)
    {
      editingIndex := Some(index);
    }

    /** `handleSaveEdit`: put the edited question in its slot and close the editor. */
    method HandleSaveEdit(index: nat, updated: Doc)
      requires index < |generated|
      modifies this
      ensures generated == ReplaceAt(old(generated), index, updated) && editingIndex == None
      ensures prompt == old(prompt) && level == old(level) && selectedUserTypes == old(selectedUserTypes)
      ensures error == old(error)
    {
      generated := ReplaceAt(generated, index, updated);
      editingIndex := None;
    }

    /** `saveQuestion`: persist one question; only a successful save drops its
        slot from the list. */
    method SaveQuestion(db: Firestore?, question: Doc, index: nat, isAdmin: bool, user: Option<User>, now: int,
                        freshId: string, batchId: string, failAt: Option<nat>)
      returns (notice: SaveNotice)
      modifies this, db
      ensures db == null ==> notice == NoStore && generated == old(generated)
      ensures db != null ==> notice.Finished?
      ensures notice.Finished? && notice.r.Ok? ==> generated == RemoveAt(old(generated), index)
      ensures notice.Finished? && notice.r.Err? ==> generated == old(generated)
      ensures prompt == old(prompt) && level == old(level) && selectedUserTypes == old(selectedUserTypes)
      ensures editingIndex == old(editingIndex) && error == old(error)
    {
      if db == null {
        return NoStore;
      }
      var r := PersistGeneratedQuestions(db, isAdmin, user, [question], level, selectedUserTypes, now,
                                         [freshId], batchId, failAt);
      if r.Ok? {
        generated := RemoveAt(generated, index);
      }
      return Finished(r);
    }

    /** `saveAllQuestions`: persist the whole list; a successful save empties it. */
    method SaveAllQuestions(db: Firestore?, isAdmin: bool, user: Option<User>, now: int,
                            freshIds: seq<string>, batchId: string, failAt: Option<nat>)
      returns (notice: SaveNotice)
      requires |freshIds| == |generated|
      modifies this, db
      ensures db == null ==> notice == NoStore
      ensures db != null && old(generated) == [] ==> notice == NothingToSave
      ensures db != null && old(generated) != [] ==> notice.Finished?
      ensures notice.Finished? && notice.r.Ok? ==> generated == []
      ensures !(notice.Finished? && notice.r.Ok?) ==> generated == old(generated)
      ensures prompt == old(prompt) && level == old(level) && selectedUserTypes == old(selectedUserTypes)
      ensures editingIndex == old(editingIndex) && error == old(error)
    {
      if db == null {
        return NoStore;
      }
      if |generated| == 0 {
        return NothingToSave;
      }
      var r := PersistGeneratedQuestions(db, isAdmin, user, generated, level, selectedUserTypes, now,
                                         freshIds, batchId, failAt);
      if r.Ok? {
        generated := [];
      }
      return Finished(r);
    }
  }
}
