/** The content-management dashboard: it lists the live questions newest
    first, saves the single-question form either as an update of the question
    being edited or as a new question, and deletes a question after the user
    confirms. Every successful write is followed by a reload of the list. */
module Dashboard {
  import opened Text
  import opened Values
  import opened Store
  import opened QuestionForm

  // ---------------------------------------------------------------------------
  // The order of `orderBy('createdAt', 'desc')`

  /** Firestore's order between values of different types. */
  function TypeRank(v: Value): int {
    match v
    case Null => 0
    case Bool(_) => 1
    case Num(_) => 2
    case Time(_) => 3
    case InvalidDate => 3
    case Str(_) => 4
    case List(_) => 5
    case Obj(_) => 6
  }

  /** The order inside a type: booleans, numbers and timestamps by value. */
  function Magnitude(v: Value): int {
    match v
    case Bool(b) => if b then 1 else 0
    case Num(n) => n
    case Time(ms) => ms
    case _ => 0
  }

  /** `a < b` between strings: code point by code point, a proper prefix first. */
  predicate StrBelow(a: string, b: string)
    decreases |a|
  {
    if a == [] then b != []
    else if b == [] then false
    else a[0] < b[0] || (a[0] == b[0] && StrBelow(a[1..], b[1..]))
  }

  lemma {:induction false} StrBelowIrreflexive(a: string)
    ensures !StrBelow(a, a)
    decreases |a|
  {
    if a != [] {
      StrBelowIrreflexive(a[1..]);
    }
  }

  lemma {:induction false} StrBelowTransitive(a: string, b: string, c: string)
    requires StrBelow(a, b) && StrBelow(b, c)
    ensures StrBelow(a, c)
    decreases |a|
  {
    if a != [] && b != [] && c != [] && a[0] == b[0] == c[0] {
      StrBelowTransitive(a[1..], b[1..], c[1..]);
    }
  }

  /** Two different strings are always ordered one way or the other. */
  lemma {:induction false} StrBelowTotal(a: string, b: string)
    requires a != b
    ensures StrBelow(a, b) || StrBelow(b, a)
    decreases |a|
  {
    if a != [] && b != [] && a[0] == b[0] {
      assert a == [a[0]] + a[1..] && b == [b[0]] + b[1..];
      StrBelowTotal(a[1..], b[1..]);
    }
  }

  /** Where a document sorts: its `createdAt`'s type and value, then its id
      (Firestore breaks ties by document id, in the query's direction). */
  datatype Key = Key(rank: int, magnitude: int, id: string)

  /** `x` is listed before `y` in descending order. */
  predicate Above(x: Key, y: Key) {
    || x.rank > y.rank
    || (x.rank == y.rank && x.magnitude > y.magnitude)
    || (x.rank == y.rank && x.magnitude == y.magnitude && StrBelow(y.id, x.id))
  }

  lemma AboveIrreflexive(x: Key)
    ensures !Above(x, x)
  {
    StrBelowIrreflexive(x.id);
  }

  lemma AboveTransitive(x: Key, y: Key, z: Key)
    requires Above(x, y) && Above(y, z)
    ensures Above(x, z)
  {
    if x.rank == y.rank == z.rank && x.magnitude == y.magnitude == z.magnitude {
      StrBelowTransitive(z.id, y.id, x.id);
    }
  }

  lemma AboveAsymmetric(x: Key, y: Key)
    requires Above(x, y)
    ensures !Above(y, x)
  {
    if Above(y, x) {
      AboveTransitive(x, y, x);
      AboveIrreflexive(x);
    }
  }

  lemma AboveTotal(x: Key, y: Key)
    requires x.id != y.id
    ensures Above(x, y) || Above(y, x)
  {
    StrBelowTotal(x.id, y.id);
  }

  /** A document the query returns: one that has a `createdAt` field. */
  predicate Dated(c: Collection, id: string) {
    id in c && "createdAt" in c[id]
  }

  function DatedIds(c: Collection): (ids: set<string>)
    ensures forall id :: id in ids <==> Dated(c, id)
  {
    set id | id in c && "createdAt" in c[id]
  }

  function KeyOf(c: Collection, id: string): (k: Key)
    requires Dated(c, id)
    ensures k.id == id
  {
    Key(TypeRank(c[id]["createdAt"]), Magnitude(c[id]["createdAt"]), id)
  }

  predicate AllDated(c: Collection, ids: set<string>) {
    forall id :: id in ids ==> Dated(c, id)
  }

  /** `t` sorts before every other document of `ids`. */
  predicate IsTop(c: Collection, ids: set<string>, t: string)
    requires AllDated(c, ids)
  {
    t in ids && forall y :: y in ids && y != t ==> Above(KeyOf(c, t), KeyOf(c, y))
  }

  lemma {:induction false} TopExists(c: Collection, ids: set<string>) returns (t: string)
    requires AllDated(c, ids) && ids != {}
    ensures IsTop(c, ids, t)
    decreases |ids|
  {
    var x :| x in ids;
    if ids == {x} {
      t := x;
    } else {
      var rest := ids - {x};
      var u := TopExists(c, rest);
      AboveTotal(KeyOf(c, x), KeyOf(c, u));
      if Above(KeyOf(c, x), KeyOf(c, u)) {
        t := x;
        forall y | y in ids && y != x
          ensures Above(KeyOf(c, x), KeyOf(c, y))
        {
          if y != u {
            AboveTransitive(KeyOf(c, x), KeyOf(c, u), KeyOf(c, y));
          }
        }
      } else {
        t := u;
      }
    }
  }

  lemma HasTop(c: Collection, ids: set<string>)
    requires AllDated(c, ids) && ids != {}
    ensures exists t :: IsTop(c, ids, t)
  {
    var t := TopExists(c, ids);
  }

  lemma TopUnique(c: Collection, ids: set<string>)
    requires AllDated(c, ids)
    ensures forall a, b :: IsTop(c, ids, a) && IsTop(c, ids, b) ==> a == b
  {
    forall a, b | IsTop(c, ids, a) && IsTop(c, ids, b)
      ensures a == b
    {
      if a != b {
        AboveAsymmetric(KeyOf(c, a), KeyOf(c, b));
      }
    }
  }

  /** The ids the query returns, in its order: the document that sorts first,
      then the rest in the same order. */
  function Listing(c: Collection, ids: set<string>): (r: seq<string>)
    requires AllDated(c, ids)
    decreases |ids|
  {
    if ids == {} then []
    else
      HasTop(c, ids);
      TopUnique(c, ids);
      var top :| IsTop(c, ids, top);
      [top] + Listing(c, ids - {top})
  }

  predicate StrictlySorted(c: Collection, s: seq<string>)
    requires forall k :: 0 <= k < |s| ==> Dated(c, s[k])
  {
    forall i, j :: 0 <= i < j < |s| ==> Above(KeyOf(c, s[i]), KeyOf(c, s[j]))
  }

  lemma ListingUnfold(c: Collection, ids: set<string>)
    requires AllDated(c, ids) && ids != {}
    ensures var r := Listing(c, ids);
            r != [] && IsTop(c, ids, r[0]) && r[1..] == Listing(c, ids - {r[0]})
  {
  }

  /** A document that sorts before every element of a sorted list can head it. */
  lemma ConsSorted(c: Collection, top: string, tail: seq<string>)
    requires Dated(c, top) && forall k :: 0 <= k < |tail| ==> Dated(c, tail[k])
    requires forall k :: 0 <= k < |tail| ==> Above(KeyOf(c, top), KeyOf(c, tail[k]))
    requires StrictlySorted(c, tail)
    ensures forall k :: 0 <= k < |[top] + tail| ==> Dated(c, ([top] + tail)[k])
    ensures StrictlySorted(c, [top] + tail)
  {
    var r := [top] + tail;
    forall i, j | 0 <= i < j < |r|
      ensures Above(KeyOf(c, r[i]), KeyOf(c, r[j]))
    {
      assert r[j] == tail[j - 1];
      if i > 0 {
        assert r[i] == tail[i - 1];
      }
    }
  }

  /** The listing holds each document of `ids` once, each strictly before the
      ones that sort after it. */
  lemma {:induction false} ListingSorted(c: Collection, ids: set<string>)
    requires AllDated(c, ids)
    ensures var r := Listing(c, ids);
            && |r| == |ids|
            && (forall k :: 0 <= k < |r| ==> r[k] in ids)
            && (forall id :: id in ids ==> id in r)
            && StrictlySorted(c, r)
    decreases |ids|
  {
    if ids != {} {
      var r := Listing(c, ids);
      ListingUnfold(c, ids);
      var top := r[0];
      var rest := ids - {top};
      var tail := r[1..];
      ListingSorted(c, rest);
      assert r == [top] + tail;
      assert forall k :: 0 <= k < |tail| ==> tail[k] in rest;
      ConsSorted(c, top, tail);
      forall id | id in ids
        ensures id in r
      {
        if id != top {
          assert id in tail;
        }
      }
    }
  }

  /** The listing is the only strictly sorted arrangement of its documents. */
  lemma {:induction false} SortedArrangementIsListing(c: Collection, ids: set<string>, s: seq<string>)
    requires AllDated(c, ids)
    requires forall k :: 0 <= k < |s| ==> s[k] in ids
    requires forall id :: id in ids ==> id in s
    requires StrictlySorted(c, s)
    ensures s == Listing(c, ids)
    decreases |ids|
  {
    if ids == {} {
    } else {
      assert s != [] by {
        var x :| x in ids;
        assert x in s;
      }
      var head := s[0];
      assert IsTop(c, ids, head) by {
        forall y | y in ids && y != head
          ensures Above(KeyOf(c, head), KeyOf(c, y))
        {
          var k :| 0 <= k < |s| && s[k] == y;
        }
      }
      TopUnique(c, ids);
      var rest := ids - {head};
      var tail := s[1..];
      forall k | 0 <= k < |tail|
        ensures tail[k] in rest
      {
        assert tail[k] == s[k + 1];
        AboveIrreflexive(KeyOf(c, head));
      }
      forall id | id in rest
        ensures id in tail
      {
        var k :| 0 <= k < |s| && s[k] == id;
        assert k != 0;
        assert tail[k - 1] == id;
      }
      assert StrictlySorted(c, tail) by {
        forall i, j | 0 <= i < j < |tail|
          ensures Above(KeyOf(c, tail[i]), KeyOf(c, tail[j]))
        {
          assert tail[i] == s[i + 1] && tail[j] == s[j + 1];
        }
      }
      SortedArrangementIsListing(c, rest, tail);
      assert s == [head] + tail;
    }
  }

  /** `{ id: doc.id, ...doc.data() }`: the document's fields with its id under
      `id`, unless the document has an `id` field of its own. */
  function ListedQuestion(id: string, data: Doc): (q: Doc)
    ensures q.Keys == {"id"} + data.Keys
    ensures forall f :: f in data ==> q[f] == data[f]
    ensures "id" !in data ==> q["id"] == Str(id)
  {
    map["id" := Str(id)] + data
  }

  /** The documents of `ids`, each with its id, in the order of `ids`. */
  function ListedQuestions(c: Collection, ids: seq<string>): (qs: seq<Doc>)
    requires forall k :: 0 <= k < |ids| ==> ids[k] in c
    ensures |qs| == |ids|
  {
    seq(|ids|, k requires 0 <= k < |ids| => ListedQuestion(ids[k], c[ids[k]]))
  }

  /** The list `loadQuestions` shows for a given collection. */
  function LoadedQuestions(c: Collection): (qs: seq<Doc>)
  {
    var ids := Listing(c, DatedIds(c));
    ListingSorted(c, DatedIds(c));
    ListedQuestions(c, ids)
  }

  /** The loaded list shows every question that has a `createdAt`, once each,
      newest first: entry `k` is the document listed `k`-th, and the listing is
      strictly sorted by `createdAt` descending, ties by id. */
  lemma LoadedQuestionsAreNewestFirst(c: Collection)
    ensures var ids := Listing(c, DatedIds(c));
            && |LoadedQuestions(c)| == |ids| == |DatedIds(c)|
            && (forall k :: 0 <= k < |ids| ==> Dated(c, ids[k]) && LoadedQuestions(c)[k] == ListedQuestion(ids[k], c[ids[k]]))
            && (forall id :: Dated(c, id) ==> id in ids)
            && StrictlySorted(c, ids)
  {
    ListingSorted(c, DatedIds(c));
  }

  // ---------------------------------------------------------------------------
  // Saving and deleting

  /** The form's record as stored fields. */
  function SavedFields(s: Saved): Doc {
    map["questionText" := Str(s.questionText), "options" := StrList(s.options),
        "correctIndex" := Num(s.correctIndex), "difficulty" := Str(s.difficulty),
        "explanation" := Str(s.explanation)]
  }

  lemma SavedFieldsAreNotStamps(s: Saved)
    ensures "updatedAt" !in SavedFields(s) && "createdAt" !in SavedFields(s) && "id" !in SavedFields(s)
  {
  }

  /** `{ ...questionData, updatedAt: new Date() }`. */
  function DataToSave(s: Saved, now: int): Doc {
    SavedFields(s) + map["updatedAt" := Time(now)]
  }

  /** `dataToSave.createdAt = new Date()` for a new question. */
  function NewQuestion(s: Saved, now: int): Doc {
    DataToSave(s, now)["createdAt" := Time(now)]
  }

  /** Why a save or delete leaves the store unchanged. */
  datatype WriteFailure = NoStore | BadReference | NotFound | Rejected

  /** `handleSave`'s write: an update of the question being edited (which must
      exist), or a new question under the store's auto-id. `rejected` is the
      store refusing the write. */
  function SaveWrite(c: Collection, editing: Option<Doc>, s: Saved, now: int, freshId: string, rejected: bool)
    : (r: Result<Collection, WriteFailure>)
    ensures editing.None? ==> (r.Ok? <==> !rejected)
    ensures editing.None? && r.Ok? ==> r.value.Keys == c.Keys + {freshId} && r.value[freshId] == NewQuestion(s, now)
    ensures editing.Some? ==>
              (r.Ok? <==> !rejected && RefOf(Get(editing.value, "id")).Some? && RefOf(Get(editing.value, "id")).value in c)
    ensures editing.Some? && r.Ok? ==> r.value.Keys == c.Keys
    ensures editing.Some? && RefOf(Get(editing.value, "id")).None? ==> r == Err(BadReference)
    ensures editing.Some? && RefOf(Get(editing.value, "id")).Some? && RefOf(Get(editing.value, "id")).value !in c
            ==> r == Err(NotFound)
  {
    match editing
    case Some(q) =>
      (match RefOf(Get(q, "id"))
       case None => Err(BadReference)
       case Some(id) =>
         if id !in c then Err(NotFound)
         else if rejected then Err(Rejected)
         else Ok(c[id := c[id] + DataToSave(s, now)]))
    case None =>
      if rejected then Err(Rejected) else Ok(c[freshId := NewQuestion(s, now)])
  }

  /** Saving while editing touches only the edited question: the form's fields
      and `updatedAt` overwrite, every other field, `createdAt` included, is
      kept, and no question is added or removed. */
  lemma UpdateTouchesOnlyTarget(c: Collection, q: Doc, s: Saved, now: int, freshId: string, rejected: bool)
    requires SaveWrite(c, Some(q), s, now, freshId, rejected).Ok?
    ensures var r := SaveWrite(c, Some(q), s, now, freshId, rejected).value;
            var id := RefOf(Get(q, "id")).value;
            && !rejected && id in c
            && r.Keys == c.Keys
            && (forall other :: other in c && other != id ==> r[other] == c[other])
            && r[id].Keys == c[id].Keys + SavedFields(s).Keys + {"updatedAt"}
            && (forall f :: f in SavedFields(s) ==> r[id][f] == SavedFields(s)[f])
            && r[id]["updatedAt"] == Time(now)
            && (forall f :: f in c[id] && f !in SavedFields(s) && f != "updatedAt" ==> r[id][f] == c[id][f])
            && ("createdAt" in c[id] ==> r[id]["createdAt"] == c[id]["createdAt"])
  {
    SavedFieldsAreNotStamps(s);
    var id := RefOf(Get(q, "id")).value;
    StampedMerge(c[id], SavedFields(s), now);
  }

  /** Merging fields stamped with `updatedAt` into a document: the fields and
      the stamp overwrite, everything else is kept. */
  lemma StampedMerge(d: Doc, fields: Doc, now: int)
    requires "updatedAt" !in fields && "createdAt" !in fields
    ensures var r := d + (fields + map["updatedAt" := Time(now)]);
            && r.Keys == d.Keys + fields.Keys + {"updatedAt"}
            && (forall f :: f in fields ==> r[f] == fields[f])
            && r["updatedAt"] == Time(now)
            && (forall f :: f in d && f !in fields && f != "updatedAt" ==> r[f] == d[f])
            && ("createdAt" in d ==> r["createdAt"] == d["createdAt"])
  {
  }

  /** Saving a new question adds exactly one question, under the auto-id, with
      the form's fields and `createdAt` = `updatedAt` = now. */
  lemma CreateAddsOneQuestion(c: Collection, s: Saved, now: int, freshId: string, rejected: bool)
    requires freshId !in c
    requires SaveWrite(c, None, s, now, freshId, rejected).Ok?
    ensures var r := SaveWrite(c, None, s, now, freshId, rejected).value;
            && !rejected
            && r.Keys == c.Keys + {freshId}
            && (forall other :: other in c ==> r[other] == c[other])
            && r[freshId].Keys == SavedFields(s).Keys + {"updatedAt", "createdAt"}
            && (forall f :: f in SavedFields(s) ==> r[freshId][f] == SavedFields(s)[f])
            && r[freshId]["createdAt"] == r[freshId]["updatedAt"] == Time(now)
  {
    SavedFieldsAreNotStamps(s);
  }

  /** A saved question reopens in the form with the fields it was saved with;
      only an empty difficulty falls back to `'Medium'`. */
  lemma SavedQuestionReopens(c: Collection, editing: Option<Doc>, s: Saved, now: int, freshId: string, id: string)
    requires s.questionText != ""
    requires freshId !in c
    requires SaveWrite(c, editing, s, now, freshId, false).Ok?
    requires id == (if editing.Some? then RefOf(Get(editing.value, "id")).value else freshId)
    ensures var r := SaveWrite(c, editing, s, now, freshId, false).value;
            && id in r
            && LoadForm(Some(r[id])) == Form(s.questionText, s.options, s.correctIndex,
                                              if s.difficulty == "" then "Medium" else s.difficulty, s.explanation)
  {
    if editing.Some? {
      UpdateTouchesOnlyTarget(c, editing.value, s, now, freshId, false);
    } else {
      CreateAddsOneQuestion(c, s, now, freshId, false);
    }
    var r := SaveWrite(c, editing, s, now, freshId, false).value;
    FieldsReopen(r[id], s);
  }

  lemma FieldsReopen(d: Doc, s: Saved)
    requires s.questionText != ""
    requires forall f :: f in SavedFields(s) ==> f in d && d[f] == SavedFields(s)[f]
    ensures LoadForm(Some(d)) == Form(s.questionText, s.options, s.correctIndex,
                                      if s.difficulty == "" then "Medium" else s.difficulty, s.explanation)
  {
    assert "questionText" in SavedFields(s) && "options" in SavedFields(s) && "correctIndex" in SavedFields(s);
    assert "difficulty" in SavedFields(s) && "explanation" in SavedFields(s);
    StringsOfStrList(s.options);
  }

  /** `handleDelete`'s write once the user confirmed; a delete of a missing
      question succeeds and changes nothing. */
  function DeleteWrite(c: Collection, questionId: Option<Value>, rejected: bool): (r: Result<Collection, WriteFailure>)
    ensures r.Ok? <==> RefOf(questionId).Some? && !rejected
    ensures RefOf(questionId).None? ==> r == Err(BadReference)
    ensures r.Ok? ==> r.value.Keys == c.Keys - {RefOf(questionId).value}
  {
    match RefOf(questionId)
    case None => Err(BadReference)
    case Some(id) => if rejected then Err(Rejected) else Ok(c - {id})
  }

  /** A delete removes only the given question. */
  lemma DeleteRemovesOnlyTarget(c: Collection, questionId: Option<Value>, rejected: bool)
    requires DeleteWrite(c, questionId, rejected).Ok?
    ensures var r := DeleteWrite(c, questionId, rejected).value;
            var id := RefOf(questionId).value;
            && id !in r
            && r.Keys == c.Keys - {id}
            && (forall other :: other in r ==> r[other] == c[other])
  {
  }

  /** The `forEach` that pushes each snapshot document, with its id, onto the
      list in query order. */
  method PushAll(c: Collection, ids: seq<string>) returns (loaded: seq<Doc>)
    requires forall k :: 0 <= k < |ids| ==> ids[k] in c
    ensures loaded == ListedQuestions(c, ids)
  {
    loaded := [];
    var i := 0;
    while i < |ids|
      invariant i <= |ids|
      invariant |loaded| == i
      invariant forall k :: 0 <= k < i ==> loaded[k] == ListedQuestion(ids[k], c[ids[k]])
    {
      loaded := loaded + [ListedQuestion(ids[i], c[ids[i]])];
      i := i + 1;
    }
  }

  // ---------------------------------------------------------------------------
  // The screen

  class DashboardScreen {
    var questions: seq<Doc>
    var loading: bool
    var editing: Option<Doc>
    var showForm: bool

    constructor ()
      ensures questions == [] && loading && editing == None && !showForm
    {
      questions := [];
      loading := true;
      editing := None;
      showForm := false;
    }

    /** `loadQuestions`: the ordered read, each document pushed as
        `{ id, ...data }`; without a store the read throws and the list stays. */
    method LoadQuestions(db: Firestore?)
      modifies this
      ensures db == null ==> questions == old(questions)
      ensures db != null ==> questions == LoadedQuestions(db.quizQuestions)
      ensures !loading && editing == old(editing) && showForm == old(showForm)
    {
      if db == null {
        loading := false;
        return;
      }
      var c := db.quizQuestions;
      var ids := Listing(c, DatedIds(c));
      ListingSorted(c, DatedIds(c));
      questions := PushAll(c, ids);
      loading := false;
    }

    /** `handleEdit`: open the form on a listed question. */
    method HandleEdit(question: Doc)
      modifies this
      ensures editing == Some(question) && showForm
      ensures questions == old(questions) && loading == old(loading)
    {
      editing := Some(question);
      showForm := true;
    }

    /** `handleAddNew`: open an empty form. */
    method HandleAddNew()
      modifies this
      ensures editing == None && showForm
      ensures questions == old(questions) && loading == old(loading)
    {
      editing := None;
      showForm := true;
    }

    /** `handleSave`: write, then close the form and reload; on a failure the
        store and the form are left as they were. */
    method HandleSave(db: Firestore?, s: Saved, now: int, freshId: string, rejected: bool) returns (saved: bool)
      modifies this, db
      ensures db == null ==> !saved && editing == old(editing) && showForm == old(showForm)
      ensures db == null ==> questions == old(questions)
      ensures loading == (if saved then false else old(loading))
      ensures db != null ==>
                var w := SaveWrite(old(db.quizQuestions), old(editing), s, now, freshId, rejected);
                && saved == w.Ok?
                && db.quizQuestions == (if w.Ok? then w.value else old(db.quizQuestions))
                && db.stagingBatches == old(db.stagingBatches) && db.batchQuestions == old(db.batchQuestions)
                && (saved ==> editing == None && !showForm && questions == LoadedQuestions(db.quizQuestions))
                && (!saved ==> editing == old(editing) && showForm == old(showForm) && questions == old(questions))
    {
      if db == null {
        return false;
      }
      var w := SaveWrite(db.quizQuestions, editing, s, now, freshId, rejected);
      if w.Err? {
        return false;
      }
      db.quizQuestions := w.value;
      showForm := false;
      editing := None;
      LoadQuestions(db);
      return true;
    }

    /** `handleDelete`: ask first; delete, then reload. */
    method HandleDelete(db: Firestore?, questionId: Option<Value>, confirmed: bool, rejected: bool)
      returns (deleted: bool)
      modifies this, db
      ensures !confirmed || db == null ==> !deleted
      ensures db != null ==>
                var w := if confirmed then DeleteWrite(old(db.quizQuestions), questionId, rejected)
                         else Err(Rejected);
                && deleted == w.Ok?
                && db.quizQuestions == (if w.Ok? then w.value else old(db.quizQuestions))
                && db.stagingBatches == old(db.stagingBatches) && db.batchQuestions == old(db.batchQuestions)
                && (deleted ==> questions == LoadedQuestions(db.quizQuestions))
      ensures !deleted ==> questions == old(questions)
      ensures loading == (if deleted then false else old(loading))
      ensures editing == old(editing) && showForm == old(showForm)
    {
      if !confirmed || db == null {
        return false;
      }
      var w := DeleteWrite(db.quizQuestions, questionId, rejected);
      if w.Err? {
        return false;
      }
      db.quizQuestions := w.value;
      LoadQuestions(db);
      return true;
    }
  }
}
