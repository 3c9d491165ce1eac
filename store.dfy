/** The document store the portal talks to: the live `quizQuestions`
    collection, the `stagingBatches` collection, and each staging batch's
    `questions` sub-collection. */
module Store {
  import opened Text
  import opened Values

  type Collection = map<string, Doc>

  /** One mutation queued in an atomic write group. */
  datatype Write =
    | Delete(id: string)              // `batch.delete(ref)`
    | Merge(id: string, fields: Doc)  // `batch.set(ref, fields, { merge: true })`
    | Put(id: string, fields: Doc)    // `batch.set(ref, fields)` on a fresh reference

  /** The id a write touches. */
  function WriteTarget(w: Write): string {
    match w
    case Delete(id) => id
    case Merge(id, _) => id
    case Put(id, _) => id
  }

  /** `doc(db, 'quizQuestions', id)`: a reference for a non-empty string id of
      one path segment; anything else makes the call throw. */
  function RefOf(id: Option<Value>): (r: Option<string>)
    ensures r.Some? ==> r.value != "" && '/' !in r.value && id == Some(Str(r.value))
    ensures r.Some? <==> id.Some? && id.value.Str? && id.value.s != "" && '/' !in id.value.s
  {
    match id
    case Some(Str(s)) => if s != "" && '/' !in s then Some(s) else None
    case _ => None
  }

  /** The effect of one write on a collection. Only the targeted document can
      change: a delete removes it, a merge overwrites the given fields and keeps
      the others (creating the document if needed), a put stores exactly the
      given fields. */
  function ApplyWrite(c: Collection, w: Write): (r: Collection)
    ensures forall id :: id != WriteTarget(w) ==> (id in r <==> id in c)
    ensures forall id :: id != WriteTarget(w) && id in c ==> r[id] == c[id]
    ensures w.Delete? ==> w.id !in r
    ensures w.Put? ==> w.id in r && r[w.id] == w.fields
    ensures w.Merge? ==> w.id in r && r[w.id].Keys == w.fields.Keys + (if w.id in c then c[w.id].Keys else {})
    ensures w.Merge? ==> forall f :: f in w.fields ==> r[w.id][f] == w.fields[f]
    ensures w.Merge? && w.id in c ==> forall f :: f in c[w.id] && f !in w.fields ==> r[w.id][f] == c[w.id][f]
  {
    match w
    case Delete(id) => c - {id}
    case Merge(id, fields) => c[id := (if id in c then c[id] else map[]) + fields]
    case Put(id, fields) => c[id := fields]
  }

  /** Applying a write group, in order, as one atomic commit. */
  function ApplyWrites(c: Collection, ws: seq<Write>): Collection
    decreases |ws|
  {
    if ws == [] then c else ApplyWrite(ApplyWrites(c, ws[..|ws| - 1]), ws[|ws| - 1])
  }

  /** Committing two groups one after the other is committing their concatenation. */
  lemma {:induction false} ApplyWritesAppend(c: Collection, a: seq<Write>, b: seq<Write>)
    ensures ApplyWrites(c, a + b) == ApplyWrites(ApplyWrites(c, a), b)
    decreases |b|
  {
    if b == [] {
      assert a + b == a;
    } else {
      assert (a + b)[..|a + b| - 1] == a + b[..|b| - 1];
      ApplyWritesAppend(c, a, b[..|b| - 1]);
    }
  }

  lemma ApplyWritesSingle(c: Collection, w: Write)
    ensures ApplyWrites(c, [w]) == ApplyWrite(c, w)
  {
    assert [w][..0] == [];
  }

  /** Documents that no write of a group targets are left exactly as they were. */
  lemma {:induction false} ApplyWritesUntouched(c: Collection, ws: seq<Write>, id: string)
    requires forall k :: 0 <= k < |ws| ==> WriteTarget(ws[k]) != id
    ensures (id in ApplyWrites(c, ws) <==> id in c)
    ensures id in c ==> ApplyWrites(c, ws)[id] == c[id]
    decreases |ws|
  {
    if ws != [] {
      ApplyWritesUntouched(c, ws[..|ws| - 1], id);
    }
  }

  /** The store. Sub-collections are kept in the order a full read returns them;
      a batch id with no entry has an empty sub-collection. */
  class Firestore {
    var quizQuestions: Collection
    var stagingBatches: Collection
    var batchQuestions: map<string, seq<Doc>>

    constructor (live: Collection, batches: Collection, items: map<string, seq<Doc>>)
      ensures quizQuestions == live && stagingBatches == batches && batchQuestions == items
    {
      quizQuestions := live;
      stagingBatches := batches;
      batchQuestions := items;
    }

    /** `getDocs` of a batch's `questions` sub-collection. */
    function ItemsOf(batchId: string): seq<Doc>
      reads this
    {
      if batchId in batchQuestions then batchQuestions[batchId] else []
    }
  }
}
