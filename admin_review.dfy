/** The review screen's publication engine: approving a staging batch publishes
    its items into the live collection in atomic groups of at most 450 writes,
    rejecting stamps it, and a batch may be deleted 14 days after either. */
module AdminReview {
  import opened Text
  import opened Values
  import opened Store

  /** Writes per atomic group, under the store's limit of 500. */
  const CHUNK_SIZE: nat := 450

  /** The retention window before a reviewed batch may be deleted. */
  const FOURTEEN_DAYS_MS: int := 14 * 24 * 60 * 60 * 1000

  function Min(a: int, b: int): int { if a < b then a else b }

  // ---------------------------------------------------------------------------
  // Chunking

  /** The half-open range of item positions one commit covers. */
  datatype Range = Range(lo: nat, hi: nat)

  /** `ceil(n / 450)`: how many times the loop `for (i = 0; i < n; i += 450)` runs. */
  function ChunkCount(n: nat): nat {
    (n + CHUNK_SIZE - 1) / CHUNK_SIZE
  }

  /** `docs.slice(450 k, 450 k + 450)` as positions. */
  function Chunk(n: nat, k: nat): Range {
    Range(k * CHUNK_SIZE, Min(k * CHUNK_SIZE + CHUNK_SIZE, n))
  }

  /** The ranges of all commits, in order. */
  function ChunkBounds(n: nat): seq<Range> {
    seq(ChunkCount(n), k requires 0 <= k < ChunkCount(n) => Chunk(n, k))
  }

  lemma ChunkCountAt(n: nat, k: nat)
    ensures k * CHUNK_SIZE < n ==> k < ChunkCount(n)
    ensures k * CHUNK_SIZE < n <= k * CHUNK_SIZE + CHUNK_SIZE ==> ChunkCount(n) == k + 1
    ensures n <= k * CHUNK_SIZE ==> ChunkCount(n) <= k
  {
  }

  /** The commits partition `[0, n)`: they start at 0, end at `n`, are
      contiguous, and each holds between 1 and 450 items. */
  lemma ChunksPartition(n: nat)
    ensures |ChunkBounds(n)| == ChunkCount(n)
    ensures n == 0 <==> ChunkBounds(n) == []
    ensures n > 0 ==> ChunkBounds(n)[0].lo == 0 && ChunkBounds(n)[ChunkCount(n) - 1].hi == n
    ensures forall k :: 0 <= k < ChunkCount(n) ==>
              ChunkBounds(n)[k].lo < ChunkBounds(n)[k].hi <= ChunkBounds(n)[k].lo + CHUNK_SIZE
    ensures forall k :: 0 <= k < ChunkCount(n) - 1 ==> ChunkBounds(n)[k].hi == ChunkBounds(n)[k + 1].lo
  {
    forall k | 0 <= k < ChunkCount(n)
      ensures ChunkBounds(n)[k].lo < ChunkBounds(n)[k].hi
    {
      ChunkCountAt(n, k);
    }
    if n > 0 {
      ChunkCountAt(n, ChunkCount(n) - 1);
    }
  }

  /** Every item lands in exactly one commit: commit `i / 450`. */
  lemma ChunkOfItem(n: nat, i: nat)
    requires i < n
    ensures i / CHUNK_SIZE < ChunkCount(n)
    ensures Chunk(n, i / CHUNK_SIZE).lo <= i < Chunk(n, i / CHUNK_SIZE).hi
    ensures forall k :: 0 <= k < ChunkCount(n) && Chunk(n, k).lo <= i < Chunk(n, k).hi ==> k == i / CHUNK_SIZE
  {
    ChunkCountAt(n, i / CHUNK_SIZE);
  }

  // ---------------------------------------------------------------------------
  // What one staged item does to the live collection

  /** `q.__action || 'create'`. */
  function ActionOf(item: Doc): Value {
    FieldOr(item, "__action", Str("create"))
  }

  /** `q.__targetId` when `doc(db, 'quizQuestions', q.__targetId)` accepts it. */
  function TargetOf(item: Doc): Option<string> {
    RefOf(Get(item, "__targetId"))
  }

  /** The published `createdAt`: the item's own timestamp, else `new Date(value)`
      of a truthy value, else the approval time. */
  function CreatedAtOf(item: Doc, now: int): Value {
    if "createdAt" in item && item["createdAt"].Time? then item["createdAt"]
    else if FieldTruthy(item, "createdAt") then
      (match DateOf(item["createdAt"]) case Some(t) => Time(t) case None => InvalidDate)
    else Time(now)
  }

  /** The trimmed `imageUrl`, when the item's `imageUrl` is a string that is not blank. */
  function ImageUrlOf(item: Doc): Option<string> {
    if "imageUrl" in item && item["imageUrl"].Str? && Trim(item["imageUrl"].s) != "" then
      Some(Trim(item["imageUrl"].s))
    else None
  }

  /** The question fields copied from an item as they are. */
  const COPIED_FIELDS: set<string> := {"questionText", "options", "correctIndex", "level", "usertype"}

  /** The fields every published payload carries. */
  const STAMPED_FIELDS: set<string> := {"explanation", "createdAt", "updatedAt", "publishedBatchId", "publishedAt"}

  /** The question fields an item carries over unchanged. */
  function CopiedFields(item: Doc): (c: Doc)
    ensures c.Keys == COPIED_FIELDS * item.Keys
    ensures forall f :: f in c ==> c[f] == item[f]
  {
    map f | f in COPIED_FIELDS * item.Keys :: item[f]
  }

  /** The fields the approval itself writes. */
  function Stamps(item: Doc, batchId: string, now: int): Doc {
    map["explanation" := FieldOr(item, "explanation", Str("")),
        "createdAt" := CreatedAtOf(item, now),
        "updatedAt" := Time(now),
        "publishedBatchId" := Str(batchId),
        "publishedAt" := Time(now)]
  }

  function ImageField(item: Doc): Doc {
    match ImageUrlOf(item)
    case Some(url) => map["imageUrl" := Str(url)]
    case None => map[]
  }

  /** The document an approved item publishes. */
  function PublishedPayload(item: Doc, batchId: string, now: int): (p: Doc)
    ensures "publishedBatchId" in p && p["publishedBatchId"] == Str(batchId)
    ensures "publishedAt" in p && p["publishedAt"] == Time(now)
    ensures "updatedAt" in p && p["updatedAt"] == Time(now)
  {
    CopiedFields(item) + Stamps(item, batchId, now) + ImageField(item)
  }

  /** The published document holds the item's question fields as they are, a
      trimmed non-blank image URL, the explanation or `''`, the item's creation
      time or the approval time, and the approval stamps; staging-only fields
      such as `__action`, `__targetId`, `published` and `id` never reach it. */
  lemma PublishedPayloadShape(item: Doc, batchId: string, now: int)
    ensures var p := PublishedPayload(item, batchId, now);
            && p.Keys == (COPIED_FIELDS * item.Keys) + STAMPED_FIELDS
                         + (if ImageUrlOf(item).Some? then {"imageUrl"} else {})
            && (forall f :: f in COPIED_FIELDS && f in item ==> p[f] == item[f])
            && p["explanation"] == (if FieldTruthy(item, "explanation") then item["explanation"] else Str(""))
            && p["createdAt"] == CreatedAtOf(item, now)
            && p["updatedAt"] == Time(now) && p["publishedAt"] == Time(now)
            && p["publishedBatchId"] == Str(batchId)
            && (ImageUrlOf(item).Some? ==> p["imageUrl"] == Str(ImageUrlOf(item).value))
            && "__action" !in p && "__targetId" !in p && "published" !in p && "id" !in p
  {
    PayloadKeys(item, batchId, now);
    PayloadCopies(item, batchId, now);
    PayloadStamps(item, batchId, now);
    PayloadImage(item, batchId, now);
  }

  lemma PayloadKeys(item: Doc, batchId: string, now: int)
    ensures PublishedPayload(item, batchId, now).Keys
            == (COPIED_FIELDS * item.Keys) + STAMPED_FIELDS + (if ImageUrlOf(item).Some? then {"imageUrl"} else {})
  {
    StampsKeys(item, batchId, now);
    ImageFieldKeys(item);
    UnionOf3(CopiedFields(item), Stamps(item, batchId, now), ImageField(item));
  }

  lemma PayloadCopies(item: Doc, batchId: string, now: int)
    ensures forall f :: f in COPIED_FIELDS && f in item ==> PublishedPayload(item, batchId, now)[f] == item[f]
  {
    var c := CopiedFields(item);
    var st := Stamps(item, batchId, now);
    var im := ImageField(item);
    StampsKeys(item, batchId, now);
    ImageFieldKeys(item);
    UnionOf3(c, st, im);
    forall f | f in COPIED_FIELDS && f in item
      ensures PublishedPayload(item, batchId, now)[f] == item[f]
    {
      CopiedNotStamped(f);
    }
  }

  lemma CopiedNotStamped(f: string)
    requires f in COPIED_FIELDS
    ensures f !in STAMPED_FIELDS && f != "imageUrl"
  {
  }

  lemma StampedNotImage(f: string)
    requires f in STAMPED_FIELDS
    ensures f != "imageUrl"
  {
  }

  lemma PayloadStamps(item: Doc, batchId: string, now: int)
    ensures var p := PublishedPayload(item, batchId, now);
            && p["explanation"] == FieldOr(item, "explanation", Str(""))
            && p["createdAt"] == CreatedAtOf(item, now)
            && p["updatedAt"] == Time(now) && p["publishedAt"] == Time(now)
            && p["publishedBatchId"] == Str(batchId)
  {
    var c := CopiedFields(item);
    var st := Stamps(item, batchId, now);
    var im := ImageField(item);
    StampsKeys(item, batchId, now);
    ImageFieldKeys(item);
    UnionOf3(c, st, im);
    StampedNotImage("explanation");
    StampedNotImage("createdAt");
    StampedNotImage("updatedAt");
    StampedNotImage("publishedAt");
    StampedNotImage("publishedBatchId");
  }

  lemma PayloadImage(item: Doc, batchId: string, now: int)
    ensures var p := PublishedPayload(item, batchId, now);
            && (ImageUrlOf(item).Some? ==> "imageUrl" in p && p["imageUrl"] == Str(ImageUrlOf(item).value))
            && "__action" !in p && "__targetId" !in p && "published" !in p && "id" !in p
  {
    var im := ImageField(item);
    StampsKeys(item, batchId, now);
    ImageFieldKeys(item);
    UnionOf3(CopiedFields(item), Stamps(item, batchId, now), im);
    assert ImageUrlOf(item).Some? ==> im["imageUrl"] == Str(ImageUrlOf(item).value);
    NotAPublishedField("__action");
    NotAPublishedField("__targetId");
    NotAPublishedField("published");
    NotAPublishedField("id");
  }

  lemma NotAPublishedField(f: string)
    requires f in {"__action", "__targetId", "published", "id"}
    ensures f !in COPIED_FIELDS && f !in STAMPED_FIELDS && f != "imageUrl"
  {
  }

  lemma StampsKeys(item: Doc, batchId: string, now: int)
    ensures Stamps(item, batchId, now).Keys == STAMPED_FIELDS
  {
  }

  lemma ImageFieldKeys(item: Doc)
    ensures ImageField(item).Keys == (if ImageUrlOf(item).Some? then {"imageUrl"} else {})
  {
  }

  /** Lookups in a union of three documents: the rightmost one holding the field wins. */
  lemma UnionOf3(a: Doc, b: Doc, c: Doc)
    ensures (a + b + c).Keys == a.Keys + b.Keys + c.Keys
    ensures forall f :: f in c ==> (a + b + c)[f] == c[f]
    ensures forall f :: f in b && f !in c ==> (a + b + c)[f] == b[f]
    ensures forall f :: f in a && f !in b && f !in c ==> (a + b + c)[f] == a[f]
  {
  }

  /** Where an item goes: a targeted delete, a targeted update, or a new
      record; or nowhere, when the target reference cannot be built and
      `doc()` throws. */
  datatype Dispatch = DeleteTarget(t: string) | UpdateTarget(t: string) | Create | BadTarget

  function DispatchOf(item: Doc): Dispatch {
    var action := ActionOf(item);
    var target := TargetOf(item);
    if (action == Str("delete") || action == Str("update")) && FieldTruthy(item, "__targetId") then
      if target.None? then BadTarget
      else if action == Str("delete") then DeleteTarget(target.value)
      else UpdateTarget(target.value)
    else Create
  }

  /** An item without `__action` is a create, and so is a `delete` or `update`
      whose `__targetId` is falsy. A `delete` or `update` whose `__targetId` is
      truthy but is no string, or holds `/`, makes `doc()` throw. */
  lemma DispatchDefaults(item: Doc)
    ensures !FieldTruthy(item, "__action") ==> DispatchOf(item) == Create
    ensures !FieldTruthy(item, "__targetId") ==> DispatchOf(item) == Create
    ensures DispatchOf(item).DeleteTarget? <==> ActionOf(item) == Str("delete") && TargetOf(item).Some?
    ensures DispatchOf(item).UpdateTarget? <==> ActionOf(item) == Str("update") && TargetOf(item).Some?
    ensures DispatchOf(item).BadTarget? <==> (ActionOf(item) == Str("delete") || ActionOf(item) == Str("update"))
                                             && FieldTruthy(item, "__targetId") && TargetOf(item).None?
    ensures DispatchOf(item).DeleteTarget? || DispatchOf(item).UpdateTarget? ==> Some(DispatchOf(item).t) == TargetOf(item)
  {
  }

  /** A numeric target or one holding `/` makes a `delete` or `update` throw;
      under `create` the target is never looked at. */
  lemma MalformedTargetExamples()
    ensures DispatchOf(map["__action" := Str("delete"), "__targetId" := Num(5)]) == BadTarget
    ensures DispatchOf(map["__action" := Str("update"), "__targetId" := Str("a/b")]) == BadTarget
    ensures DispatchOf(map["__action" := Str("delete"), "__targetId" := Str("q1")]) == DeleteTarget("q1")
    ensures DispatchOf(map["__action" := Str("delete"), "__targetId" := Str("")]) == Create
    ensures DispatchOf(map["__targetId" := Num(5)]) == Create
  {
    assert '/' in "a/b";
  }

  /** The write an item is dispatched to, given the payload it publishes and
      the auto-id a new reference would get. */
  function PlanWrite(item: Doc, payload: Doc, freshId: string): Write
    requires !DispatchOf(item).BadTarget?
  {
    match DispatchOf(item)
    case DeleteTarget(t) => Delete(t)
    case UpdateTarget(t) => Merge(t, payload)
    case Create => Put(freshId, payload)
  }

  /** The one id an item's write touches: its target, or the fresh id for a create. */
  function DispatchTarget(item: Doc, freshId: string): string
    requires !DispatchOf(item).BadTarget?
  {
    match DispatchOf(item)
    case Create => freshId
    case DeleteTarget(t) => t
    case UpdateTarget(t) => t
  }

  lemma PlanWriteTarget(item: Doc, payload: Doc, freshId: string)
    requires !DispatchOf(item).BadTarget?
    ensures WriteTarget(PlanWrite(item, payload, freshId)) == DispatchTarget(item, freshId)
  {
  }

  lemma InsertFresh(live: Collection, id: string, d: Doc)
    requires id !in live
    ensures var r := live[id := d];
            && r.Keys == live.Keys + {id}
            && |r| == |live| + 1
            && forall x :: x in live ==> r[x] == live[x]
  {
    var r := live[id := d];
    assert r.Keys == live.Keys + {id};
    assert |r.Keys| == |live.Keys| + 1;
  }

  /** A targeted delete removes its target and nothing else. */
  lemma DeleteEffect(live: Collection, item: Doc, freshId: string, batchId: string, now: int)
    requires DispatchOf(item).DeleteTarget?
    ensures ApplyWrite(live, PlanWrite(item, PublishedPayload(item, batchId, now), freshId))
            == live - {DispatchOf(item).t}
  {
  }

  /** A targeted update merges the payload into its target (creating it if it
      is gone) and keeps the target's other fields and every other record. */
  lemma UpdateEffect(live: Collection, item: Doc, freshId: string, batchId: string, now: int)
    requires DispatchOf(item).UpdateTarget?
    ensures var r := ApplyWrite(live, PlanWrite(item, PublishedPayload(item, batchId, now), freshId));
            var t := DispatchOf(item).t;
            && r.Keys == live.Keys + {t}
            && r[t] == (if t in live then live[t] else map[]) + PublishedPayload(item, batchId, now)
            && forall id :: id in live && id != t ==> r[id] == live[id]
  {
    var p := PublishedPayload(item, batchId, now);
    assert PlanWrite(item, p, freshId) == Merge(DispatchOf(item).t, p);
  }

  /** A create inserts exactly one new record, under the fresh id. */
  lemma CreateEffect(live: Collection, item: Doc, freshId: string, batchId: string, now: int)
    requires freshId !in live
    requires DispatchOf(item).Create?
    ensures var r := ApplyWrite(live, PlanWrite(item, PublishedPayload(item, batchId, now), freshId));
            && r.Keys == live.Keys + {freshId}
            && |r| == |live| + 1
            && r[freshId] == PublishedPayload(item, batchId, now)
            && forall id :: id in live ==> r[id] == live[id]
  {
    var p := PublishedPayload(item, batchId, now);
    assert PlanWrite(item, p, freshId) == Put(freshId, p);
    InsertFresh(live, freshId, p);
  }

  /** The payloads of a list of items, in order. */
  function Payloads(items: seq<Doc>, batchId: string, now: int): (ps: seq<Doc>)
    ensures |ps| == |items|
  {
    seq(|items|, k requires 0 <= k < |items| => PublishedPayload(items[k], batchId, now))
  }

  /** A batch's items, their payloads and their auto-ids, aligned. */
  predicate Aligned(items: seq<Doc>, payloads: seq<Doc>, ids: seq<string>) {
    |payloads| == |items| && |ids| == |items|
  }

  /** Every item of `lo .. hi` has a write: none of them makes `doc()` throw. */
  predicate Buildable(items: seq<Doc>, lo: nat, hi: nat)
    requires lo <= hi <= |items|
  {
    forall k :: lo <= k < hi ==> !DispatchOf(items[k]).BadTarget?
  }

  lemma BuildableJoin(items: seq<Doc>, lo: nat, mid: nat, hi: nat)
    requires lo <= mid <= hi <= |items| && Buildable(items, lo, mid) && Buildable(items, mid, hi)
    ensures Buildable(items, lo, hi)
  {
  }

  /** The first item from `from` on whose reference cannot be built. */
  function FirstBadTarget(items: seq<Doc>, from: nat): (r: Option<nat>)
    requires from <= |items|
    ensures r.None? <==> Buildable(items, from, |items|)
    ensures r.Some? ==> from <= r.value < |items| && DispatchOf(items[r.value]).BadTarget?
                        && Buildable(items, from, r.value)
    decreases |items| - from
  {
    if from == |items| then None
    else if DispatchOf(items[from]).BadTarget? then Some(from)
    else FirstBadTarget(items, from + 1)
  }

  /** The writes of items `lo .. hi`, in order. */
  function PlanWrites(items: seq<Doc>, payloads: seq<Doc>, ids: seq<string>, lo: nat, hi: nat): (ws: seq<Write>)
    requires Aligned(items, payloads, ids) && lo <= hi <= |items| && Buildable(items, lo, hi)
    ensures |ws| == hi - lo
  {
    seq(hi - lo, k requires 0 <= k < hi - lo => PlanWrite(items[lo + k], payloads[lo + k], ids[lo + k]))
  }

  lemma PlanWritesSplit(items: seq<Doc>, payloads: seq<Doc>, ids: seq<string>, lo: nat, mid: nat, hi: nat)
    requires Aligned(items, payloads, ids) && lo <= mid <= hi <= |items| && Buildable(items, lo, hi)
    ensures PlanWrites(items, payloads, ids, lo, hi)
            == PlanWrites(items, payloads, ids, lo, mid) + PlanWrites(items, payloads, ids, mid, hi)
  {
  }

  /** Committing the writes of `lo .. hi` after those of `0 .. lo` commits those of `0 .. hi`. */
  lemma CommitStep(live: Collection, items: seq<Doc>, payloads: seq<Doc>, ids: seq<string>, lo: nat, hi: nat)
    requires Aligned(items, payloads, ids) && lo <= hi <= |items| && Buildable(items, 0, hi)
    ensures ApplyWrites(ApplyWrites(live, PlanWrites(items, payloads, ids, 0, lo)), PlanWrites(items, payloads, ids, lo, hi))
            == ApplyWrites(live, PlanWrites(items, payloads, ids, 0, hi))
  {
    PlanWritesSplit(items, payloads, ids, 0, lo, hi);
    ApplyWritesAppend(live, PlanWrites(items, payloads, ids, 0, lo), PlanWrites(items, payloads, ids, lo, hi));
  }

  /** The auto-ids handed to an approval: one per item, pairwise distinct, unused
      in the live collection and never an item's `__targetId`. */
  ghost predicate FreshIds(ids: seq<string>, live: Collection, items: seq<Doc>) {
    && |ids| == |items|
    && (forall i, j :: 0 <= i < j < |ids| ==> ids[i] != ids[j])
    && (forall i :: 0 <= i < |ids| ==> ids[i] !in live)
    && (forall i, j :: 0 <= i < |ids| && 0 <= j < |items| ==> TargetOf(items[j]) != Some(ids[i]))
  }

  /** The whole approval is: the writes before item `k`, then item `k`'s write,
      then the writes after it. */
  lemma WritesAround(live: Collection, items: seq<Doc>, payloads: seq<Doc>, ids: seq<string>, k: nat)
    requires Aligned(items, payloads, ids) && k < |items| && Buildable(items, 0, |items|)
    ensures ApplyWrites(live, PlanWrites(items, payloads, ids, 0, |items|))
            == ApplyWrites(ApplyWrite(ApplyWrites(live, PlanWrites(items, payloads, ids, 0, k)),
                                      PlanWrite(items[k], payloads[k], ids[k])),
                           PlanWrites(items, payloads, ids, k + 1, |items|))
  {
    CommitStep(live, items, payloads, ids, k + 1, |items|);
    CommitStep(live, items, payloads, ids, k, k + 1);
    var at := PlanWrites(items, payloads, ids, k, k + 1);
    assert at == [PlanWrite(items[k], payloads[k], ids[k])];
    ApplyWritesSingle(ApplyWrites(live, PlanWrites(items, payloads, ids, 0, k)), at[0]);
  }

  /** The writes from item `lo` on leave alone an id that none of those items
      targets and that is none of their fresh ids. */
  lemma LaterWritesAvoid(items: seq<Doc>, payloads: seq<Doc>, ids: seq<string>, lo: nat, id: string)
    requires Aligned(items, payloads, ids) && lo <= |items| && Buildable(items, lo, |items|)
    requires forall j :: lo <= j < |items| ==> DispatchTarget(items[j], ids[j]) != id
    ensures forall j :: 0 <= j < |items| - lo ==> WriteTarget(PlanWrites(items, payloads, ids, lo, |items|)[j]) != id
  {
    var after := PlanWrites(items, payloads, ids, lo, |items|);
    forall j | 0 <= j < |after|
      ensures WriteTarget(after[j]) != id
    {
      PlanWriteTarget(items[lo + j], payloads[lo + j], ids[lo + j]);
    }
  }

  /** Item `k`'s write decides the fate of an id that no later item touches. */
  lemma LastWriteWins(live: Collection, items: seq<Doc>, payloads: seq<Doc>, ids: seq<string>, k: nat, id: string)
    requires Aligned(items, payloads, ids) && k < |items| && Buildable(items, 0, |items|)
    requires forall j :: k < j < |items| ==> DispatchTarget(items[j], ids[j]) != id
    ensures var mid := ApplyWrite(ApplyWrites(live, PlanWrites(items, payloads, ids, 0, k)),
                                  PlanWrite(items[k], payloads[k], ids[k]));
            var r := ApplyWrites(live, PlanWrites(items, payloads, ids, 0, |items|));
            (id in r <==> id in mid) && (id in mid ==> r[id] == mid[id])
  {
    WritesAround(live, items, payloads, ids, k);
    LaterWritesAvoid(items, payloads, ids, k + 1, id);
    var mid := ApplyWrite(ApplyWrites(live, PlanWrites(items, payloads, ids, 0, k)),
                          PlanWrite(items[k], payloads[k], ids[k]));
    ApplyWritesUntouched(mid, PlanWrites(items, payloads, ids, k + 1, |items|), id);
  }

  /** A created item survives a full approval (one in which every item has a
      write): after all writes, its fresh id
      holds exactly its published payload. */
  lemma CreatedItemIsPublished(live: Collection, items: seq<Doc>, ids: seq<string>,
                               batchId: string, now: int, k: nat)
    requires FreshIds(ids, live, items) && Buildable(items, 0, |items|)
    requires k < |items|
    requires DispatchOf(items[k]).Create?
    ensures var r := ApplyWrites(live, PlanWrites(items, Payloads(items, batchId, now), ids, 0, |items|));
            ids[k] in r && r[ids[k]] == PublishedPayload(items[k], batchId, now)
  {
    var payloads := Payloads(items, batchId, now);
    forall j | k < j < |items|
      ensures DispatchTarget(items[j], ids[j]) != ids[k]
    {
      DispatchDefaults(items[j]);
    }
    LastWriteWins(live, items, payloads, ids, k, ids[k]);
    assert PlanWrite(items[k], payloads[k], ids[k]) == Put(ids[k], payloads[k]);
  }

  /** In a full approval a targeted delete wins unless a later item of the
      batch targets the same id. */
  lemma DeletedTargetIsGone(live: Collection, items: seq<Doc>, ids: seq<string>,
                            batchId: string, now: int, k: nat)
    requires FreshIds(ids, live, items) && Buildable(items, 0, |items|)
    requires k < |items|
    requires DispatchOf(items[k]).DeleteTarget?
    requires forall j :: k < j < |items| ==> TargetOf(items[j]) != TargetOf(items[k])
    ensures DispatchOf(items[k]).t !in ApplyWrites(live, PlanWrites(items, Payloads(items, batchId, now), ids, 0, |items|))
  {
    var payloads := Payloads(items, batchId, now);
    var t := DispatchOf(items[k]).t;
    DispatchDefaults(items[k]);
    forall j | k < j < |items|
      ensures DispatchTarget(items[j], ids[j]) != t
    {
      DispatchDefaults(items[j]);
    }
    LastWriteWins(live, items, payloads, ids, k, t);
    assert PlanWrite(items[k], payloads[k], ids[k]) == Delete(t);
  }

  // ---------------------------------------------------------------------------
  // Approve and reject

  datatype ApproveResult =
    | Cancelled               // the confirmation dialog was dismissed
    | Approved
    | CommitFailed(chunk: nat) // this commit was refused; earlier ones stand
    | BatchMissing            // every commit succeeded, but the batch document is gone

  /** The fields stamped on an approved batch. */
  function ApprovalStamp(now: int, reviewer: Option<User>): Doc {
    map["status" := Str("approved"), "approvedAt" := Time(now),
        "approvedByUid" := UidOrNull(reviewer), "approvedByEmail" := EmailOrNull(reviewer)]
  }

  /** The fields stamped on a rejected batch; a dismissed prompt gives an empty note. */
  function RejectionStamp(now: int, reviewer: Option<User>, note: Option<string>): Doc {
    map["status" := Str("rejected"), "rejectedAt" := Time(now),
        "rejectedByUid" := UidOrNull(reviewer), "rejectedByEmail" := EmailOrNull(reviewer),
        "notes" := Str(match note case Some(s) => s case None => "")]
  }

  /** How many commits succeed when commit number `failing` (if any) is refused. */
  function CommittedChunks(n: nat, failing: Option<nat>): nat {
    match failing
    case Some(f) => if f < ChunkCount(n) then f else ChunkCount(n)
    case None => ChunkCount(n)
  }

  /** The commit that does not go through: the first one holding an item whose
      reference throws, or the one the store refuses, whichever comes first. */
  function RefusedCommit(items: seq<Doc>, failing: Option<nat>): (r: Option<nat>)
    ensures Buildable(items, 0, |items|) ==> r == failing
    ensures failing.Some? ==> r.Some? && r.value <= failing.value
    ensures forall b :: 0 <= b < |items| && DispatchOf(items[b]).BadTarget? ==> r.Some? && r.value <= b / CHUNK_SIZE
    ensures r.Some? && r != failing ==>
              exists b :: 0 <= b < |items| && DispatchOf(items[b]).BadTarget? && r.value == b / CHUNK_SIZE
  {
    match FirstBadTarget(items, 0)
    case None => failing
    case Some(b) =>
      Some(match failing case Some(f) => Min(f, b / CHUNK_SIZE) case None => b / CHUNK_SIZE)
  }

  /** The commit at `done` is the refused one when every earlier item has a
      write, the store refuses no earlier commit, and either the store refuses
      this one or one of its items throws. */
  lemma RefusedAt(docs: seq<Doc>, failing: Option<nat>, done: nat)
    requires done * CHUNK_SIZE < |docs|
    requires Buildable(docs, 0, done * CHUNK_SIZE)
    requires failing.Some? ==> failing.value >= done
    requires failing == Some(done) || !Buildable(docs, done * CHUNK_SIZE, Min(done * CHUNK_SIZE + CHUNK_SIZE, |docs|))
    ensures CommittedChunks(|docs|, RefusedCommit(docs, failing)) == done
  {
    ChunkCountAt(|docs|, done);
    var first := FirstBadTarget(docs, 0);
    if first.Some? {
      var b := first.value;
      assert b >= done * CHUNK_SIZE;
      assert b / CHUNK_SIZE >= done;
      if failing != Some(done) {
        var c :| done * CHUNK_SIZE <= c < Min(done * CHUNK_SIZE + CHUNK_SIZE, |docs|) && DispatchOf(docs[c]).BadTarget?;
        assert b <= c;
        assert b / CHUNK_SIZE == done;
      }
    }
  }

  /** An item whose reference throws keeps the approval from finishing: its
      commit and every later one are not made, and the batch is not stamped. */
  lemma BadTargetBlocksApproval(items: seq<Doc>, failing: Option<nat>, b: nat)
    requires b < |items| && DispatchOf(items[b]).BadTarget?
    ensures CommittedChunks(|items|, RefusedCommit(items, failing)) <= b / CHUNK_SIZE
    ensures CommittedChunks(|items|, RefusedCommit(items, failing)) < ChunkCount(|items|)
  {
    ChunkOfItem(|items|, b);
  }

  /** The write group of one commit: one write per item of `docs[lo..hi]`, or
      `None` when building an item's reference throws. */
  method ChunkWrites(docs: seq<Doc>, payloads: seq<Doc>, freshIds: seq<string>, lo: nat, hi: nat)
    returns (writes: Option<seq<Write>>)
    requires Aligned(docs, payloads, freshIds) && lo <= hi <= |docs|
    ensures writes.None? <==> !Buildable(docs, lo, hi)
    ensures writes.Some? ==> Buildable(docs, lo, hi) && writes.value == PlanWrites(docs, payloads, freshIds, lo, hi)
  {
    var chunk := docs[lo..hi];
    var group := [];
    var j := 0;
    while j < |chunk|
      invariant 0 <= j <= |chunk|
      invariant Buildable(docs, lo, lo + j)
      invariant group == PlanWrites(docs, payloads, freshIds, lo, lo + j)
    {
      if DispatchOf(chunk[j]).BadTarget? {
        return None;
      }
      group := group + [PlanWrite(chunk[j], payloads[lo + j], freshIds[lo + j])];
      j := j + 1;
    }
    return Some(group);
  }

  /** The publishing loop of `approveBatch`: build and commit one group of at
      most 450 writes after another, stopping at the first group whose building
      throws or whose commit is refused. Returns how many groups were committed. */
  method CommitChunks(db: Firestore, docs: seq<Doc>, payloads: seq<Doc>, freshIds: seq<string>,
                      failingCommit: Option<nat>)
    returns (done: nat)
    requires Aligned(docs, payloads, freshIds)
    modifies db
    ensures db.stagingBatches == old(db.stagingBatches) && db.batchQuestions == old(db.batchQuestions)
    ensures done == CommittedChunks(|docs|, RefusedCommit(docs, failingCommit))
    ensures Buildable(docs, 0, Min(done * CHUNK_SIZE, |docs|))
    ensures db.quizQuestions == ApplyWrites(old(db.quizQuestions),
                                            PlanWrites(docs, payloads, freshIds, 0, Min(done * CHUNK_SIZE, |docs|)))
  {
    done := 0;
    ghost var live0 := db.quizQuestions;
    var i := 0;
    while i < |docs|
      invariant i == done * CHUNK_SIZE
      invariant done == 0 || (done - 1) * CHUNK_SIZE < |docs|
      invariant failingCommit.Some? ==> failingCommit.value >= done
      invariant Buildable(docs, 0, Min(i, |docs|))
      invariant db.quizQuestions == ApplyWrites(live0, PlanWrites(docs, payloads, freshIds, 0, Min(i, |docs|)))
      invariant db.stagingBatches == old(db.stagingBatches) && db.batchQuestions == old(db.batchQuestions)
      decreases |docs| - i
    {
      var hi := Min(i + CHUNK_SIZE, |docs|);
      var writes := ChunkWrites(docs, payloads, freshIds, i, hi);
      assert Min(i, |docs|) == i;
      if writes.None? {
        RefusedAt(docs, failingCommit, done);
        return;
      }
      if failingCommit == Some(done) {
        RefusedAt(docs, failingCommit, done);
        return;
      }
      assert failingCommit.Some? ==> failingCommit.value > done;
      BuildableJoin(docs, 0, i, hi);
      CommitStep(live0, docs, payloads, freshIds, i, hi);
      db.quizQuestions := ApplyWrites(db.quizQuestions, writes.value);
      assert db.quizQuestions == ApplyWrites(live0, PlanWrites(docs, payloads, freshIds, 0, hi));
      done := done + 1;
      i := i + CHUNK_SIZE;
      assert Min(i, |docs|) == hi;
    }
    assert Min(i, |docs|) == |docs|;
    if done > 0 {
      ChunkCountAt(|docs|, done - 1);
    }
    ChunkCountAt(|docs|, done);
  }

  /** `approveBatch`: load the batch's items, commit them in groups of 450, and
      only when every group has committed stamp the batch approved. There is no
      check of the batch's current status. `failingCommit` is the commit the
      store refuses, if any; a group holding an item whose target reference
      throws fails the same way, before its commit (`RefusedCommit`).
      `freshIds` are the auto-ids of new references. Each
      item's payload depends only on the item, the batch and the time, so the
      model computes them up front. */
  method ApproveBatch(db: Firestore, batchId: string, confirmed: bool, reviewer: Option<User>, now: int,
                      freshIds: seq<string>, failingCommit: Option<nat>)
    returns (result: ApproveResult)
    requires |freshIds| == |db.ItemsOf(batchId)|
    modifies db
    ensures db.batchQuestions == old(db.batchQuestions)
    ensures !confirmed ==> result == Cancelled
                           && db.quizQuestions == old(db.quizQuestions)
                           && db.stagingBatches == old(db.stagingBatches)
    ensures confirmed ==>
              var items := old(db.ItemsOf(batchId));
              var done := CommittedChunks(|items|, RefusedCommit(items, failingCommit));
              && Buildable(items, 0, Min(done * CHUNK_SIZE, |items|))
              && db.quizQuestions == ApplyWrites(old(db.quizQuestions),
                                                 PlanWrites(items, Payloads(items, batchId, now), freshIds,
                                                            0, Min(done * CHUNK_SIZE, |items|)))
              && (done < ChunkCount(|items|) ==>
                    result == CommitFailed(done) && db.stagingBatches == old(db.stagingBatches))
              && (done == ChunkCount(|items|) && batchId in old(db.stagingBatches) ==>
                    && result == Approved
                    && db.stagingBatches == old(db.stagingBatches)[batchId := old(db.stagingBatches)[batchId]
                                                                               + ApprovalStamp(now, reviewer)])
              && (done == ChunkCount(|items|) && batchId !in old(db.stagingBatches) ==>
                    result == BatchMissing && db.stagingBatches == old(db.stagingBatches))
  {
    if !confirmed {
      return Cancelled;
    }
    var docs := db.ItemsOf(batchId);
    var payloads := Payloads(docs, batchId, now);
    var done := CommitChunks(db, docs, payloads, freshIds, failingCommit);
    if done < ChunkCount(|docs|) {
      return CommitFailed(done);
    }
    if batchId !in db.stagingBatches {
      return BatchMissing;
    }
    db.stagingBatches := db.stagingBatches[batchId := db.stagingBatches[batchId] + ApprovalStamp(now, reviewer)];
    result := Approved;
  }

  /** A run in which no commit is refused publishes every item of the batch. */
  lemma FullApprovalPublishesAll(n: nat)
    ensures Min(CommittedChunks(n, None) * CHUNK_SIZE, n) == n
  {
    ChunkCountAt(n, ChunkCount(n));
    if n > 0 {
      ChunkCountAt(n, ChunkCount(n) - 1);
    }
  }

  /** A refused commit leaves exactly the groups before it published. */
  lemma FailedApprovalPublishesPrefix(n: nat, f: nat)
    requires f < ChunkCount(n)
    ensures CommittedChunks(n, Some(f)) == f
    ensures Min(f * CHUNK_SIZE, n) == f * CHUNK_SIZE < n
  {
    ChunkCountAt(n, f);
  }

  /** `rejectBatch`: stamp the batch rejected with the note (or `''`), whatever
      its status; the live collection is not touched. Fails only when the batch
      document does not exist. */
  method RejectBatch(db: Firestore, batchId: string, note: Option<string>, reviewer: Option<User>, now: int)
    returns (ok: bool)
    modifies db
    ensures db.quizQuestions == old(db.quizQuestions) && db.batchQuestions == old(db.batchQuestions)
    ensures ok <==> batchId in old(db.stagingBatches)
    ensures ok ==> db.stagingBatches == old(db.stagingBatches)[batchId := old(db.stagingBatches)[batchId]
                                                                       + RejectionStamp(now, reviewer, note)]
    ensures !ok ==> db.stagingBatches == old(db.stagingBatches)
  {
    ok := batchId in db.stagingBatches;
    if ok {
      db.stagingBatches := db.stagingBatches[batchId := db.stagingBatches[batchId] + RejectionStamp(now, reviewer, note)];
    }
  }

  /** The Approve button is enabled for a reviewer, while nothing is publishing,
      on a batch whose status is not `approved`. */
  predicate ApproveEnabled(isAdmin: bool, publishing: bool, status: Option<Value>) {
    !(!isAdmin || publishing || status == Some(Str("approved")))
  }

  /** The Reject button is enabled for a reviewer on a batch whose status is not `rejected`. */
  predicate RejectEnabled(isAdmin: bool, status: Option<Value>) {
    !(!isAdmin || status == Some(Str("rejected")))
  }

  /** The buttons are the only guard: a reviewer can reject an approved batch,
      and the rejection keeps the approval stamps beside the new ones. */
  lemma ApprovedBatchCanBeRejected(batch: Doc, now: int, reviewer: Option<User>, note: Option<string>)
    requires Get(batch, "status") == Some(Str("approved")) && "approvedAt" in batch
    ensures RejectEnabled(true, Get(batch, "status"))
    ensures !ApproveEnabled(true, false, Get(batch, "status"))
    ensures var after := batch + RejectionStamp(now, reviewer, note);
            after["status"] == Str("rejected") && after["approvedAt"] == batch["approvedAt"]
            && after["rejectedAt"] == Time(now)
  {
  }

  /** Without the reviewer role neither button is enabled. */
  lemma ButtonsNeedReviewer(publishing: bool, status: Option<Value>)
    ensures !ApproveEnabled(false, publishing, status) && !RejectEnabled(false, status)
  {
  }

  // ---------------------------------------------------------------------------
  // Retention

  /** `canCleanupBatch`: the batch is approved or rejected, the matching
      approval or rejection time is a valid date, and at least 14 days have
      passed since it. */
  function CanCleanupBatch(batch: Option<Doc>, now: int): (ok: bool)
    ensures ok <==>
              && batch.Some?
              && ((Get(batch.value, "status") == Some(Str("approved"))
                   && ToJsDate(Get(batch.value, "approvedAt")).Some?
                   && now >= ToJsDate(Get(batch.value, "approvedAt")).value + FOURTEEN_DAYS_MS)
                  || (Get(batch.value, "status") == Some(Str("rejected"))
                      && ToJsDate(Get(batch.value, "rejectedAt")).Some?
                      && now >= ToJsDate(Get(batch.value, "rejectedAt")).value + FOURTEEN_DAYS_MS))
  {
    match batch
    case None => false
    case Some(b) =>
      var status := Get(b, "status");
      if status != Some(Str("approved")) && status != Some(Str("rejected")) then false
      else
        var reference := if status == Some(Str("approved")) then ToJsDate(Get(b, "approvedAt"))
                         else ToJsDate(Get(b, "rejectedAt"));
        reference.Some? && now - reference.value >= FOURTEEN_DAYS_MS
  }

  /** The boundary is inclusive: exactly 14 days after the review the batch may
      go, one millisecond earlier it may not. */
  lemma RetentionBoundary(b: Doc, t: int)
    requires Get(b, "status") == Some(Str("approved")) && Get(b, "approvedAt") == Some(Time(t))
    ensures CanCleanupBatch(Some(b), t + FOURTEEN_DAYS_MS)
    ensures !CanCleanupBatch(Some(b), t + FOURTEEN_DAYS_MS - 1)
  {
  }

  /** Once a batch may be deleted it stays deletable. */
  lemma RetentionMonotone(b: Option<Doc>, now: int, later: int)
    requires now <= later && CanCleanupBatch(b, now)
    ensures CanCleanupBatch(b, later)
  {
  }

  /** A pending batch, or one without a valid review time, is never deletable. */
  lemma UnreviewedNeverCleanable(b: Doc, now: int)
    requires (Get(b, "status") != Some(Str("approved")) && Get(b, "status") != Some(Str("rejected")))
             || (Get(b, "status") == Some(Str("approved")) && ToJsDate(Get(b, "approvedAt")).None?)
             || (Get(b, "status") == Some(Str("rejected")) && ToJsDate(Get(b, "rejectedAt")).None?)
    ensures !CanCleanupBatch(Some(b), now)
  {
  }

  datatype CleanupResult = Skipped | TooRecent | Declined | Deleted | DeleteFailed

  /** The items whose deletion was refused (positions in `failed`), in order. */
  function Survivors(items: seq<Doc>, failed: set<nat>, n: nat): (r: seq<Doc>)
    requires n <= |items|
    ensures |r| <= n
  {
    if n == 0 then []
    else Survivors(items, failed, n - 1) + (if n - 1 in failed then [items[n - 1]] else [])
  }

  /** The survivors are exactly the items at the refused positions below `n`,
      in position order: `pos` lists those positions, increasing. */
  lemma {:induction false} SurvivorPositions(items: seq<Doc>, failed: set<nat>, n: nat) returns (pos: seq<nat>)
    requires n <= |items|
    ensures |pos| == |Survivors(items, failed, n)|
    ensures forall j :: 0 <= j < |pos| ==>
              pos[j] < n && pos[j] in failed && Survivors(items, failed, n)[j] == items[pos[j]]
    ensures forall i, j :: 0 <= i < j < |pos| ==> pos[i] < pos[j]
    ensures forall k :: 0 <= k < n && k in failed ==> k in pos
  {
    if n == 0 {
      pos := [];
    } else {
      var prev := SurvivorPositions(items, failed, n - 1);
      pos := prev + (if n - 1 in failed then [n - 1] else []);
      assert forall j :: 0 <= j < |prev| ==> pos[j] == prev[j];
    }
  }

  lemma {:induction false} NoFailureNoSurvivors(items: seq<Doc>, failed: set<nat>, n: nat)
    requires n <= |items|
    requires forall k :: k in failed ==> k >= n
    ensures Survivors(items, failed, n) == []
  {
    if n > 0 {
      NoFailureNoSurvivors(items, failed, n - 1);
    }
  }

  /** `cleanupBatch`: re-check the retention rule on the caller's copy of the
      batch, then delete every item (the deletions at positions in `failed` are
      refused), then, only if all item deletions succeeded, the batch itself. */
  method CleanupBatch(db: Firestore, batchId: string, snapshot: Doc, confirmed: bool, now: int, failed: set<nat>)
    returns (result: CleanupResult)
    modifies db
    ensures db.quizQuestions == old(db.quizQuestions)
    ensures result != Deleted && result != DeleteFailed ==>
              db.stagingBatches == old(db.stagingBatches) && db.batchQuestions == old(db.batchQuestions)
    ensures batchId == "" ==> result == Skipped
    ensures batchId != "" && !CanCleanupBatch(Some(snapshot), now) ==> result == TooRecent
    ensures batchId != "" && CanCleanupBatch(Some(snapshot), now) && !confirmed ==> result == Declined
    ensures batchId != "" && CanCleanupBatch(Some(snapshot), now) && confirmed ==>
              var items := old(db.ItemsOf(batchId));
              var allGone := forall k :: k in failed ==> k >= |items|;
              && db.ItemsOf(batchId) == Survivors(items, failed, |items|)
              && (forall other :: other != batchId ==>
                    (other in db.batchQuestions <==> other in old(db.batchQuestions))
                    && (other in db.batchQuestions ==> db.batchQuestions[other] == old(db.batchQuestions)[other]))
              && (allGone ==> result == Deleted && db.ItemsOf(batchId) == []
                              && db.stagingBatches == old(db.stagingBatches) - {batchId})
              && (!allGone ==> result == DeleteFailed && db.stagingBatches == old(db.stagingBatches))
  {
    if batchId == "" {
      return Skipped;
    }
    if !CanCleanupBatch(Some(snapshot), now) {
      return TooRecent;
    }
    if !confirmed {
      return Declined;
    }
    var items := db.ItemsOf(batchId);
    var kept: seq<Doc> := [];
    var i := 0;
    while i < |items|
      invariant 0 <= i <= |items|
      invariant kept == Survivors(items, failed, i)
    {
      if i in failed {
        kept := kept + [items[i]];
      }
      i := i + 1;
    }
    db.batchQuestions := if kept == [] then db.batchQuestions - {batchId} else db.batchQuestions[batchId := kept];
    if exists k :: k in failed && k < |items| {
      result := DeleteFailed;
    } else {
      NoFailureNoSurvivors(items, failed, |items|);
      db.stagingBatches := db.stagingBatches - {batchId};
      result := Deleted;
    }
  }
}
