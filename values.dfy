/** Dynamically typed JavaScript values as they travel between the portal and
    its document store. A document (or any plain object) is a map from field
    name to value; a field that is absent from the map is `undefined`. */
module Values {
  import opened Text

  datatype Value =
    | Null
    | Bool(b: bool)
    | Num(n: int)
    | Str(s: string)
    | Time(ms: int)          // a stored timestamp (it has `toDate`), in ms since the epoch
    | InvalidDate            // a `Date` whose time value is NaN
    | List(elems: seq<Value>)
    | Obj(fields: map<string, Value>)

  type Doc = map<string, Value>

  /** JavaScript truthiness; every object, array and date is truthy. */
  predicate Truthy(v: Value) {
    match v
    case Null => false
    case Bool(b) => b
    case Num(n) => n != 0
    case Str(s) => s != ""
    case _ => true
  }

  /** `d[k]` used as a condition: absent fields are `undefined`, hence falsy. */
  predicate FieldTruthy(d: Doc, k: string) {
    k in d && Truthy(d[k])
  }

  /** `d[k]`, with `None` for `undefined`. */
  function Get(d: Doc, k: string): Option<Value> {
    if k in d then Some(d[k]) else None
  }

  /** `d[k] || fallback`. */
  function FieldOr(d: Doc, k: string, fallback: Value): Value {
    if FieldTruthy(d, k) then d[k] else fallback
  }

  /** Merging two objects with no field in common keeps every field of both. */
  lemma DisjointUnion(a: Doc, b: Doc)
    requires a.Keys !! b.Keys
    ensures (a + b).Keys == a.Keys + b.Keys
    ensures forall f :: f in a ==> (a + b)[f] == a[f]
    ensures forall f :: f in b ==> (a + b)[f] == b[f]
  {
  }

  /** A list of strings as stored in a document. */
  function StrList(xs: seq<string>): (r: Value)
    ensures r.List? && |r.elems| == |xs|
    ensures forall k :: 0 <= k < |xs| ==> r.elems[k] == Str(xs[k])
  {
    List(seq(|xs|, k requires 0 <= k < |xs| => Str(xs[k])))
  }

  /** The signed-in identity as the store's auth client reports it. */
  datatype User = User(uid: string, email: Option<string>)

  /** `user?.uid || null`. */
  function UidOrNull(user: Option<User>): Value {
    match user
    case Some(u) => if u.uid != "" then Str(u.uid) else Null
    case None => Null
  }

  /** `user?.email || null`. */
  function EmailOrNull(user: Option<User>): Value {
    match user
    case Some(u) => (match u.email case Some(e) => if e != "" then Str(e) else Null case None => Null)
    case None => Null
  }

  /** The largest time value a JavaScript `Date` can hold, in ms. */
  const MAX_TIME_MS: int := 8_640_000_000_000_000

  /** The time value of `new Date(v)`; `None` when it is NaN. Date strings are
      not parsed (see README). */
  function DateOf(v: Value): (r: Option<int>)
    ensures r.Some? ==> -MAX_TIME_MS <= r.value <= MAX_TIME_MS
    ensures v.Null? ==> r == Some(0)
    ensures v.Bool? ==> r == Some(if v.b then 1 else 0)
    ensures v.Num? ==> (r.Some? <==> -MAX_TIME_MS <= v.n <= MAX_TIME_MS) && (r.Some? ==> r.value == v.n)
    ensures v.Time? ==> (r.Some? <==> -MAX_TIME_MS <= v.ms <= MAX_TIME_MS) && (r.Some? ==> r.value == v.ms)
    ensures v.Str? || v.InvalidDate? || v.List? || v.Obj? ==> r.None?
  {
    match v
    case Null => Some(0)
    case Bool(b) => Some(if b then 1 else 0)
    case Num(n) => if -MAX_TIME_MS <= n <= MAX_TIME_MS then Some(n) else None
    case Time(ms) => if -MAX_TIME_MS <= ms <= MAX_TIME_MS then Some(ms) else None
    case _ => None
  }

  /** `toJsDate` of the review screen: missing or falsy values give no date, a
      stored timestamp converts through `toDate`, anything else through
      `new Date(v)`, and an invalid date gives no date. */
  function ToJsDate(v: Option<Value>): (r: Option<int>)
    ensures v.None? ==> r.None?
    ensures v.Some? && !Truthy(v.value) ==> r.None?
    ensures v.Some? && v.value.Time? ==> r == Some(v.value.ms)
    ensures v.Some? && Truthy(v.value) && !v.value.Time? ==> r == DateOf(v.value)
  {
    match v
    case None => None
    case Some(x) =>
      if !Truthy(x) then None
      else if x.Time? then Some(x.ms)
      else DateOf(x)
  }
}
