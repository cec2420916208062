/** Firestore documents as the client code sees them: a plain JavaScript object of field
    values, read with property access (a missing field reads as `undefined`), combined with
    object spread, and written with `updateDoc`, whose field-value operations (`increment`,
    `arrayUnion`, `arrayRemove`) are computed here against the stored value. */
module Documents {
  import opened Wrappers
  import Collections
  import Text

  /** A stored field value. `Time` is a Firestore timestamp (written by `serverTimestamp()`),
      held as its milliseconds since the epoch; `NaN` is the JavaScript number NaN, which the
      client can compute and store. */
  datatype Value =
    | Null
    | Bool(b: bool)
    | Num(x: real)
    | NaN
    | Str(s: string)
    | Arr(items: seq<Value>)
    | Time(millis: int)

  /** A document's data: field name to value. A field that is absent reads as `undefined`. */
  type Doc = map<string, Value>

  /** `data.k`: the value of field `k`, or `None` for `undefined`. */
  function Get(d: Doc, k: string): Option<Value>
  {
    if k in d then Some(d[k]) else None
  }

  /** JavaScript truthiness (ECMAScript ToBoolean); `undefined` is falsy. */
  predicate Truthy(v: Option<Value>)
  {
    match v
    case None => false
    case Some(Null) => false
    case Some(Bool(b)) => b
    case Some(Num(x)) => x != 0.0
    case Some(NaN) => false
    case Some(Str(s)) => s != ""
    case Some(_) => true
  }

  /** `v || fallback`: `v` when it is truthy, otherwise the fallback. */
  function OrElse(v: Option<Value>, fallback: Value): (r: Value)
    ensures Truthy(v) ==> Some(r) == v
    ensures !Truthy(v) ==> r == fallback
  {
    if Truthy(v) then v.value else fallback
  }

  /** A document id that `doc(db, collection, id)` accepts as one path segment: a non-empty
      string without a slash. Any other value makes `doc` throw. */
  predicate ValidId(v: Option<Value>)
  {
    v.Some? && v.value.Str? && v.value.s != [] && '/' !in v.value.s
  }

  /** The value `increment(n)` leaves in a field: the stored number plus `n`, NaN for NaN,
      and `n` itself when the field is absent or not a number. */
  function Incremented(v: Option<Value>, n: real): (r: Value)
    ensures r.Num? || r.NaN?
    ensures v.Some? && v.value.Num? ==> r == Num(v.value.x + n)
    ensures (v.None? || !(v.value.Num? || v.value.NaN?)) ==> r == Num(n)
  {
    match v
    case Some(Num(x)) => Num(x + n)
    case Some(NaN) => NaN
    case _ => Num(n)
  }

  /** The value `arrayUnion(x)` leaves in a field: the stored array with `x` appended when it
      is not already there, and `[x]` when the field is absent or not an array. */
  function ArrayUnion(v: Option<Value>, x: Value): (r: Value)
    ensures r.Arr? && x in r.items
    ensures v.Some? && v.value.Arr? ==>
      forall i :: 0 <= i < |v.value.items| ==> v.value.items[i] in r.items
    ensures forall i :: 0 <= i < |r.items| ==>
      r.items[i] == x || (v.Some? && v.value.Arr? && r.items[i] in v.value.items)
  {
    match v
    case Some(Arr(items)) => if x in items then Arr(items) else Arr(items + [x])
    case _ => Arr([x])
  }

  /** The value `arrayRemove(x)` leaves in a field: the stored array without any element equal
      to `x`, and `[]` when the field is absent or not an array. */
  function ArrayRemove(v: Option<Value>, x: Value): (r: Value)
    ensures r.Arr? && x !in r.items
    ensures v.Some? && v.value.Arr? ==>
      forall i :: 0 <= i < |v.value.items| && v.value.items[i] != x ==> v.value.items[i] in r.items
    ensures forall i :: 0 <= i < |r.items| ==> v.Some? && v.value.Arr? && r.items[i] in v.value.items
  {
    match v
    case Some(Arr(items)) => Arr(Collections.Filter(y => y != x, items))
    case _ => Arr([])
  }

  /** `(data.k || []).includes(x)` for a string `x`: membership for an array, substring search
      for a non-empty string; any other truthy value has no `includes` and throws. */
  function IncludesOrEmpty(v: Option<Value>, x: string): (r: Result<bool, string>)
    ensures !Truthy(v) ==> r == Ok(false)
    ensures v.Some? && v.value.Arr? ==> r == Ok(Str(x) in v.value.items)
    ensures Truthy(v) && v.value.Str? ==> r == Ok(Text.Contains(v.value.s, x))
    ensures Truthy(v) && !v.value.Arr? && !v.value.Str? ==> r.Err?
  {
    if !Truthy(v) then Ok(false)
    else match v.value
      case Arr(items) => Ok(Str(x) in items)
      case Str(s) => Ok(Text.Contains(s, x))
      case _ => Err("includes is not a function")
  }

  // ---------------------------------------------------------------------------------------
  // Lemmas

  /** Adding an element twice is the same as adding it once. */
  lemma ArrayUnionIdempotent(v: Option<Value>, x: Value)
    ensures ArrayUnion(Some(ArrayUnion(v, x)), x) == ArrayUnion(v, x)
  {
  }

  /** Removing an element twice is the same as removing it once. */
  lemma {:induction false} ArrayRemoveIdempotent(v: Option<Value>, x: Value)
    ensures ArrayRemove(Some(ArrayRemove(v, x)), x) == ArrayRemove(v, x)
  {
    var r := ArrayRemove(v, x);
    Collections.FilterKeepsAll(y => y != x, r.items);
  }

  /** Removing an element that was just added leaves an array that was free of it unchanged. */
  lemma {:induction false} ArrayRemoveUndoesUnion(items: seq<Value>, x: Value)
    requires x !in items
    ensures ArrayRemove(Some(ArrayUnion(Some(Arr(items)), x)), x) == Arr(items)
  {
    Collections.FilterKeepsAll(y => y != x, items);
    Collections.FilterSnoc(y => y != x, items, x);
  }
}
