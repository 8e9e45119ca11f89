/** Optional values, used for the omitted bounds of a slice. */
module Wrappers {
  datatype Option<+T> = None | Some(value: T)
}

/**
 * The Python values the training log holds and the indexer produces,
 * with Python's list indexing and slicing on them.
 */
module PyValues {
  import opened Wrappers

  /** The key a failed dictionary lookup was made with (the argument of its KeyError). */
  datatype Key = StrKey(name: string) | IntKey(index: int)

  /**
   * A Python value. Field values recorded by the caller are opaque scalars,
   * dictionaries, lists or tuples. `Missing` is the indexer's private marker
   * for a failed lookup; it carries the key of the KeyError it replaced.
   */
  datatype Value =
    | Scalar(n: int)
    | Dict(fields: map<string, Value>)
    | List(items: seq<Value>)
    | Tuple(items: seq<Value>)
    | Missing(key: Key)

  /**
   * The exceptions a query can raise. `Unsupported` stands for a TypeError
   * (indexing a scalar, a marker or a tuple by name, slicing a dictionary,
   * zipping a non-iterable) and for zipping a dictionary, which Python
   * would iterate over its keys and this model does not follow.
   */
  datatype Error = KeyError(key: Key) | IndexError | ValueError | Unsupported

  datatype Result<T> = Ok(value: T) | Err(error: Error)

  /** No marker anywhere inside `v`: every value a caller can record is like this. */
  predicate Clean(v: Value) {
    match v
    case Scalar(_) => true
    case Dict(m) => forall k :: k in m ==> Clean(m[k])
    case List(xs) => forall j :: 0 <= j < |xs| ==> Clean(xs[j])
    case Tuple(xs) => forall j :: 0 <= j < |xs| ==> Clean(xs[j])
    case Missing(_) => false
  }

  /** No marker is an element of any list reachable from `v` through lists only. */
  predicate Settled(v: Value) {
    match v
    case List(xs) => forall j :: 0 <= j < |xs| ==> !xs[j].Missing? && Settled(xs[j])
    case _ => true
  }

  lemma {:induction false} CleanIsSettled(v: Value)
    requires Clean(v)
    ensures Settled(v) && !v.Missing?
  {
    match v
    case List(xs) =>
      forall j | 0 <= j < |xs| ensures !xs[j].Missing? && Settled(xs[j]) {
        CleanIsSettled(xs[j]);
      }
    case _ =>
  }

  /** The position Python's `xs[i]` reads, for an index that is in range. */
  function Normalize(n: nat, i: int): (k: nat)
    requires -(n as int) <= i < n
    ensures k < n
    ensures i >= 0 ==> k == i
    ensures i < 0 ==> k + (-i) == n
  {
    if i < 0 then n + i else i
  }

  /** Python's `xs[i]` on a list or tuple: negative indices count from the end. */
  function At(xs: seq<Value>, i: int): (r: Result<Value>)
    ensures r.Ok? <==> -|xs| <= i < |xs|
    ensures r.Err? ==> r.error == IndexError
    ensures r.Ok? ==> r.value == xs[Normalize(|xs|, i)]
  {
    if -|xs| <= i < |xs| then Ok(xs[Normalize(|xs|, i)]) else Err(IndexError)
  }

  /**
   * One bound of a slice with step one, as Python's `slice.indices` resolves it:
   * an omitted bound takes its default, a negative one counts from the end,
   * and the result is clamped into `0..n`.
   */
  function Bound(b: Option<int>, n: nat, default: nat): (k: nat)
    requires default <= n
    ensures k <= n
    ensures b.None? ==> k == default
    ensures b.Some? && 0 <= b.value <= n ==> k == b.value
    ensures b.Some? && -(n as int) <= b.value < 0 ==> k + (-b.value) == n
    ensures b.Some? && b.value < -(n as int) ==> k == 0
    ensures b.Some? && b.value > n ==> k == n
  {
    match b
    case None => default
    case Some(v) =>
      if v < 0 then (if v + n < 0 then 0 else v + n)
      else if v > n then n
      else v
  }

  /** Python's `xs[lo:hi]`: the elements from the resolved start up to the resolved stop. */
  function PySlice<T>(xs: seq<T>, lo: Option<int>, hi: Option<int>): (r: seq<T>)
    ensures var a, b := Bound(lo, |xs|, 0), Bound(hi, |xs|, |xs|);
            |r| == (if a < b then b - a else 0) &&
            forall k :: 0 <= k < |r| ==> r[k] == xs[a + k]
  {
    var a, b := Bound(lo, |xs|, 0), Bound(hi, |xs|, |xs|);
    if a < b then xs[a..b] else []
  }
}
