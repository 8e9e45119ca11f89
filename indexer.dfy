/**
 * The read-only half of the history: `History.__getitem__`, its nested
 * `partial_index` and `filter_missing`, and the loop over selector parts
 * (the loop itself is the method `HistoryLog.History.GetItem`).
 */
module Indexer {
  import opened Wrappers
  import opened PyValues

  /** One part of a composite selector. `Group` is a tuple (or list) of parts. */
  datatype Part =
    | Index(i: int)
    | Slice(lo: Option<int>, hi: Option<int>)
    | Name(name: string)
    | Group(parts: seq<Part>)

  /**
   * What the caller passes to `history[...]`: a bare object, or a tuple of parts.
   * A bare `Group` stands for a Python list passed on its own.
   */
  datatype Selector = Bare(part: Part) | Composite(parts: seq<Part>)

  /** The epoch list as the query sees it: a list of dictionaries. */
  function Rows(rows: seq<map<string, Value>>): (r: Value)
    ensures r.List? && |r.items| == |rows|
    ensures forall j :: 0 <= j < |rows| ==> r.items[j] == Dict(rows[j])
  {
    List(seq(|rows|, j requires 0 <= j < |rows| => Dict(rows[j])))
  }

  // ---------------------------------------------------------------------
  // Helpers for the comprehensions, `zip` and `incomplete_mapper`
  // ---------------------------------------------------------------------

  /**
   * Evaluating a comprehension whose elements may raise: all the values,
   * or the first exception in evaluation order.
   */
  function AllOk(rs: seq<Result<Value>>): (r: Result<seq<Value>>)
    ensures r.Ok? <==> forall j :: 0 <= j < |rs| ==> rs[j].Ok?
    ensures r.Ok? ==> |r.value| == |rs| && forall j :: 0 <= j < |rs| ==> rs[j] == Ok(r.value[j])
    ensures r.Err? ==> exists j :: 0 <= j < |rs| && rs[j] == Err(r.error) &&
                                   forall k :: 0 <= k < j ==> rs[k].Ok?
  {
    if |rs| == 0 then Ok([])
    else match rs[0]
      case Err(e) => Err(e)
      case Ok(v) =>
        match AllOk(rs[1..])
        case Err(e) => Err(e)
        case Ok(vs) => Ok([v] + vs)
  }

  /** The first marker among `xs`, if any. */
  function FirstMissing(xs: seq<Value>): (r: Option<Value>)
    ensures r.None? <==> forall j :: 0 <= j < |xs| ==> !xs[j].Missing?
    ensures r.Some? ==> exists j :: 0 <= j < |xs| && xs[j] == r.value && r.value.Missing? &&
                                    forall k :: 0 <= k < j ==> !xs[k].Missing?
  {
    if |xs| == 0 then None
    else if xs[0].Missing? then Some(xs[0])
    else FirstMissing(xs[1..])
  }

  /** `incomplete_mapper`: a joined tuple, or its first marker if it has one. */
  function Join(xs: seq<Value>): (r: Value)
    ensures r.Missing? <==> exists j :: 0 <= j < |xs| && xs[j].Missing?
    ensures !r.Missing? ==> r == Tuple(xs)
    ensures r.Missing? ==> FirstMissing(xs) == Some(r)
  {
    match FirstMissing(xs)
    case None => Tuple(xs)
    case Some(m) => m
  }

  predicate Iterable(v: Value) {
    v.List? || v.Tuple?
  }

  /** The number of tuples `zip` produces: the shortest argument's length, none for no argument. */
  function ZipLength(cols: seq<Value>): (n: nat)
    requires forall c :: 0 <= c < |cols| ==> cols[c].List? || cols[c].Tuple?
    ensures forall c :: 0 <= c < |cols| ==> n <= |cols[c].items|
    ensures |cols| > 0 ==> exists c :: 0 <= c < |cols| && n == |cols[c].items|
    ensures |cols| == 0 ==> n == 0
  {
    if |cols| == 0 then 0
    else if |cols| == 1 then |cols[0].items|
    else
      var rest := ZipLength(cols[1..]);
      if |cols[0].items| < rest then |cols[0].items| else rest
  }

  /** `zip(*cols)`: the i-th tuple holds the i-th element of every argument. */
  function Zip(cols: seq<Value>): (r: Result<seq<seq<Value>>>)
    ensures r.Ok? <==> forall c :: 0 <= c < |cols| ==> Iterable(cols[c])
    ensures r.Err? ==> r.error == Unsupported
    ensures r.Ok? ==> |r.value| == ZipLength(cols)
    ensures r.Ok? ==> forall i :: 0 <= i < |r.value| ==> |r.value[i]| == |cols|
    ensures r.Ok? ==> forall i, c :: 0 <= i < |r.value| && 0 <= c < |cols| ==> r.value[i][c] == cols[c].items[i]
  {
    if forall c :: 0 <= c < |cols| ==> Iterable(cols[c]) then
      var n := ZipLength(cols);
      Ok(seq(n, i requires 0 <= i < n =>
        seq(|cols|, c requires 0 <= c < |cols| => cols[c].items[i])))
    else Err(Unsupported)
  }

  // ---------------------------------------------------------------------
  // partial_index
  // ---------------------------------------------------------------------

  /** A non-empty list whose first element is a list: the part is applied one level down. */
  predicate NeedsUnrolling(l: Value) {
    l.List? && |l.items| > 0 && l.items[0].List?
  }

  /** A list indexed by a column name: the name is applied to every element. */
  predicate NeedsIndirection(l: Value, p: Part) {
    l.List? && p.Name?
  }

  /** The plain `l[idx]` of `partial_index`, with a KeyError turned into a marker. */
  function Lookup(l: Value, p: Part): (r: Result<Value>)
    requires !p.Group? && !NeedsIndirection(l, p)
    ensures l.Dict? && p.Index? ==> r == Ok(Missing(IntKey(p.i)))
    ensures l.Dict? && p.Name? && p.name in l.fields ==> r == Ok(l.fields[p.name])
    ensures l.Dict? && p.Name? && p.name !in l.fields ==> r == Ok(Missing(StrKey(p.name)))
    ensures r.Err? && r.error == IndexError <==> Iterable(l) && p.Index? && !(-|l.items| <= p.i < |l.items|)
    ensures Iterable(l) && p.Index? ==> r == At(l.items, p.i)
    ensures l.List? && p.Slice? ==> r == Ok(List(PySlice(l.items, p.lo, p.hi)))
    ensures l.Tuple? && p.Slice? ==> r == Ok(Tuple(PySlice(l.items, p.lo, p.hi)))
  {
    match l
    case List(xs) =>
      (match p
       case Index(i) => At(xs, i)
       case Slice(lo, hi) => Ok(List(PySlice(xs, lo, hi)))
       case _ => Err(Unsupported))
    case Tuple(xs) =>
      (match p
       case Index(i) => At(xs, i)
       case Slice(lo, hi) => Ok(Tuple(PySlice(xs, lo, hi)))
       case _ => Err(Unsupported))
    case Dict(m) =>
      (match p
       case Name(k) => if k in m then Ok(m[k]) else Ok(Missing(StrKey(k)))
       case Index(i) => Ok(Missing(IntKey(i)))
       case _ => Err(Unsupported))
    case _ => Err(Unsupported)
  }

  /**
   * `partial_index(l, idx)`: distribute over the elements of a list when it
   * needs unrolling or indirection, join the results of a group positionally,
   * and otherwise index, turning a missing dictionary key into a marker.
   */
  function PartialIndex(l: Value, p: Part): (r: Result<Value>)
    ensures (NeedsUnrolling(l) || NeedsIndirection(l, p)) && r.Ok? ==>
              r.value.List? && |r.value.items| == |l.items|
    ensures r.Err? ==> r.error == IndexError || r.error == Unsupported
    decreases l, p
  {
    if NeedsUnrolling(l) || NeedsIndirection(l, p) then
      var xs := l.items;
      match AllOk(seq(|xs|, j requires 0 <= j < |xs| => PartialIndex(xs[j], p)))
      case Err(e) => Err(e)
      case Ok(vs) => Ok(List(vs))
    else if p.Group? then
      var ps := p.parts;
      match AllOk(seq(|ps|, j requires 0 <= j < |ps| => PartialIndex(l, ps[j])))
      case Err(e) => Err(e)
      case Ok(zz) =>
        if l.List? then
          match Zip(zz)
          case Err(e) => Err(e)
          case Ok(rows) => Ok(List(seq(|rows|, i requires 0 <= i < |rows| => Join(rows[i]))))
        else Ok(Join(zz))
    else Lookup(l, p)
  }

  // ---------------------------------------------------------------------
  // filter_missing
  // ---------------------------------------------------------------------

  /** The elements of `xs` that are not markers, in their original order. */
  function Present(xs: seq<Value>): (r: seq<Value>)
    ensures |r| <= |xs|
    ensures forall j :: 0 <= j < |r| ==> !r[j].Missing?
    ensures |r| == 0 <==> forall j :: 0 <= j < |xs| ==> xs[j].Missing?
    ensures (forall j :: 0 <= j < |xs| ==> !xs[j].Missing?) ==> r == xs
  {
    if |xs| == 0 then []
    else (if xs[0].Missing? then [] else [xs[0]]) + Present(xs[1..])
  }

  /** `Present` keeps exactly the values of `xs` that are not markers. */
  lemma {:induction false} PresentMembers(xs: seq<Value>)
    ensures forall v :: v in Present(xs) <==> v in xs && !v.Missing?
  {
    if |xs| > 0 {
      PresentMembers(xs[1..]);
      assert xs == [xs[0]] + xs[1..];
    }
  }

  /** Dropping the markers from settled values leaves a settled list. */
  lemma {:induction false} PresentSettled(xs: seq<Value>)
    requires forall j :: 0 <= j < |xs| ==> Settled(xs[j])
    ensures Settled(List(Present(xs)))
  {
    if |xs| > 0 {
      PresentSettled(xs[1..]);
      var head := if xs[0].Missing? then [] else [xs[0]];
      var rest := Present(xs[1..]);
      var r := head + rest;
      assert r == Present(xs);
      forall j | 0 <= j < |r| ensures !r[j].Missing? && Settled(r[j]) {
        if j < |head| {
          assert r[j] == xs[0];
        } else {
          assert r[j] == rest[j - |head|];
        }
      }
    }
  }

  /**
   * `filter_missing(x)`: filter every list bottom-up, dropping markers; a
   * non-empty list left with nothing collapses into its first marker.
   */
  function FilterMissing(x: Value): (r: Value)
    ensures Settled(r)
    ensures r.Missing? <==>
      x.Missing? || (x.List? && |x.items| > 0 && forall j :: 0 <= j < |x.items| ==> FilterMissing(x.items[j]).Missing?)
    ensures r.Missing? ==> r.key == FirstKey(x)
    ensures !x.List? ==> r == x
    decreases x
  {
    match x
    case List(xs) =>
      var children := seq(|xs|, j requires 0 <= j < |xs| => FilterMissing(xs[j]));
      var kept := Present(children);
      if |children| > 0 && |kept| == 0 then
        assert forall j :: 0 <= j < |children| ==> children[j].Missing?;
        assert forall j :: 0 <= j < |xs| ==> FilterMissing(xs[j]) == children[j];
        children[0]
      else
        PresentSettled(children);
        List(kept)
    case _ => x
  }

  /** The key of the marker a value collapses into: the one reached through first elements. */
  function FirstKey(x: Value): Key {
    match x
    case Missing(k) => k
    case List(xs) => if |xs| > 0 then FirstKey(xs[0]) else StrKey([])
    case _ => StrKey([])
  }

  // ---------------------------------------------------------------------
  // The loop over selector parts, and the whole query
  // ---------------------------------------------------------------------

  /** One round of the loop: index, filter, and raise the captured KeyError on a marker. */
  function Step(x: Value, p: Part): (r: Result<Value>)
    ensures r.Ok? ==> !r.value.Missing? && Settled(r.value)
    ensures r.Err? ==> r.error != ValueError
  {
    match PartialIndex(x, p)
    case Err(e) => Err(e)
    case Ok(dirty) =>
      var y := FilterMissing(dirty);
      if y.Missing? then Err(KeyError(y.key)) else Ok(y)
  }

  /** The parts applied left to right, stopping at the first exception. */
  function RunParts(x: Value, ps: seq<Part>): (r: Result<Value>)
    ensures |ps| == 0 ==> r == Ok(x)
    ensures |ps| > 0 && r.Ok? ==> !r.value.Missing? && Settled(r.value)
    ensures r.Err? ==> r.error != ValueError
    decreases ps
  {
    if |ps| == 0 then Ok(x)
    else match Step(x, ps[0])
      case Err(e) => Err(e)
      case Ok(y) => RunParts(y, ps[1..])
  }

  /** `history[sel]` on a history whose epochs are `es`. */
  function Query(es: seq<map<string, Value>>, sel: Selector): (r: Result<Value>)
    ensures r.Ok? ==> !r.value.Missing? && Settled(r.value)
    ensures r.Err? && r.error == ValueError <==> sel.Bare? && (sel.part.Name? || sel.part.Group?)
    ensures sel.Bare? && sel.part.Index? ==>
      if -|es| <= sel.part.i < |es| then r == Ok(Dict(es[Normalize(|es|, sel.part.i)]))
      else r == Err(IndexError)
    ensures sel.Bare? && sel.part.Slice? ==> r == Ok(Rows(PySlice(es, sel.part.lo, sel.part.hi)))
  {
    match sel
    case Bare(p) =>
      (match p
       case Index(i) => At(Rows(es).items, i)
       case Slice(lo, hi) =>
         assert PySlice(Rows(es).items, lo, hi) == Rows(PySlice(es, lo, hi)).items;
         Ok(List(PySlice(Rows(es).items, lo, hi)))
       case _ => Err(ValueError))
    case Composite(ps) => RunParts(Rows(es), ps)
  }
}
