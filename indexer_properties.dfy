/**
 * What `filter_missing`, `partial_index` and one round of the part loop do
 * on the shapes a training history has: a list of dictionaries (epochs or
 * the batches of one epoch), a single dictionary, and a list of such lists.
 */
module IndexerProperties {
  import opened Wrappers
  import opened PyValues
  import opened Indexer

  // ---------------------------------------------------------------------
  // filter_missing
  // ---------------------------------------------------------------------

  /** Filtering changes nothing in a value whose lists hold no marker. */
  lemma {:induction false} FilterSettled(x: Value)
    requires Settled(x)
    ensures FilterMissing(x) == x
  {
    match x
    case List(xs) =>
      var children := seq(|xs|, j requires 0 <= j < |xs| => FilterMissing(xs[j]));
      forall j | 0 <= j < |xs| ensures children[j] == xs[j] {
        FilterSettled(xs[j]);
      }
      assert children == xs;
    case _ =>
  }

  /** Filtering twice is filtering once. */
  lemma FilterIdempotent(x: Value)
    ensures FilterMissing(FilterMissing(x)) == FilterMissing(x)
  {
    FilterSettled(FilterMissing(x));
  }

  /** A value recorded by a caller passes the filter unchanged. */
  lemma FilterClean(x: Value)
    requires Clean(x)
    ensures FilterMissing(x) == x
  {
    CleanIsSettled(x);
    FilterSettled(x);
  }

  /** Every list keeps its place when none of its elements filters down to a marker. */
  lemma FilterKeepsAll(xs: seq<Value>)
    requires forall j :: 0 <= j < |xs| ==> !FilterMissing(xs[j]).Missing?
    ensures FilterMissing(List(xs)) == List(seq(|xs|, j requires 0 <= j < |xs| => FilterMissing(xs[j])))
  {
  }

  /**
   * `Present` is Python's `filter` for non-markers: it distributes over
   * concatenation, so it keeps the surviving values in their original order.
   */
  lemma {:induction false} PresentConcat(a: seq<Value>, b: seq<Value>)
    ensures Present(a + b) == Present(a) + Present(b)
  {
    if |a| > 0 {
      var c := a + b;
      assert c[0] == a[0];
      assert c[1..] == a[1..] + b;
      PresentConcat(a[1..], b);
    } else {
      assert a + b == b;
    }
  }

  /**
   * A list that does not collapse becomes the list of exactly the filtered
   * elements that are not markers, in their order (see `PresentConcat`);
   * an empty list stays empty.
   */
  lemma FilterListContents(xs: seq<Value>)
    ensures |xs| == 0 ==> FilterMissing(List(xs)) == List([])
    ensures var r := FilterMissing(List(xs));
      !r.Missing? ==> (r.List? &&
        forall v :: v in r.items <==> !v.Missing? && exists j :: 0 <= j < |xs| && v == FilterMissing(xs[j]))
    ensures var r := FilterMissing(List(xs));
      !r.Missing? ==> r.items == Present(seq(|xs|, j requires 0 <= j < |xs| => FilterMissing(xs[j])))
  {
    var children := seq(|xs|, j requires 0 <= j < |xs| => FilterMissing(xs[j]));
    PresentMembers(children);
    forall v ensures v in children <==> exists j :: 0 <= j < |xs| && v == FilterMissing(xs[j]) {
      if v in children {
        var j :| 0 <= j < |children| && children[j] == v;
        assert v == FilterMissing(xs[j]);
      }
      if exists j :: 0 <= j < |xs| && v == FilterMissing(xs[j]) {
        var j :| 0 <= j < |xs| && v == FilterMissing(xs[j]);
        assert children[j] == v;
      }
    }
  }

  // ---------------------------------------------------------------------
  // A single column name on a list of dictionaries
  // ---------------------------------------------------------------------

  /** Every value stored in one dictionary is free of markers. */
  predicate CleanRow(m: map<string, Value>) {
    forall f :: f in m ==> Clean(m[f])
  }

  /** Every value stored in every dictionary is free of markers. */
  predicate CleanRows(rows: seq<map<string, Value>>) {
    forall j :: 0 <= j < |rows| ==> CleanRow(rows[j])
  }

  /** `d[k]` for one dictionary, with the marker in place of a KeyError. */
  function Get(m: map<string, Value>, k: string): Value {
    if k in m then m[k] else Missing(StrKey(k))
  }

  /** The per-row lookups that indirection builds, before filtering. */
  function Lookups(rows: seq<map<string, Value>>, k: string): seq<Value> {
    seq(|rows|, j requires 0 <= j < |rows| => Get(rows[j], k))
  }

  /** Reference: the values of exactly those rows that hold `k`, in row order. */
  function Column(rows: seq<map<string, Value>>, k: string): (r: seq<Value>)
    ensures |r| == 0 <==> forall j :: 0 <= j < |rows| ==> k !in rows[j]
    ensures forall v :: v in r ==> exists j :: 0 <= j < |rows| && k in rows[j] && v == rows[j][k]
  {
    if |rows| == 0 then []
    else (if k in rows[0] then [rows[0][k]] else []) + Column(rows[1..], k)
  }

  /** A name applied to a list of dictionaries is looked up in each of them. */
  lemma IndirectRows(rows: seq<map<string, Value>>, k: string)
    ensures PartialIndex(Rows(rows), Name(k)) == Ok(List(Lookups(rows, k)))
  {
    var xs := Rows(rows).items;
    var rs := seq(|xs|, j requires 0 <= j < |xs| => PartialIndex(xs[j], Name(k)));
    assert forall j :: 0 <= j < |xs| ==> rs[j] == Ok(Lookups(rows, k)[j]);
    assert AllOk(rs).value == Lookups(rows, k);
  }

  lemma {:induction false} PresentLookups(rows: seq<map<string, Value>>, k: string)
    requires CleanRows(rows)
    ensures Present(Lookups(rows, k)) == Column(rows, k)
  {
    if |rows| > 0 {
      PresentLookups(rows[1..], k);
      assert Lookups(rows, k)[1..] == Lookups(rows[1..], k);
      if k in rows[0] {
        CleanIsSettled(rows[0][k]);
      }
    }
  }

  /** Filtering the lookups: the present values, or one marker if no row holds `k`. */
  lemma FilterLookups(rows: seq<map<string, Value>>, k: string)
    requires CleanRows(rows)
    ensures FilterMissing(List(Lookups(rows, k))) ==
      if |rows| > 0 && Column(rows, k) == [] then Missing(StrKey(k)) else List(Column(rows, k))
  {
    var ls := Lookups(rows, k);
    forall j | 0 <= j < |ls| ensures FilterMissing(ls[j]) == ls[j] {
      if k in rows[j] { FilterClean(rows[j][k]); }
    }
    var children := seq(|ls|, j requires 0 <= j < |ls| => FilterMissing(ls[j]));
    assert children == ls;
    PresentLookups(rows, k);
  }

  /**
   * `x[name]` on a list of dictionaries: the values of exactly those that
   * hold the key, in order; KeyError if the list is non-empty and none does;
   * an empty list stays empty.
   */
  lemma ColumnOfRows(rows: seq<map<string, Value>>, k: string)
    requires CleanRows(rows)
    ensures Step(Rows(rows), Name(k)) ==
      if |rows| == 0 then Ok(List([]))
      else if forall j :: 0 <= j < |rows| ==> k !in rows[j] then Err(KeyError(StrKey(k)))
      else Ok(List(Column(rows, k)))
  {
    IndirectRows(rows, k);
    FilterLookups(rows, k);
  }

  // ---------------------------------------------------------------------
  // A group of column names
  // ---------------------------------------------------------------------

  /** The group part `(k0, k1, ...)` of plain names. */
  function Names(ks: seq<string>): seq<Part> {
    seq(|ks|, c requires 0 <= c < |ks| => Name(ks[c]))
  }

  predicate HasAll(m: map<string, Value>, ks: seq<string>) {
    forall c :: 0 <= c < |ks| ==> ks[c] in m
  }

  function Values(m: map<string, Value>, ks: seq<string>): seq<Value>
    requires HasAll(m, ks)
  {
    seq(|ks|, c requires 0 <= c < |ks| => m[ks[c]])
  }

  /** The position of the first name a dictionary lacks. */
  function FirstAbsent(m: map<string, Value>, ks: seq<string>): (c: nat)
    requires !HasAll(m, ks)
    ensures c < |ks| && ks[c] !in m
    ensures forall d :: 0 <= d < c ==> ks[d] in m
  {
    if ks[0] !in m then 0
    else
      assert !HasAll(m, ks[1..]) by {
        var c :| 0 <= c < |ks| && ks[c] !in m;
        assert ks[1..][c - 1] == ks[c];
      }
      1 + FirstAbsent(m, ks[1..])
  }

  /** The joined row for one dictionary: its tuple, or the marker of the first absent name. */
  function RowJoin(m: map<string, Value>, ks: seq<string>): Value {
    if HasAll(m, ks) then Tuple(Values(m, ks)) else Missing(StrKey(ks[FirstAbsent(m, ks)]))
  }

  /** Reference: one tuple per row that holds every name, in row order. */
  function Joined(rows: seq<map<string, Value>>, ks: seq<string>): (r: seq<Value>)
    ensures |r| == 0 <==> forall j :: 0 <= j < |rows| ==> !HasAll(rows[j], ks)
    ensures forall v :: v in r ==> exists j :: 0 <= j < |rows| && HasAll(rows[j], ks) && v == Tuple(Values(rows[j], ks))
  {
    if |rows| == 0 then []
    else (if HasAll(rows[0], ks) then [Tuple(Values(rows[0], ks))] else []) + Joined(rows[1..], ks)
  }

  /** `incomplete_mapper` over the lookups of the names in one dictionary. */
  lemma JoinGets(m: map<string, Value>, ks: seq<string>)
    requires CleanRow(m)
    ensures Join(seq(|ks|, c requires 0 <= c < |ks| => Get(m, ks[c]))) == RowJoin(m, ks)
  {
    var gs := seq(|ks|, c requires 0 <= c < |ks| => Get(m, ks[c]));
    forall c | 0 <= c < |ks| ensures gs[c].Missing? <==> ks[c] !in m {
      if ks[c] in m { CleanIsSettled(m[ks[c]]); }
    }
    if HasAll(m, ks) {
      assert gs == Values(m, ks);
    } else {
      var a := FirstAbsent(m, ks);
      var r := FirstMissing(gs);
      var j :| 0 <= j < |gs| && gs[j] == r.value && r.value.Missing? &&
               forall k :: 0 <= k < j ==> !gs[k].Missing?;
      assert !(j < a) && !(a < j);
    }
  }

  /** A group applied to one dictionary: one tuple, or KeyError for the first absent name. */
  lemma GroupOnDict(m: map<string, Value>, ks: seq<string>)
    requires CleanRow(m)
    ensures Step(Dict(m), Group(Names(ks))) ==
      if HasAll(m, ks) then Ok(Tuple(Values(m, ks)))
      else Err(KeyError(StrKey(ks[FirstAbsent(m, ks)])))
  {
    DictLookups(m, ks);
    JoinGets(m, ks);
  }

  /** Each name of a group is looked up in the one dictionary. */
  lemma DictLookups(m: map<string, Value>, ks: seq<string>)
    ensures var ps := Names(ks);
      AllOk(seq(|ps|, j requires 0 <= j < |ps| => PartialIndex(Dict(m), ps[j]))) ==
      Ok(seq(|ks|, c requires 0 <= c < |ks| => Get(m, ks[c])))
  {
    var ps := Names(ks);
    var rs := seq(|ps|, j requires 0 <= j < |ps| => PartialIndex(Dict(m), ps[j]));
    assert forall c :: 0 <= c < |ks| ==> rs[c] == Ok(Get(m, ks[c]));
    assert AllOk(rs).value == seq(|ks|, c requires 0 <= c < |ks| => Get(m, ks[c]));
  }

  lemma {:induction false} PresentRowJoins(rows: seq<map<string, Value>>, ks: seq<string>)
    ensures Present(seq(|rows|, i requires 0 <= i < |rows| => RowJoin(rows[i], ks))) == Joined(rows, ks)
  {
    if |rows| > 0 {
      var js := seq(|rows|, i requires 0 <= i < |rows| => RowJoin(rows[i], ks));
      assert js[1..] == seq(|rows[1..]|, i requires 0 <= i < |rows[1..]| => RowJoin(rows[1..][i], ks));
      PresentRowJoins(rows[1..], ks);
    }
  }

  function RowJoins(rows: seq<map<string, Value>>, ks: seq<string>): seq<Value> {
    seq(|rows|, i requires 0 <= i < |rows| => RowJoin(rows[i], ks))
  }

  /** The per-name results of a group on a list of dictionaries, zipped by `zip`. */
  lemma ZipLookups(rows: seq<map<string, Value>>, ks: seq<string>)
    requires |ks| > 0
    ensures var zz := Columns(rows, ks);
            Zip(zz).Ok? && |Zip(zz).value| == |rows| &&
            forall i :: 0 <= i < |rows| ==>
              Zip(zz).value[i] == seq(|ks|, c requires 0 <= c < |ks| => Get(rows[i], ks[c]))
  {
    var zz := Columns(rows, ks);
    var z := Zip(zz);
    assert z.Ok?;
    forall i | 0 <= i < |rows|
      ensures z.value[i] == seq(|ks|, c requires 0 <= c < |ks| => Get(rows[i], ks[c]))
    {
      assert forall c :: 0 <= c < |ks| ==> z.value[i][c] == Get(rows[i], ks[c]);
    }
  }

  /** The per-name columns a group of names builds on a list of dictionaries. */
  function Columns(rows: seq<map<string, Value>>, ks: seq<string>): seq<Value> {
    seq(|ks|, c requires 0 <= c < |ks| => List(Lookups(rows, ks[c])))
  }

  /** Each name of a group is looked up in every dictionary of the list. */
  lemma GroupLookups(rows: seq<map<string, Value>>, ks: seq<string>)
    ensures var ps := Names(ks);
      AllOk(seq(|ps|, j requires 0 <= j < |ps| => PartialIndex(Rows(rows), ps[j]))) == Ok(Columns(rows, ks))
  {
    var ps := Names(ks);
    var rs := seq(|ps|, j requires 0 <= j < |ps| => PartialIndex(Rows(rows), ps[j]));
    forall c | 0 <= c < |ks| ensures rs[c] == Ok(List(Lookups(rows, ks[c]))) {
      IndirectRows(rows, ks[c]);
    }
    assert AllOk(rs).value == Columns(rows, ks);
  }

  /** Zipping the columns and joining each tuple gives every dictionary's joined row. */
  lemma JoinColumns(rows: seq<map<string, Value>>, ks: seq<string>)
    requires CleanRows(rows)
    requires |ks| > 0
    ensures Zip(Columns(rows, ks)).Ok?
    ensures var z := Zip(Columns(rows, ks)).value;
      seq(|z|, i requires 0 <= i < |z| => Join(z[i])) == RowJoins(rows, ks)
  {
    ZipLookups(rows, ks);
    var z := Zip(Columns(rows, ks)).value;
    forall i | 0 <= i < |rows| ensures Join(z[i]) == RowJoin(rows[i], ks) {
      JoinGets(rows[i], ks);
    }
  }

  /** Before filtering: the joined row of every dictionary, in order. */
  lemma GroupOnRowsDirty(rows: seq<map<string, Value>>, ks: seq<string>)
    requires CleanRows(rows)
    requires |ks| > 0
    ensures PartialIndex(Rows(rows), Group(Names(ks))) == Ok(List(RowJoins(rows, ks)))
  {
    GroupLookups(rows, ks);
    JoinColumns(rows, ks);
  }

  /** Filtering the joined rows drops the markers, or collapses into row 0's marker. */
  lemma FilterRowJoins(rows: seq<map<string, Value>>, ks: seq<string>)
    ensures FilterMissing(List(RowJoins(rows, ks))) ==
      if |rows| > 0 && Joined(rows, ks) == [] then RowJoin(rows[0], ks) else List(Joined(rows, ks))
  {
    var js := RowJoins(rows, ks);
    var children := seq(|js|, j requires 0 <= j < |js| => FilterMissing(js[j]));
    assert children == js;
    PresentRowJoins(rows, ks);
  }

  /**
   * A group applied to a list of dictionaries: one tuple per row that holds
   * every name, in order; KeyError (for row 0's first absent name) when the
   * list is non-empty and no row holds them all. No name, or no row, gives
   * an empty list.
   */
  lemma GroupOnRows(rows: seq<map<string, Value>>, ks: seq<string>)
    requires CleanRows(rows)
    ensures Step(Rows(rows), Group(Names(ks))) ==
      if |ks| == 0 || |rows| == 0 then Ok(List([]))
      else if forall j :: 0 <= j < |rows| ==> !HasAll(rows[j], ks) then
        Err(KeyError(StrKey(ks[FirstAbsent(rows[0], ks)])))
      else Ok(List(Joined(rows, ks)))
  {
    if |ks| == 0 {
      assert Names(ks) == [];
      var zz: seq<Value> := [];
      assert Zip(zz) == Ok([]);
    } else {
      GroupOnRowsDirty(rows, ks);
      FilterRowJoins(rows, ks);
    }
  }

  // ---------------------------------------------------------------------
  // Lists of lists: unrolling, and indirection through two levels
  // ---------------------------------------------------------------------

  /** A list of lists of dictionaries, such as the batch lists of several epochs. */
  function Nested(rss: seq<seq<map<string, Value>>>): (r: Value)
    ensures r.List? && |r.items| == |rss|
    ensures forall j :: 0 <= j < |rss| ==> r.items[j] == Rows(rss[j])
  {
    List(seq(|rss|, j requires 0 <= j < |rss| => Rows(rss[j])))
  }

  lemma NestedSettled(rss: seq<seq<map<string, Value>>>)
    ensures Settled(Nested(rss))
  {
    forall j | 0 <= j < |rss| ensures Settled(Rows(rss[j])) {
      assert forall b :: 0 <= b < |rss[j]| ==> Rows(rss[j]).items[b].Dict?;
    }
  }

  /** Slicing a list of dictionaries slices the underlying rows. */
  lemma SliceRows(rows: seq<map<string, Value>>, lo: Option<int>, hi: Option<int>)
    ensures PySlice(Rows(rows).items, lo, hi) == Rows(PySlice(rows, lo, hi)).items
  {
  }

  /** On a list of lists, a part is applied to every inner list (when the outer list is non-empty). */
  lemma DistributeNested(rss: seq<seq<map<string, Value>>>, p: Part)
    requires |rss| > 0 || p.Name?
    ensures PartialIndex(Nested(rss), p) ==
      match AllOk(seq(|rss|, j requires 0 <= j < |rss| => PartialIndex(Rows(rss[j]), p)))
      case Err(e) => Err(e)
      case Ok(vs) => Ok(List(vs))
  {
    var xs := Nested(rss).items;
    assert seq(|xs|, j requires 0 <= j < |xs| => PartialIndex(xs[j], p)) ==
           seq(|rss|, j requires 0 <= j < |rss| => PartialIndex(Rows(rss[j]), p));
  }

  /** Without unrolling, indirection or a group, `partial_index` is the plain lookup. */
  lemma PlainLookup(l: Value, p: Part)
    requires !NeedsUnrolling(l) && !NeedsIndirection(l, p) && !p.Group?
    ensures PartialIndex(l, p) == Lookup(l, p)
  {
  }

  /** An integer part on a list of dictionaries is plain indexing. */
  lemma IndexRows(rows: seq<map<string, Value>>, i: int)
    ensures PartialIndex(Rows(rows), Index(i)) == At(Rows(rows).items, i)
  {
    PlainLookup(Rows(rows), Index(i));
  }

  /** A slice part on a list of dictionaries is plain slicing. */
  lemma SliceRowsPart(rows: seq<map<string, Value>>, lo: Option<int>, hi: Option<int>)
    ensures PartialIndex(Rows(rows), Slice(lo, hi)) == Ok(Rows(PySlice(rows, lo, hi)))
  {
    PlainLookup(Rows(rows), Slice(lo, hi));
    SliceRows(rows, lo, hi);
  }

  /** Every inner list is long enough for Python's `xs[i]`. */
  predicate AllInRange(rss: seq<seq<map<string, Value>>>, i: int) {
    forall j :: 0 <= j < |rss| ==> -|rss[j]| <= i < |rss[j]|
  }

  /** The dictionary at position `i` of every inner list. */
  function PickAll(rss: seq<seq<map<string, Value>>>, i: int): seq<Value>
    requires AllInRange(rss, i)
  {
    seq(|rss|, j requires 0 <= j < |rss| => Dict(rss[j][Normalize(|rss[j]|, i)]))
  }

  /** Before filtering: an integer part on a non-empty list of lists indexes every inner list. */
  lemma NestedIndexDirty(rss: seq<seq<map<string, Value>>>, i: int)
    requires |rss| > 0
    ensures PartialIndex(Nested(rss), Index(i)) ==
      if AllInRange(rss, i) then Ok(List(PickAll(rss, i))) else Err(IndexError)
  {
    DistributeNested(rss, Index(i));
    var rs := seq(|rss|, j requires 0 <= j < |rss| => PartialIndex(Rows(rss[j]), Index(i)));
    forall j | 0 <= j < |rss| ensures rs[j] == At(Rows(rss[j]).items, i) {
      IndexRows(rss[j], i);
    }
    if AllInRange(rss, i) {
      var picked := PickAll(rss, i);
      forall j | 0 <= j < |rss| ensures rs[j] == Ok(picked[j]) {
        assert Rows(rss[j]).items[Normalize(|rss[j]|, i)] == picked[j];
      }
      assert AllOk(rs).Ok?;
      assert AllOk(rs).value == picked;
    } else {
      var j :| 0 <= j < |rss| && !(-|rss[j]| <= i < |rss[j]|);
      assert rs[j] == Err(IndexError);
      assert AllOk(rs) == Err(IndexError);
    }
  }

  /**
   * An integer part on a non-empty list of lists is applied to every inner
   * list; if it is out of range for any of them the query raises IndexError
   * (only KeyError becomes a marker). On an empty list it is plain indexing,
   * which raises IndexError too.
   */
  lemma UnrollIndex(rss: seq<seq<map<string, Value>>>, i: int)
    ensures Step(Nested(rss), Index(i)) ==
      if |rss| > 0 && AllInRange(rss, i) then Ok(List(PickAll(rss, i)))
      else Err(IndexError)
  {
    if |rss| > 0 {
      NestedIndexDirty(rss, i);
      if AllInRange(rss, i) {
        var picked := PickAll(rss, i);
        assert Settled(List(picked));
        FilterSettled(List(picked));
      }
    }
  }

  /**
   * A slice part on a list of lists is applied to every inner list (on an
   * empty list it is plain slicing, which also gives an empty list).
   */
  lemma UnrollSlice(rss: seq<seq<map<string, Value>>>, lo: Option<int>, hi: Option<int>)
    ensures Step(Nested(rss), Slice(lo, hi)) ==
      Ok(Nested(seq(|rss|, j requires 0 <= j < |rss| => PySlice(rss[j], lo, hi))))
  {
    var sliced := seq(|rss|, j requires 0 <= j < |rss| => PySlice(rss[j], lo, hi));
    NestedSliceDirty(rss, lo, hi);
    NestedSettled(sliced);
    FilterSettled(Nested(sliced));
  }

  /** Before filtering: a slice part on a list of lists slices every inner list. */
  lemma NestedSliceDirty(rss: seq<seq<map<string, Value>>>, lo: Option<int>, hi: Option<int>)
    ensures PartialIndex(Nested(rss), Slice(lo, hi)) ==
      Ok(Nested(seq(|rss|, j requires 0 <= j < |rss| => PySlice(rss[j], lo, hi))))
  {
    var sliced := seq(|rss|, j requires 0 <= j < |rss| => PySlice(rss[j], lo, hi));
    if |rss| > 0 {
      var rs := seq(|rss|, j requires 0 <= j < |rss| => PartialIndex(Rows(rss[j]), Slice(lo, hi)));
      assert AllOk(rs) == Ok(Nested(sliced).items) by {
        forall j | 0 <= j < |rss| ensures rs[j] == Ok(Rows(sliced[j])) {
          SliceRowsPart(rss[j], lo, hi);
        }
        assert AllOk(rs).value == Nested(sliced).items;
      }
      DistributeNested(rss, Slice(lo, hi));
    } else {
      assert sliced == [];
    }
  }

  /** A non-empty list of dictionaries none of which holds `k`. */
  predicate Lacks(rows: seq<map<string, Value>>, k: string) {
    |rows| > 0 && forall b :: 0 <= b < |rows| ==> k !in rows[b]
  }

  /**
   * Reference: the column of every inner list, dropping the inner lists that
   * lack the key entirely (an inner list that was empty stays, empty).
   */
  function NestedColumn(rss: seq<seq<map<string, Value>>>, k: string): (r: seq<Value>)
    ensures |r| == 0 <==> forall j :: 0 <= j < |rss| ==> Lacks(rss[j], k)
  {
    if |rss| == 0 then []
    else (if Lacks(rss[0], k) then [] else [List(Column(rss[0], k))]) + NestedColumn(rss[1..], k)
  }

  /** What filtering makes of one inner list's lookups. */
  function InnerColumn(rows: seq<map<string, Value>>, k: string): Value {
    if Lacks(rows, k) then Missing(StrKey(k)) else List(Column(rows, k))
  }

  lemma {:induction false} PresentInnerColumns(rss: seq<seq<map<string, Value>>>, k: string)
    ensures Present(seq(|rss|, j requires 0 <= j < |rss| => InnerColumn(rss[j], k))) == NestedColumn(rss, k)
  {
    if |rss| > 0 {
      var cs := seq(|rss|, j requires 0 <= j < |rss| => InnerColumn(rss[j], k));
      assert cs[1..] == seq(|rss[1..]|, j requires 0 <= j < |rss[1..]| => InnerColumn(rss[1..][j], k));
      PresentInnerColumns(rss[1..], k);
    }
  }

  function InnerLookups(rss: seq<seq<map<string, Value>>>, k: string): seq<Value> {
    seq(|rss|, j requires 0 <= j < |rss| => List(Lookups(rss[j], k)))
  }

  /** Before filtering, a name on a list of lists is looked up in every dictionary of every inner list. */
  lemma NestedLookups(rss: seq<seq<map<string, Value>>>, k: string)
    ensures PartialIndex(Nested(rss), Name(k)) == Ok(List(InnerLookups(rss, k)))
  {
    DistributeNested(rss, Name(k));
    var rs := seq(|rss|, j requires 0 <= j < |rss| => PartialIndex(Rows(rss[j]), Name(k)));
    forall j | 0 <= j < |rss| ensures rs[j] == Ok(List(Lookups(rss[j], k))) {
      IndirectRows(rss[j], k);
    }
    assert AllOk(rs).value == InnerLookups(rss, k);
  }

  /** Filtering two levels: inner lists are filtered first, then those that collapsed are dropped. */
  lemma FilterInnerLookups(rss: seq<seq<map<string, Value>>>, k: string)
    requires forall j :: 0 <= j < |rss| ==> CleanRows(rss[j])
    ensures FilterMissing(List(InnerLookups(rss, k))) ==
      if |rss| > 0 && forall j :: 0 <= j < |rss| ==> Lacks(rss[j], k) then Missing(StrKey(k))
      else List(NestedColumn(rss, k))
  {
    InnerFiltered(rss, k);
    PresentInnerColumns(rss, k);
  }

  /** Each inner list's lookups filter down to its column, or to the marker when it lacks the key. */
  lemma InnerFiltered(rss: seq<seq<map<string, Value>>>, k: string)
    requires forall j :: 0 <= j < |rss| ==> CleanRows(rss[j])
    ensures var dirty := InnerLookups(rss, k);
      seq(|dirty|, j requires 0 <= j < |dirty| => FilterMissing(dirty[j])) ==
      seq(|rss|, j requires 0 <= j < |rss| => InnerColumn(rss[j], k))
  {
    var dirty := InnerLookups(rss, k);
    var children := seq(|dirty|, j requires 0 <= j < |dirty| => FilterMissing(dirty[j]));
    forall j | 0 <= j < |rss| ensures children[j] == InnerColumn(rss[j], k) {
      FilterLookups(rss[j], k);
    }
  }

  /**
   * A name on a list of lists of dictionaries (`h[:, 'batches', :, name]`):
   * each inner list becomes its column; inner lists where no dictionary
   * holds the name are dropped, and KeyError is raised only when that drops
   * every inner list of a non-empty outer list.
   */
  lemma ColumnOfNested(rss: seq<seq<map<string, Value>>>, k: string)
    requires forall j :: 0 <= j < |rss| ==> CleanRows(rss[j])
    ensures Step(Nested(rss), Name(k)) ==
      if |rss| > 0 && forall j :: 0 <= j < |rss| ==> Lacks(rss[j], k) then Err(KeyError(StrKey(k)))
      else Ok(List(NestedColumn(rss, k)))
  {
    NestedLookups(rss, k);
    FilterInnerLookups(rss, k);
  }

  // ---------------------------------------------------------------------
  // A marker that survives inside a tuple
  // ---------------------------------------------------------------------

  /** A name on `[m1, [m2]]`: the value in `m1`, and a list holding the marker for `m2`. */
  lemma MixedColumn(m1: map<string, Value>, m2: map<string, Value>, k: string)
    requires k in m1 && k !in m2
    ensures PartialIndex(List([Dict(m1), List([Dict(m2)])]), Name(k)) ==
      Ok(List([m1[k], List([Missing(StrKey(k))])]))
  {
    var inner := List([Dict(m2)]);
    var marker := Missing(StrKey(k));
    assert PartialIndex(inner, Name(k)) == Ok(List([marker])) by {
      var rs := seq(1, j requires 0 <= j < 1 => PartialIndex(inner.items[j], Name(k)));
      assert rs == [Ok(marker)];
      assert AllOk(rs).value == [marker];
    }
    var x := List([Dict(m1), inner]);
    var rs := seq(2, j requires 0 <= j < 2 => PartialIndex(x.items[j], Name(k)));
    assert rs == [Ok(m1[k]), Ok(List([marker]))];
    var vs := AllOk(rs).value;
    assert AllOk(rs).Ok? && |vs| == 2;
    assert vs == [m1[k], List([marker])];
  }

  /** `zip` of one list gives the 1-tuples of its elements. */
  lemma ZipOne(xs: seq<Value>)
    ensures Zip([List(xs)]) == Ok(seq(|xs|, i requires 0 <= i < |xs| => [xs[i]]))
  {
    var cols := [List(xs)];
    assert forall c :: 0 <= c < |cols| ==> Iterable(cols[c]);
    var z := Zip(cols).value;
    assert |z| == |xs|;
    forall i | 0 <= i < |xs| ensures z[i] == [xs[i]] {
      assert |z[i]| == 1;
    }
    assert z == seq(|xs|, i requires 0 <= i < |xs| => [xs[i]]);
  }

  /** A group of one name on a list that needs no unrolling joins the name's column into 1-tuples. */
  lemma GroupOfOneName(x: Value, k: string, col: seq<Value>)
    requires x.List? && !NeedsUnrolling(x) && PartialIndex(x, Name(k)) == Ok(List(col))
    ensures PartialIndex(x, Group([Name(k)])) ==
      Ok(List(seq(|col|, i requires 0 <= i < |col| => Join([col[i]]))))
  {
    var ps := [Name(k)];
    var rs := seq(|ps|, j requires 0 <= j < |ps| => PartialIndex(x, ps[j]));
    assert rs == [Ok(List(col))];
    assert AllOk(rs).value == [List(col)];
    ZipOne(col);
    var rows := seq(|col|, i requires 0 <= i < |col| => [col[i]]);
    assert seq(|rows|, i requires 0 <= i < |rows| => Join(rows[i])) ==
           seq(|col|, i requires 0 <= i < |col| => Join([col[i]]));
  }

  /**
   * A group applied to `[m1, [m2]]`, a list whose first element is a row
   * but whose second is a list of rows: indirection reaches one level
   * further down in the second element, so the marker for `m2` ends up
   * inside a joined tuple, where `filter_missing` does not look, and the
   * query succeeds with it.
   */
  lemma MarkerInsideTuple(m1: map<string, Value>, m2: map<string, Value>, k: string)
    requires k in m1 && k !in m2 && Clean(m1[k])
    ensures Step(List([Dict(m1), List([Dict(m2)])]), Group([Name(k)])) ==
      Ok(List([Tuple([m1[k]]), Tuple([List([Missing(StrKey(k))])])]))
  {
    var x := List([Dict(m1), List([Dict(m2)])]);
    var marker := Missing(StrKey(k));
    var col := [m1[k], List([marker])];
    MixedColumn(m1, m2, k);
    var joined := [Tuple([m1[k]]), Tuple([List([marker])])];
    assert PartialIndex(x, Group([Name(k)])) == Ok(List(joined)) by {
      GroupOfOneName(x, k, col);
      CleanIsSettled(m1[k]);
      assert seq(|col|, i requires 0 <= i < |col| => Join([col[i]])) == joined;
    }
    assert FilterMissing(List(joined)) == List(joined) by {
      assert Settled(List(joined));
      FilterSettled(List(joined));
    }
  }
}
