/**
 * Queries on a history built by the mutation API, in the forms the class
 * documentation shows: `h[-1]`, `h[lo:hi, name]`, `h[lo:hi, (names)]`,
 * `h[-1, 'batches']`, `h[-1, 'batches', -1]`, `h[-1, 'batches', lo:hi, name]`,
 * `h[-1, 'batches', lo:hi, (names)]` and `h[lo:hi, 'batches', lo:hi, name]`,
 * and what a query sees right after a mutation.
 */
module HistoryProperties {
  import opened Wrappers
  import opened PyValues
  import opened Indexer
  import opened IndexerProperties
  import opened HistoryLog

  /** The batch dictionaries of a well-shaped epoch. */
  function BatchRows(e: Epoch): (r: seq<map<string, Value>>)
    requires EpochShaped(e)
    ensures Rows(r) == e["batches"]
  {
    var bs := e["batches"].items;
    var r := seq(|bs|, b requires 0 <= b < |bs| => bs[b].fields);
    assert Rows(r).items == bs;
    r
  }

  lemma BatchRowsClean(e: Epoch)
    requires EpochShaped(e) && CleanRow(e)
    ensures CleanRows(BatchRows(e))
  {
    var rs := BatchRows(e);
    forall j, f | 0 <= j < |rs| && f in rs[j] ensures Clean(rs[j][f]) {
      assert Rows(rs).items[j] == Dict(rs[j]);
      assert Clean(e["batches"].items[j]);
    }
  }

  lemma SliceClean(rows: seq<map<string, Value>>, lo: Option<int>, hi: Option<int>)
    requires CleanRows(rows)
    ensures CleanRows(PySlice(rows, lo, hi))
  {
  }

  // ---------------------------------------------------------------------
  // An integer or slice part on a list of rows
  // ---------------------------------------------------------------------

  /** A round of an integer part on a list of rows (epochs or batches): a row, or IndexError. */
  lemma IndexRowsStep(rows: seq<map<string, Value>>, i: int)
    ensures Step(Rows(rows), Index(i)) ==
      if -|rows| <= i < |rows| then Ok(Dict(rows[Normalize(|rows|, i)])) else Err(IndexError)
  {
    IndexRows(rows, i);
  }

  /** A round of a slice part on a list of rows (epochs or batches): the rows in range. */
  lemma SliceRowsStep(rows: seq<map<string, Value>>, lo: Option<int>, hi: Option<int>)
    ensures Step(Rows(rows), Slice(lo, hi)) == Ok(Rows(PySlice(rows, lo, hi)))
  {
    SliceRowsPart(rows, lo, hi);
    var r := Rows(PySlice(rows, lo, hi));
    assert forall j :: 0 <= j < |r.items| ==> r.items[j].Dict?;
    FilterSettled(r);
  }

  /** A step that succeeds hands its result to the remaining parts. */
  lemma RunOk(x: Value, ps: seq<Part>, y: Value)
    requires |ps| > 0 && Step(x, ps[0]) == Ok(y)
    ensures RunParts(x, ps) == RunParts(y, ps[1..])
  {
  }

  /** A step that raises ends the query with its exception. */
  lemma RunErr(x: Value, ps: seq<Part>, e: Error)
    requires |ps| > 0 && Step(x, ps[0]) == Err(e)
    ensures RunParts(x, ps) == Err(e)
  {
  }

  lemma RunOne(x: Value, p: Part)
    ensures RunParts(x, [p]) == Step(x, p)
  {
    assert [p][1..] == [];
  }

  lemma RunTwo(x: Value, p0: Part, p1: Part)
    ensures RunParts(x, [p0, p1]) ==
      match Step(x, p0)
      case Err(e) => Err(e)
      case Ok(y) => Step(y, p1)
  {
    assert [p0, p1][1..] == [p1];
    RunOne(x, p1);
    match Step(x, p0)
    case Err(e) =>
    case Ok(y) => RunOne(y, p1);
  }

  // ---------------------------------------------------------------------
  // Epoch columns
  // ---------------------------------------------------------------------

  /**
   * `h[lo:hi, name]`: the values of the selected epochs that hold the name,
   * in epoch order; KeyError if epochs are selected and none holds it.
   */
  lemma EpochColumnQuery(es: seq<Epoch>, lo: Option<int>, hi: Option<int>, k: string)
    requires CleanRows(es)
    ensures var ss := PySlice(es, lo, hi);
      Query(es, Composite([Slice(lo, hi), Name(k)])) ==
        if |ss| == 0 then Ok(List([]))
        else if forall j :: 0 <= j < |ss| ==> k !in ss[j] then Err(KeyError(StrKey(k)))
        else Ok(List(Column(ss, k)))
  {
    RunTwo(Rows(es), Slice(lo, hi), Name(k));
    SliceRowsStep(es, lo, hi);
    SliceClean(es, lo, hi);
    ColumnOfRows(PySlice(es, lo, hi), k);
  }

  /**
   * `h[lo:hi, (k0, k1, ...)]`: one tuple per selected epoch that holds every
   * name; an epoch lacking any one of them is left out.
   */
  lemma EpochGroupQuery(es: seq<Epoch>, lo: Option<int>, hi: Option<int>, ks: seq<string>)
    requires CleanRows(es)
    ensures var ss := PySlice(es, lo, hi);
      Query(es, Composite([Slice(lo, hi), Group(Names(ks))])) ==
        if |ks| == 0 || |ss| == 0 then Ok(List([]))
        else if forall j :: 0 <= j < |ss| ==> !HasAll(ss[j], ks) then
          Err(KeyError(StrKey(ks[FirstAbsent(ss[0], ks)])))
        else Ok(List(Joined(ss, ks)))
  {
    RunTwo(Rows(es), Slice(lo, hi), Group(Names(ks)));
    SliceRowsStep(es, lo, hi);
    SliceClean(es, lo, hi);
    GroupOnRows(PySlice(es, lo, hi), ks);
  }

  /** `h[-1, (k0, k1, ...)]`: one tuple of the current epoch, or KeyError for its first absent name. */
  lemma LastEpochGroupQuery(es: seq<Epoch>, ks: seq<string>)
    requires CleanRows(es)
    ensures Query(es, Composite([Index(-1), Group(Names(ks))])) ==
      if |es| == 0 then Err(IndexError)
      else if HasAll(LastEpoch(es), ks) then Ok(Tuple(Values(LastEpoch(es), ks)))
      else Err(KeyError(StrKey(ks[FirstAbsent(LastEpoch(es), ks)])))
  {
    var ps := [Index(-1), Group(Names(ks))];
    if |es| == 0 {
      assert Step(Rows(es), ps[0]) == Err(IndexError) by { IndexRowsStep(es, -1); }
      RunErr(Rows(es), ps, IndexError);
    } else {
      var e := LastEpoch(es);
      assert Step(Rows(es), ps[0]) == Ok(Dict(e)) by { IndexRowsStep(es, -1); }
      RunTwo(Rows(es), Index(-1), Group(Names(ks)));
      assert CleanRow(e);
      GroupOnDict(e, ks);
    }
  }

  // ---------------------------------------------------------------------
  // Batches
  // ---------------------------------------------------------------------

  /** `e['batches']` on one well-shaped epoch. */
  lemma BatchesOf(e: Epoch)
    requires EpochShaped(e)
    ensures Step(Dict(e), Name("batches")) == Ok(Rows(BatchRows(e)))
  {
    var r := Rows(BatchRows(e));
    assert forall j :: 0 <= j < |r.items| ==> r.items[j].Dict?;
    FilterSettled(r);
  }

  /** The first two parts of `h[-1, 'batches', -1]` select the current epoch's batch list. */
  lemma LastBatchList(es: seq<Epoch>)
    requires WellShaped(es) && |es| > 0
    ensures Query(es, Composite([Index(-1), Name("batches"), Index(-1)])) ==
      Step(Rows(BatchRows(LastEpoch(es))), Index(-1))
  {
    var ps := [Index(-1), Name("batches"), Index(-1)];
    var e := LastEpoch(es);
    var br := BatchRows(e);
    assert Step(Rows(es), ps[0]) == Ok(Dict(e)) by { IndexRowsStep(es, -1); }
    assert Step(Dict(e), Name("batches")) == Ok(Rows(br)) by { BatchesOf(e); }
    calc {
      RunParts(Rows(es), ps);
      { RunOk(Rows(es), ps, Dict(e)); }
      RunParts(Dict(e), ps[1..]);
      { assert ps[1..] == [Name("batches"), Index(-1)]; RunOk(Dict(e), ps[1..], Rows(br)); }
      RunParts(Rows(br), ps[1..][1..]);
      { assert ps[1..][1..] == [Index(-1)]; RunOne(Rows(br), Index(-1)); }
      Step(Rows(br), Index(-1));
    }
  }

  /**
   * `h[-1, 'batches', -1]`: the current batch, unchanged; IndexError when
   * there is no epoch or the current epoch has no batch.
   */
  lemma LastBatchQuery(es: seq<Epoch>)
    requires WellShaped(es)
    ensures Query(es, Composite([Index(-1), Name("batches"), Index(-1)])) ==
      if |es| == 0 || |Batches(LastEpoch(es))| == 0 then Err(IndexError)
      else Ok(Batches(LastEpoch(es))[|Batches(LastEpoch(es))| - 1])
  {
    var ps := [Index(-1), Name("batches"), Index(-1)];
    if |es| == 0 {
      assert Step(Rows(es), ps[0]) == Err(IndexError) by { IndexRowsStep(es, -1); }
      RunErr(Rows(es), ps, IndexError);
    } else {
      var br := BatchRows(LastEpoch(es));
      var bs := Batches(LastEpoch(es));
      assert bs == Rows(br).items;
      calc {
        Query(es, Composite(ps));
        { LastBatchList(es); }
        Step(Rows(br), Index(-1));
        { IndexRowsStep(br, -1); }
        if |br| == 0 then Err(IndexError) else Ok(Rows(br).items[|br| - 1]);
        if |bs| == 0 then Err(IndexError) else Ok(bs[|bs| - 1]);
      }
    }
  }

  /** `h[-1, 'batches']`: the current epoch's batch list as it is stored; IndexError for no epoch. */
  lemma LastEpochBatchesQuery(es: seq<Epoch>)
    requires WellShaped(es)
    ensures Query(es, Composite([Index(-1), Name("batches")])) ==
      if |es| == 0 then Err(IndexError) else Ok(LastEpoch(es)["batches"])
  {
    var ps := [Index(-1), Name("batches")];
    if |es| == 0 {
      assert Step(Rows(es), ps[0]) == Err(IndexError) by { IndexRowsStep(es, -1); }
      RunErr(Rows(es), ps, IndexError);
    } else {
      var e := LastEpoch(es);
      assert Step(Rows(es), ps[0]) == Ok(Dict(e)) by { IndexRowsStep(es, -1); }
      assert Step(Dict(e), Name("batches")) == Ok(e["batches"]) by { BatchesOf(e); }
      RunTwo(Rows(es), Index(-1), Name("batches"));
    }
  }

  /** The first three parts of `h[-1, 'batches', lo:hi, p]` select batch rows of the current epoch. */
  lemma LastEpochBatchSlice(es: seq<Epoch>, lo: Option<int>, hi: Option<int>, p: Part)
    requires WellShaped(es) && |es| > 0
    ensures Query(es, Composite([Index(-1), Name("batches"), Slice(lo, hi), p])) ==
      Step(Rows(PySlice(BatchRows(LastEpoch(es)), lo, hi)), p)
  {
    var e := LastEpoch(es);
    var br := BatchRows(e);
    var ps := [Index(-1), Name("batches"), Slice(lo, hi), p];
    assert Step(Rows(es), ps[0]) == Ok(Dict(e)) by { IndexRowsStep(es, -1); }
    assert Step(Dict(e), Name("batches")) == Ok(Rows(br)) by { BatchesOf(e); }
    assert Step(Rows(br), Slice(lo, hi)) == Ok(Rows(PySlice(br, lo, hi))) by { SliceRowsStep(br, lo, hi); }
    calc {
      RunParts(Rows(es), ps);
      { RunOk(Rows(es), ps, Dict(e)); }
      RunParts(Dict(e), ps[1..]);
      { assert ps[1..] == [Name("batches"), Slice(lo, hi), p]; RunOk(Dict(e), ps[1..], Rows(br)); }
      RunParts(Rows(br), ps[1..][1..]);
      { assert ps[1..][1..] == [Slice(lo, hi), p]; RunTwo(Rows(br), Slice(lo, hi), p); }
      Step(Rows(PySlice(br, lo, hi)), p);
    }
  }

  /**
   * `h[-1, 'batches', lo:hi, (k0, k1, ...)]`: one tuple per selected batch of
   * the current epoch that holds every name, in order; KeyError (for the
   * first selected batch's first absent name) when none does.
   */
  lemma LastEpochBatchGroupQuery(es: seq<Epoch>, lo: Option<int>, hi: Option<int>, ks: seq<string>)
    requires WellShaped(es) && CleanRows(es) && |es| > 0
    ensures var ss := PySlice(BatchRows(LastEpoch(es)), lo, hi);
      Query(es, Composite([Index(-1), Name("batches"), Slice(lo, hi), Group(Names(ks))])) ==
        if |ks| == 0 || |ss| == 0 then Ok(List([]))
        else if forall j :: 0 <= j < |ss| ==> !HasAll(ss[j], ks) then
          Err(KeyError(StrKey(ks[FirstAbsent(ss[0], ks)])))
        else Ok(List(Joined(ss, ks)))
  {
    var br := BatchRows(LastEpoch(es));
    LastEpochBatchSlice(es, lo, hi, Group(Names(ks)));
    BatchRowsClean(LastEpoch(es));
    SliceClean(br, lo, hi);
    GroupOnRows(PySlice(br, lo, hi), ks);
  }

  /**
   * `h[-1, 'batches', lo:hi, name]`: the values of the selected batches of
   * the current epoch that hold the name, in order; `[]` for no batch;
   * KeyError when none holds it.
   */
  lemma LastEpochBatchColumnQuery(es: seq<Epoch>, lo: Option<int>, hi: Option<int>, k: string)
    requires WellShaped(es) && CleanRows(es) && |es| > 0
    ensures var ss := PySlice(BatchRows(LastEpoch(es)), lo, hi);
      Query(es, Composite([Index(-1), Name("batches"), Slice(lo, hi), Name(k)])) ==
        if |ss| == 0 then Ok(List([]))
        else if forall j :: 0 <= j < |ss| ==> k !in ss[j] then Err(KeyError(StrKey(k)))
        else Ok(List(Column(ss, k)))
  {
    var br := BatchRows(LastEpoch(es));
    LastEpochBatchSlice(es, lo, hi, Name(k));
    BatchRowsClean(LastEpoch(es));
    SliceClean(br, lo, hi);
    ColumnOfRows(PySlice(br, lo, hi), k);
  }

  /** When every row holds the key, the column is every row's value. */
  lemma {:induction false} ColumnOfAll(rows: seq<map<string, Value>>, k: string)
    requires forall j :: 0 <= j < |rows| ==> k in rows[j]
    ensures Column(rows, k) == seq(|rows|, j requires 0 <= j < |rows| => rows[j][k])
  {
    if |rows| > 0 {
      ColumnOfAll(rows[1..], k);
    }
  }

  /** The batch lists of a list of well-shaped epochs. */
  function AllBatchRows(es: seq<Epoch>): (r: seq<seq<map<string, Value>>>)
    requires WellShaped(es)
    ensures |r| == |es| && forall j :: 0 <= j < |es| ==> r[j] == BatchRows(es[j])
  {
    seq(|es|, j requires 0 <= j < |es| => BatchRows(es[j]))
  }

  /** `x['batches']` on a list of well-shaped epochs: the list of their batch lists. */
  lemma BatchesOfAll(es: seq<Epoch>)
    requires WellShaped(es) && CleanRows(es)
    ensures Step(Rows(es), Name("batches")) == Ok(Nested(AllBatchRows(es)))
  {
    ColumnOfRows(es, "batches");
    if |es| > 0 {
      ColumnOfAll(es, "batches");
      assert Column(es, "batches") == Nested(AllBatchRows(es)).items;
    }
  }

  lemma SliceShaped(es: seq<Epoch>, lo: Option<int>, hi: Option<int>)
    requires WellShaped(es)
    ensures WellShaped(PySlice(es, lo, hi))
  {
  }

  /** The selected batches of each selected epoch. */
  function SelectedBatches(es: seq<Epoch>, lo: Option<int>, hi: Option<int>,
                           blo: Option<int>, bhi: Option<int>): (r: seq<seq<map<string, Value>>>)
    requires WellShaped(es)
    ensures var ss := PySlice(es, lo, hi);
      WellShaped(ss) && |r| == |ss| &&
      forall j :: 0 <= j < |ss| ==> r[j] == PySlice(BatchRows(ss[j]), blo, bhi)
  {
    var ss := PySlice(es, lo, hi);
    SliceShaped(es, lo, hi);
    seq(|ss|, j requires 0 <= j < |ss| => PySlice(BatchRows(ss[j]), blo, bhi))
  }

  lemma SelectedBatchesClean(es: seq<Epoch>, lo: Option<int>, hi: Option<int>,
                             blo: Option<int>, bhi: Option<int>)
    requires WellShaped(es) && CleanRows(es)
    ensures var bss := SelectedBatches(es, lo, hi, blo, bhi);
      forall j :: 0 <= j < |bss| ==> CleanRows(bss[j])
  {
    var ss := PySlice(es, lo, hi);
    var bss := SelectedBatches(es, lo, hi, blo, bhi);
    SliceClean(es, lo, hi);
    forall j | 0 <= j < |bss| ensures CleanRows(bss[j]) {
      BatchRowsClean(ss[j]);
      SliceClean(BatchRows(ss[j]), blo, bhi);
    }
  }

  /** The first three parts of `h[lo:hi, 'batches', blo:bhi, name]` select the batch lists. */
  lemma SelectBatches(es: seq<Epoch>, lo: Option<int>, hi: Option<int>,
                      blo: Option<int>, bhi: Option<int>, k: string)
    requires WellShaped(es) && CleanRows(es)
    ensures Query(es, Composite([Slice(lo, hi), Name("batches"), Slice(blo, bhi), Name(k)])) ==
      Step(Nested(SelectedBatches(es, lo, hi, blo, bhi)), Name(k))
  {
    var ss := PySlice(es, lo, hi);
    SliceShaped(es, lo, hi);
    var nb := AllBatchRows(ss);
    var bss := SelectedBatches(es, lo, hi, blo, bhi);
    var ps := [Slice(lo, hi), Name("batches"), Slice(blo, bhi), Name(k)];
    assert Step(Rows(es), ps[0]) == Ok(Rows(ss)) by { SliceRowsStep(es, lo, hi); }
    assert Step(Rows(ss), Name("batches")) == Ok(Nested(nb)) by {
      SliceClean(es, lo, hi);
      BatchesOfAll(ss);
    }
    assert Step(Nested(nb), Slice(blo, bhi)) == Ok(Nested(bss)) by {
      UnrollSlice(nb, blo, bhi);
      assert seq(|nb|, j requires 0 <= j < |nb| => PySlice(nb[j], blo, bhi)) == bss;
    }
    calc {
      RunParts(Rows(es), ps);
      { RunOk(Rows(es), ps, Rows(ss)); }
      RunParts(Rows(ss), ps[1..]);
      { assert ps[1..] == [Name("batches"), Slice(blo, bhi), Name(k)];
        RunOk(Rows(ss), ps[1..], Nested(nb)); }
      RunParts(Nested(nb), ps[1..][1..]);
      { assert ps[1..][1..] == [Slice(blo, bhi), Name(k)];
        RunTwo(Nested(nb), Slice(blo, bhi), Name(k)); }
      Step(Nested(bss), Name(k));
    }
  }

  /**
   * `h[lo:hi, 'batches', blo:bhi, name]`: for each selected epoch, the
   * values of its selected batches that hold the name; an epoch whose
   * selected batches are non-empty and all lack the name is dropped, and
   * KeyError is raised only when that drops every selected epoch.
   */
  lemma AllBatchesColumnQuery(es: seq<Epoch>, lo: Option<int>, hi: Option<int>,
                              blo: Option<int>, bhi: Option<int>, k: string)
    requires WellShaped(es) && CleanRows(es)
    ensures var bss := SelectedBatches(es, lo, hi, blo, bhi);
      Query(es, Composite([Slice(lo, hi), Name("batches"), Slice(blo, bhi), Name(k)])) ==
        if |bss| > 0 && forall j :: 0 <= j < |bss| ==> Lacks(bss[j], k) then Err(KeyError(StrKey(k)))
        else Ok(List(NestedColumn(bss, k)))
  {
    SelectBatches(es, lo, hi, blo, bhi, k);
    SelectedBatchesClean(es, lo, hi, blo, bhi);
    ColumnOfNested(SelectedBatches(es, lo, hi, blo, bhi), k);
  }

  // ---------------------------------------------------------------------
  // Queries right after a mutation
  // ---------------------------------------------------------------------

  /** After `new_epoch`, `h[-1]` is the appended row and `h[-1, 'batches']` is empty. */
  lemma NewEpochThenQuery(es: seq<Epoch>)
    ensures Query(es + [EmptyEpoch()], Bare(Index(-1))) == Ok(Dict(EmptyEpoch()))
    ensures Query(es + [EmptyEpoch()], Composite([Index(-1), Name("batches")])) == Ok(List([]))
  {
    var es' := es + [EmptyEpoch()];
    RunTwo(Rows(es'), Index(-1), Name("batches"));
    IndexRowsStep(es', -1);
    FilterSettled(List([]));
  }

  /** After `new_batch`, `h[-1, 'batches', -1]` is the new, empty batch. */
  lemma NewBatchThenQuery(es: seq<Epoch>)
    requires WellShaped(es) && |es| > 0
    ensures Query(AppendBatch(es), Composite([Index(-1), Name("batches"), Index(-1)])) == Ok(Dict(map[]))
  {
    LastBatchQuery(AppendBatch(es));
  }

  /** After `record(attr, v)`, `h[-1, attr]` is `v`. */
  lemma RecordThenQuery(es: seq<Epoch>, attr: string, v: Value)
    requires |es| > 0 && Clean(v)
    ensures Query(RecordField(es, attr, v), Composite([Index(-1), Name(attr)])) == Ok(v)
  {
    var es' := RecordField(es, attr, v);
    RunTwo(Rows(es'), Index(-1), Name(attr));
    IndexRowsStep(es', -1);
    DictField(LastEpoch(es'), attr);
  }

  /** Looking up a recorded field of one dictionary gives its value. */
  lemma DictField(m: map<string, Value>, k: string)
    requires k in m && Clean(m[k])
    ensures Step(Dict(m), Name(k)) == Ok(m[k])
  {
    PlainLookup(Dict(m), Name(k));
    FilterClean(m[k]);
  }

  /** After `record_batch(attr, v)`, `h[-1, 'batches', -1, attr]` is `v`. */
  lemma RecordBatchThenQuery(es: seq<Epoch>, attr: string, v: Value)
    requires WellShaped(es) && HasCurrentBatch(es) && Clean(v)
    ensures Query(RecordBatchField(es, attr, v),
                  Composite([Index(-1), Name("batches"), Index(-1), Name(attr)])) == Ok(v)
  {
    var es' := RecordBatchField(es, attr, v);
    var e := LastEpoch(es');
    var ps := [Index(-1), Name("batches"), Index(-1), Name(attr)];
    IndexRowsStep(es', -1);
    RunOk(Rows(es'), ps, Dict(e));
    BatchesOf(e);
    var br := BatchRows(e);
    RunOk(Dict(e), ps[1..], Rows(br));
    assert ps[1..][1..] == [Index(-1), Name(attr)];
    RunTwo(Rows(br), Index(-1), Name(attr));
    IndexRowsStep(br, -1);
    assert Dict(br[|br| - 1]) == Batches(e)[|br| - 1];
    assert br[|br| - 1] == LastBatch(es');
    DictField(LastBatch(es'), attr);
  }

  // ---------------------------------------------------------------------
  // The mutation API records no marker
  // ---------------------------------------------------------------------

  /** The empty history holds no marker. */
  lemma EmptyHistoryIsClean()
    ensures CleanRows([]) && WellShaped([])
  {
  }

  /** `new_epoch` keeps every stored value free of markers. */
  lemma NewEpochKeepsClean(es: seq<Epoch>)
    requires CleanRows(es)
    ensures CleanRows(es + [EmptyEpoch()])
  {
    var es' := es + [EmptyEpoch()];
    forall j, f | 0 <= j < |es'| && f in es'[j] ensures Clean(es'[j][f]) {
      if j < |es| {
        assert es'[j] == es[j];
      } else {
        assert es'[j] == EmptyEpoch();
      }
    }
  }

  /** Replacing the last epoch by a marker-free row keeps the history free of markers. */
  lemma ReplaceLastKeepsClean(es: seq<Epoch>, e: Epoch)
    requires |es| > 0 && CleanRows(es)
    requires CleanRow(e)
    ensures CleanRows(es[..|es| - 1] + [e])
  {
    var r := es[..|es| - 1] + [e];
    forall j, f | 0 <= j < |r| && f in r[j] ensures Clean(r[j][f]) {
      if j < |es| - 1 {
        assert r[j] == es[j];
      }
    }
  }

  /** Setting one field of a marker-free row to a marker-free value keeps it free of markers. */
  lemma UpdateKeepsClean(m: map<string, Value>, attr: string, v: Value)
    requires CleanRow(m) && Clean(v)
    ensures CleanRow(m[attr := v])
  {
  }

  /** `new_batch` keeps every stored value free of markers. */
  lemma AppendBatchKeepsClean(es: seq<Epoch>)
    requires |es| > 0 && HasBatchList(LastEpoch(es)) && CleanRows(es)
    ensures CleanRows(AppendBatch(es))
  {
    var e := LastEpoch(es);
    var bs' := Batches(e) + [Dict(map[])];
    assert Clean(List(bs')) by {
      assert Clean(e["batches"]);
      forall b | 0 <= b < |bs'| ensures Clean(bs'[b]) {
        if b < |Batches(e)| {
          assert bs'[b] == e["batches"].items[b];
        }
      }
    }
    UpdateKeepsClean(e, "batches", List(bs'));
    ReplaceLastKeepsClean(es, e["batches" := List(bs')]);
  }

  /** `record(attr, v)` of a marker-free value keeps every stored value free of markers. */
  lemma RecordFieldKeepsClean(es: seq<Epoch>, attr: string, v: Value)
    requires |es| > 0 && CleanRows(es) && Clean(v)
    ensures CleanRows(RecordField(es, attr, v))
  {
    UpdateKeepsClean(LastEpoch(es), attr, v);
    ReplaceLastKeepsClean(es, LastEpoch(es)[attr := v]);
  }

  /** The current batch list after `record_batch(attr, v)` of a marker-free value is free of markers. */
  lemma BatchUpdateKeepsClean(bs: seq<Value>, attr: string, v: Value)
    requires |bs| > 0 && bs[|bs| - 1].Dict? && Clean(List(bs)) && Clean(v)
    ensures Clean(List(bs[..|bs| - 1] + [Dict(bs[|bs| - 1].fields[attr := v])]))
  {
    var n := |bs|;
    var b := bs[n - 1].fields;
    var bs' := bs[..n - 1] + [Dict(b[attr := v])];
    assert Clean(bs[n - 1]);
    assert CleanRow(b);
    UpdateKeepsClean(b, attr, v);
    forall c | 0 <= c < |bs'| ensures Clean(bs'[c]) {
      if c < n - 1 {
        assert bs'[c] == bs[c];
      }
    }
  }

  /** `record_batch(attr, v)` of a marker-free value keeps every stored value free of markers. */
  lemma RecordBatchFieldKeepsClean(es: seq<Epoch>, attr: string, v: Value)
    requires HasCurrentBatch(es) && CleanRows(es) && Clean(v)
    ensures CleanRows(RecordBatchField(es, attr, v))
  {
    var e := LastEpoch(es);
    var bs := Batches(e);
    var bs' := bs[..|bs| - 1] + [Dict(bs[|bs| - 1].fields[attr := v])];
    var nb := SameKind(e["batches"], bs');
    assert Clean(e["batches"]);
    assert Clean(List(bs));
    BatchUpdateKeepsClean(bs, attr, v);
    assert Clean(nb);
    UpdateKeepsClean(e, "batches", nb);
    ReplaceLastKeepsClean(es, e["batches" := nb]);
  }

  /** `record('batches', v)` with a value that is not a batch list leaves an epoch without one. */
  lemma RecordBatchesLosesShape(n: int)
    ensures WellShaped([EmptyEpoch()])
    ensures !WellShaped(RecordField([EmptyEpoch()], "batches", Scalar(n)))
  {
    var r := RecordField([EmptyEpoch()], "batches", Scalar(n));
    assert r[0]["batches"] == Scalar(n);
  }

  /**
   * `record('batches', ({},))` then `record_batch(attr, v)`: the dictionary
   * at the end of a batch tuple is updated, and the batches stay a tuple.
   */
  lemma RecordBatchIntoTuple(attr: string, v: Value)
    ensures var es := RecordField([EmptyEpoch()], "batches", Tuple([Dict(map[])]));
      HasCurrentBatch(es) &&
      RecordBatchField(es, attr, v) == [map["batches" := Tuple([Dict(map[attr := v])])]]
  {
    var t := Tuple([Dict(map[])]);
    var es := RecordField([EmptyEpoch()], "batches", t);
    assert EmptyEpoch()["batches" := t] == map["batches" := t];
    assert es == [map["batches" := t]];
    var r := RecordBatchField(es, attr, v);
    assert LastEpoch(r)["batches"] == Tuple([Dict(map[attr := v])]);
    assert LastEpoch(r) == map["batches" := Tuple([Dict(map[attr := v])])];
  }

  /** Recording the same field twice keeps only the later value. */
  lemma RecordLastWriteWins(es: seq<Epoch>, attr: string, v1: Value, v2: Value)
    requires |es| > 0
    ensures RecordField(RecordField(es, attr, v1), attr, v2) == RecordField(es, attr, v2)
  {
    var r1 := RecordField(es, attr, v1);
    assert r1[..|r1| - 1] == es[..|es| - 1];
    assert LastEpoch(r1)[attr := v2] == LastEpoch(es)[attr := v2];
  }

  /** Recording the same batch field twice keeps only the later value. */
  lemma RecordBatchLastWriteWins(es: seq<Epoch>, attr: string, v1: Value, v2: Value)
    requires HasCurrentBatch(es)
    ensures RecordBatchField(RecordBatchField(es, attr, v1), attr, v2) == RecordBatchField(es, attr, v2)
  {
    var e := LastEpoch(es);
    var bs := Batches(e);
    var b := bs[|bs| - 1].fields;
    var r1 := RecordBatchField(es, attr, v1);
    var e1 := LastEpoch(r1);
    var bs1 := Batches(e1);
    assert e1 == e["batches" := SameKind(e["batches"], bs[..|bs| - 1] + [Dict(b[attr := v1])])];
    assert bs1 == bs[..|bs| - 1] + [Dict(b[attr := v1])];
    assert bs1[..|bs1| - 1] == bs[..|bs| - 1];
    assert bs1[|bs1| - 1].fields[attr := v2] == b[attr := v2];
    assert r1[..|r1| - 1] == es[..|es| - 1];
    var x := SameKind(e["batches"], bs[..|bs| - 1] + [Dict(b[attr := v2])]);
    assert SameKind(e1["batches"], bs1[..|bs1| - 1] + [Dict(bs1[|bs1| - 1].fields[attr := v2])]) == x;
    assert e1["batches" := x] == e["batches" := x];
  }
}
