/**
 * The training history: a list of epoch dictionaries, each holding its
 * list of batch dictionaries under the reserved key "batches". The class
 * holds the mutation API and the loop of `__getitem__`; the functions
 * before it say what each mutation does to the epoch list.
 */
module HistoryLog {
  import opened PyValues
  import opened Indexer

  /** One epoch row: field name to value, with the batch list under "batches". */
  type Epoch = map<string, Value>

  /** The row `new_epoch` appends: no field but an empty batch list. */
  function EmptyEpoch(): (e: Epoch)
    ensures e.Keys == {"batches"} && e["batches"] == List([])
  {
    map["batches" := List([])]
  }

  function LastEpoch(es: seq<Epoch>): Epoch
    requires |es| > 0
  {
    es[|es| - 1]
  }

  /** The epoch's "batches" field is a list, so a batch can be appended to it. */
  predicate HasBatchList(e: Epoch) {
    "batches" in e && e["batches"].List?
  }

  /** The epoch's "batches" field is a list or a tuple, so its last element can be taken. */
  predicate HasBatchSeq(e: Epoch) {
    "batches" in e && Iterable(e["batches"])
  }

  function Batches(e: Epoch): seq<Value>
    requires HasBatchSeq(e)
  {
    e["batches"].items
  }

  /** The sequence `bs` as a value of the same kind, list or tuple, as `like`. */
  function SameKind(like: Value, bs: seq<Value>): (r: Value)
    requires Iterable(like)
    ensures r.List? == like.List? && r.Tuple? == like.Tuple? && r.items == bs
  {
    if like.List? then List(bs) else Tuple(bs)
  }

  /** A batch list of dictionaries, as the rows the indexer sees. */
  predicate IsBatchList(v: Value) {
    v.List? && forall b :: 0 <= b < |v.items| ==> v.items[b].Dict?
  }

  /** The epoch holds a list of batch dictionaries, as the mutation API builds it. */
  predicate EpochShaped(e: Epoch) {
    "batches" in e && IsBatchList(e["batches"])
  }

  predicate WellShaped(es: seq<Epoch>) {
    forall j :: 0 <= j < |es| ==> EpochShaped(es[j])
  }

  /** There is a current batch that a field can be written into. */
  predicate HasCurrentBatch(es: seq<Epoch>) {
    |es| > 0 && HasBatchSeq(LastEpoch(es)) && |Batches(LastEpoch(es))| > 0 &&
    Batches(LastEpoch(es))[|Batches(LastEpoch(es))| - 1].Dict?
  }

  function LastBatch(es: seq<Epoch>): map<string, Value>
    requires HasCurrentBatch(es)
  {
    var bs := Batches(LastEpoch(es));
    bs[|bs| - 1].fields
  }

  /** The epoch list after `new_batch`: one empty dictionary more in the last epoch's batches. */
  function AppendBatch(es: seq<Epoch>): (r: seq<Epoch>)
    requires |es| > 0 && HasBatchList(LastEpoch(es))
    ensures |r| == |es| && r[..|es| - 1] == es[..|es| - 1]
    ensures HasBatchList(LastEpoch(r))
    ensures Batches(LastEpoch(r)) == Batches(LastEpoch(es)) + [Dict(map[])]
    ensures LastEpoch(r).Keys == LastEpoch(es).Keys
    ensures forall k :: k in LastEpoch(es) && k != "batches" ==> LastEpoch(r)[k] == LastEpoch(es)[k]
    ensures WellShaped(es) ==> WellShaped(r)
  {
    var e := LastEpoch(es);
    es[..|es| - 1] + [e["batches" := List(Batches(e) + [Dict(map[])])]]
  }

  /** The epoch list after `record(attr, v)`: the last epoch maps `attr` to `v`; nothing else changes. */
  function RecordField(es: seq<Epoch>, attr: string, v: Value): (r: seq<Epoch>)
    requires |es| > 0
    ensures |r| == |es| && r[..|es| - 1] == es[..|es| - 1]
    ensures LastEpoch(r).Keys == LastEpoch(es).Keys + {attr}
    ensures LastEpoch(r)[attr] == v
    ensures forall k :: k in LastEpoch(es) && k != attr ==> LastEpoch(r)[k] == LastEpoch(es)[k]
    ensures WellShaped(es) && (attr != "batches" || IsBatchList(v)) ==> WellShaped(r)
  {
    es[..|es| - 1] + [LastEpoch(es)[attr := v]]
  }

  /**
   * The epoch list after `record_batch(attr, v)`: the last batch of the last
   * epoch maps `attr` to `v`; every other batch, field and epoch is unchanged,
   * and the batches stay a list or a tuple as they were.
   */
  function RecordBatchField(es: seq<Epoch>, attr: string, v: Value): (r: seq<Epoch>)
    requires HasCurrentBatch(es)
    ensures |r| == |es| && r[..|es| - 1] == es[..|es| - 1]
    ensures HasCurrentBatch(r)
    ensures var bs, bs' := Batches(LastEpoch(es)), Batches(LastEpoch(r));
            |bs'| == |bs| && bs'[..|bs| - 1] == bs[..|bs| - 1]
    ensures LastBatch(r).Keys == LastBatch(es).Keys + {attr}
    ensures LastBatch(r)[attr] == v
    ensures forall k :: k in LastBatch(es) && k != attr ==> LastBatch(r)[k] == LastBatch(es)[k]
    ensures LastEpoch(r)["batches"].List? == LastEpoch(es)["batches"].List?
    ensures LastEpoch(r).Keys == LastEpoch(es).Keys
    ensures forall k :: k in LastEpoch(es) && k != "batches" ==> LastEpoch(r)[k] == LastEpoch(es)[k]
    ensures WellShaped(es) ==> WellShaped(r)
  {
    var e := LastEpoch(es);
    var bs := Batches(e);
    var b := bs[|bs| - 1].fields;
    es[..|es| - 1] + [e["batches" := SameKind(e["batches"], bs[..|bs| - 1] + [Dict(b[attr := v])])]]
  }

  /** `History`: the epoch list, with the mutation API and indexing. */
  class History {
    var epochs: seq<Epoch>

    /** `History()`: an empty history. */
    constructor ()
      ensures epochs == []
    {
      epochs := [];
    }

    /** `new_epoch`: append one epoch row holding only an empty batch list. */
    method NewEpoch()
      modifies this
      ensures epochs == old(epochs) + [EmptyEpoch()]
      ensures WellShaped(old(epochs)) ==> WellShaped(epochs)
    {
      epochs := epochs + [EmptyEpoch()];
    }

    /** `new_batch`: append one empty batch to the current epoch. */
    method NewBatch()
      requires |epochs| > 0 && HasBatchList(LastEpoch(epochs))
      modifies this
      ensures epochs == AppendBatch(old(epochs))
    {
      epochs := AppendBatch(epochs);
    }

    /**
     * `record`: set one field of the current epoch (the source asserts an
     * epoch exists). A recorded value holds no marker.
     */
    method Record(attr: string, v: Value)
      requires |epochs| > 0 && Clean(v)
      modifies this
      ensures epochs == RecordField(old(epochs), attr, v)
    {
      epochs := RecordField(epochs, attr, v);
    }

    /**
     * `record_batch`: set one field of the current batch of the current
     * epoch. A recorded value holds no marker.
     */
    method RecordBatch(attr: string, v: Value)
      requires HasCurrentBatch(epochs) && Clean(v)
      modifies this
      ensures epochs == RecordBatchField(old(epochs), attr, v)
    {
      epochs := RecordBatchField(epochs, attr, v);
    }

    /** `to_list`: the plain list of the epoch dictionaries, in order. */
    function ToList(): (r: Value)
      reads this
      ensures r.List? && |r.items| == |epochs|
      ensures forall j :: 0 <= j < |epochs| ==> r.items[j] == Dict(epochs[j])
    {
      Rows(epochs)
    }

    /**
     * `history[sel]`: plain list indexing for a bare integer or slice,
     * ValueError for any other bare selector, and for a tuple the loop that
     * applies each part, filters the markers out, and raises the captured
     * KeyError when the whole result is a marker.
     */
    method GetItem(sel: Selector) returns (r: Result<Value>)
      ensures r == Query(epochs, sel)
    {
      match sel {
        case Bare(p) =>
          match p {
            case Index(i) => r := At(ToList().items, i);
            case Slice(lo, hi) => r := Ok(List(PySlice(ToList().items, lo, hi)));
            case _ => r := Err(ValueError);
          }
        case Composite(ps) =>
          var x := ToList();
          var k := 0;
          while k < |ps|
            invariant 0 <= k <= |ps|
            invariant RunParts(Rows(epochs), ps) == RunParts(x, ps[k..])
          {
            assert ps[k..][0] == ps[k] && ps[k..][1..] == ps[k + 1..];
            var dirty := PartialIndex(x, ps[k]);
            if dirty.Err? {
              return Err(dirty.error);
            }
            x := FilterMissing(dirty.value);
            if x.Missing? {
              return Err(KeyError(x.key));
            }
            k := k + 1;
          }
          r := Ok(x);
      }
    }
  }
}
