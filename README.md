# History of a training run, modelled in Dafny

`inferno/history.py` defines `History`, the log a neural-net trainer keeps:
a list of epoch dictionaries, each holding its list of batch dictionaries
under the reserved key `'batches'`. The class has two halves, and both are
modelled here.

- **The mutation API.** `new_epoch`, `new_batch`, `record`, `record_batch`
  and `to_list`. The class `HistoryLog.History` holds the epoch list as a
  `seq` field. Its methods reassign that field. Each method's `ensures` ties
  the new list to a pure state transformer (`AppendBatch`, `RecordField`,
  `RecordBatchField`). The contracts of those transformers say what changes
  and that nothing else does.
- **The query `history[sel]`.** A bare integer or slice is plain list
  indexing. Any other bare selector raises ValueError. A tuple of parts is
  applied part by part. Each part goes through `partial_index`, then
  `filter_missing`, and the captured KeyError is raised when the whole result
  is the marker.
  - `partial_index` distributes a part over lists of lists and over lists of
    rows. It joins the results of a group of parts positionally. It turns a
    failed dictionary lookup into a marker.
  - `filter_missing` drops markers from lists bottom-up. A non-empty list
    left with nothing collapses into its first marker.
  - Both are recursive functions in module `Indexer`. The loop over the
    parts is the method `HistoryLog.History.GetItem`, proved equal to the
    function `Indexer.Query`.

Modules and files:

- `values.dfy`:
  - `Wrappers`: `Option`.
  - `PyValues`: the Python values, the exceptions, and Python's negative
    indexing and step-one slicing.
- `indexer.dfy`:
  - `Indexer`: `partial_index`, `filter_missing`, one round of the part loop
    (`Step`), the loop (`RunParts`) and the whole query (`Query`).
- `indexer_properties.dfy`:
  - `IndexerProperties`: lemmas about those functions on the shapes a
    history has. These shapes are a list of rows, a single row, and a list of
    lists of rows.
  - It also holds independent reference definitions of the expected results:
    `Column`, `Joined` and `NestedColumn`.
- `history.dfy`:
  - `HistoryLog`: epochs, the state transformers, and the class.
- `history_properties.dfy`:
  - `HistoryProperties`: the queries of the class documentation
    (`inferno/history.py:27-43`), each on a well-shaped history whose
    recorded values hold no marker, and what a query shows right after each
    mutation.
  - The empty history meets both conditions (`EmptyHistoryIsClean`).
    `new_epoch`, `new_batch` and `record_batch` keep well-shapedness in
    their own `ensures`. `record` keeps it unless it overwrites `'batches'`
    with something other than a list of dictionaries: `record('batches', 5)`
    is accepted and leaves a history that is not well-shaped.
  - `NewEpochKeepsClean` and `AppendBatchKeepsClean` keep the absence of
    markers unconditionally. `RecordFieldKeepsClean` and
    `RecordBatchFieldKeepsClean` keep it for a value that holds no marker,
    which is all that `Record` and `RecordBatch` accept.

Value model:

- A `Value` is one of:
  - an opaque `Scalar`;
  - a `Dict` keyed by strings;
  - a `List` or a `Tuple`;
  - the marker `Missing(key)`, which carries the key of the KeyError it
    replaced.
- Exceptions are `KeyError(key)`, `IndexError`, `ValueError` and
  `Unsupported`. `Unsupported` stands for a TypeError, for example indexing a
  scalar or slicing a dictionary.
- `Clean(v)` means there is no marker anywhere in `v`. `Record` and
  `RecordBatch` accept only clean values.
- `Settled(v)` means no list reachable through lists holds a marker. Every
  step of the query produces a settled value.

Where the code and the class documentation differ, the model follows the
code:

- A column name applied to an empty list gives an empty list, not a
  KeyError. `filter_missing` keeps a list that was empty to begin with. So
  `h[:, 'x']` on an empty history is `[]`, and so is
  `h[-1, 'batches', :, 'x']` on an epoch with no batches.
- A group of zero names applied to a list gives an empty list, because
  `zip()` with no arguments is empty.
- Selecting batches from several epochs works as follows:
  - an epoch whose batches all lack the column is dropped;
  - an epoch with no batches stays, as an empty list;
  - the KeyError is raised only when every selected epoch is dropped.
- Markers can survive inside tuples. Take a list whose first element is a
  row `{a: 1}` and whose second is a list `[{b: 2}]`. The group `('a',)`
  does not unroll it, because the first element is not a list. It gives
  `[(1,), ([marker],)]`, and `filter_missing` does not look inside tuples
  (`MarkerInsideTuple`). So a successful result is only guaranteed free of
  markers at the top level and inside nested lists. `Step` and `Query` state
  exactly that (`Settled`).

## Model

| member | source | states |
|---|---|---|
| HistoryLog.History.constructor | inferno/history.py:1 | a new history holds no epoch |
| HistoryLog.History.NewEpoch | inferno/history.py:59-61 | the epoch list grows by exactly one row `{'batches': []}`; earlier epochs are unchanged; well-shapedness is kept |
| HistoryLog.History.NewBatch | inferno/history.py:63-65 | requires an epoch whose batches are a list; the new state is `AppendBatch` of the old one |
| HistoryLog.History.Record | inferno/history.py:67-74 | requires a non-empty history (the source's assert) and a value holding no marker; the new state is `RecordField` of the old one |
| HistoryLog.History.RecordBatch | inferno/history.py:76-81 | requires a last epoch whose `'batches'` is a list or a tuple ending in a dictionary (every other case raises in the source) and a value holding no marker; the new state is `RecordBatchField` of the old one |
| HistoryLog.History.ToList | inferno/history.py:83-85 | a list of exactly the epoch dictionaries, in order |
| HistoryLog.History.GetItem | inferno/history.py:139-148 | the loop over selector parts (index, filter, raise the captured KeyError on a marker) returns exactly `Query` of the epochs |
| HistoryLog.EmptyEpoch | inferno/history.py:61 | the new epoch row has only the key `'batches'`, mapped to an empty list |
| HistoryLog.AppendBatch | inferno/history.py:63-65 | earlier epochs unchanged; the last epoch's batches gain exactly one empty dictionary at the end; its other keys keep their values; well-shapedness is kept |
| HistoryLog.RecordField | inferno/history.py:67-74 | earlier epochs unchanged; the last epoch gains `attr` mapped to `v`; every other key keeps its value; well-shapedness is kept unless `'batches'` is overwritten with a non-batch-list |
| HistoryLog.RecordBatchField | inferno/history.py:76-81 | earlier epochs and earlier batches unchanged; the last batch gains `attr` mapped to `v`; its other keys and the epoch's other keys keep their values; the batches stay a list or a tuple as they were; well-shapedness is kept |
| HistoryProperties.RecordLastWriteWins | inferno/history.py:74 | recording the same field twice equals recording only the second value |
| HistoryProperties.RecordBatchLastWriteWins | inferno/history.py:76-81 | writing the same batch field twice equals writing only the second value |
| HistoryProperties.NewEpochThenQuery | inferno/history.py:59-61 | after `new_epoch`, `h[-1]` is `{'batches': []}` and `h[-1, 'batches']` is `[]` |
| HistoryProperties.NewBatchThenQuery | inferno/history.py:63-65 | after `new_batch`, `h[-1, 'batches', -1]` is `{}` |
| HistoryProperties.RecordThenQuery | inferno/history.py:67-74 | after `record(attr, v)`, `h[-1, attr]` is `v` |
| HistoryProperties.RecordBatchThenQuery | inferno/history.py:76-81 | after `record_batch(attr, v)`, `h[-1, 'batches', -1, attr]` is `v` |
| PyValues.At | inferno/history.py:88-89 | Python's `xs[i]`: defined exactly when `-len <= i < len`, takes the element counted from the end for a negative index, and raises IndexError otherwise |
| PyValues.PySlice | inferno/history.py:88-89 | Python's `xs[lo:hi]` with step one: bounds resolved and clamped as `slice.indices` does; the result is the run of elements between them |
| PyValues.CleanIsSettled | inferno/history.py:129-137 | a value with no marker anywhere is settled and is not a marker |
| Indexer.Query | inferno/history.py:87-148 | a bare integer selects the epoch Python's list indexing selects, or raises IndexError; a bare slice gives exactly the list of the epoch rows Python's slicing selects; ValueError exactly for a bare name or list; a successful result is neither a marker nor holds one in its lists |
| Indexer.RunParts | inferno/history.py:141-146 | no parts leave the value as it is; after at least one part, a result is settled and not a marker; the loop never raises ValueError |
| Indexer.Step | inferno/history.py:142-145 | one round never yields a marker (it is raised as its KeyError) and always yields a settled value |
| Indexer.PartialIndex | inferno/history.py:97-127 | when unrolling or indirection applies, the result is a list as long as the input; only IndexError or a TypeError escape, never a KeyError |
| Indexer.Lookup | inferno/history.py:124-127 | a dictionary lookup of a present name gives its value; an absent name or an integer gives the marker with that key; an integer on a list or tuple is Python's `xs[i]`, IndexError exactly when out of range; a slice on a list or tuple is Python's slice of it, of the same kind |
| Indexer.Join | inferno/history.py:110-114 | `incomplete_mapper`: a marker exactly when some element is one, and then the first such element; otherwise the tuple of the elements |
| Indexer.FirstMissing | inferno/history.py:111-113 | the first marker of the sequence, or none exactly when there is no marker |
| Indexer.Zip | inferno/history.py:117 | `zip(*cols)`: defined exactly when every argument is a list or tuple; as many tuples as the shortest argument; tuple `i` holds element `i` of every argument |
| Indexer.ZipLength | inferno/history.py:117 | the length of the shortest argument, zero for no argument |
| Indexer.AllOk | inferno/history.py:106 | a comprehension succeeds exactly when every element does; otherwise its exception is the first one raised |
| Indexer.Present | inferno/history.py:132 | `filter` of the non-markers: as long as the input at most; empty exactly when every element is a marker; the identity when none is |
| Indexer.PresentMembers | inferno/history.py:132 | a value is kept exactly when it is in the input and is not a marker |
| Indexer.PresentSettled | inferno/history.py:132-136 | dropping markers from settled values leaves a settled list |
| IndexerProperties.PresentConcat | inferno/history.py:132 | filtering distributes over concatenation, so kept values stay in their original order |
| Indexer.FilterMissing | inferno/history.py:129-137 | the result is settled; it is a marker exactly when the input is one or is a non-empty list all of whose filtered elements are markers, and then its key is the one reached through first elements; non-lists are unchanged |
| IndexerProperties.FilterListContents | inferno/history.py:129-137 | an empty list stays empty; a list that does not collapse is exactly `filter` of the non-markers applied to its filtered elements, in their order |
| IndexerProperties.FilterSettled | inferno/history.py:129-137 | filtering a settled value changes nothing |
| IndexerProperties.FilterIdempotent | inferno/history.py:129-137 | filtering twice is filtering once |
| IndexerProperties.FilterClean | inferno/history.py:129-137 | a recorded value passes the filter unchanged |
| IndexerProperties.FilterKeepsAll | inferno/history.py:129-137 | a list none of whose elements filters to a marker becomes the list of its filtered elements |
| IndexerProperties.Column | inferno/history.py:21-23 | reference: empty exactly when no row holds the key; every value comes from a row that holds it |
| IndexerProperties.IndirectRows | inferno/history.py:102-106 | a name on a list of rows is a lookup in every row, with the marker for rows that lack it |
| IndexerProperties.PresentLookups | inferno/history.py:129-137 | dropping the markers from the lookups leaves exactly `Column` |
| IndexerProperties.FilterLookups | inferno/history.py:129-137 | the filtered lookups are `Column`, or one marker when a non-empty list has no row with the key |
| IndexerProperties.ColumnOfRows | inferno/history.py:102-145 | `x[name]` on a list of rows: `[]` for no row; KeyError for the name when no row holds it; otherwise exactly the values of the rows that hold it, in row order |
| IndexerProperties.FirstAbsent | inferno/history.py:111-113 | the first name of the group that a row lacks; every earlier name is present |
| IndexerProperties.Joined | inferno/history.py:21-23 | reference: empty exactly when no row holds every name; every tuple is the values of a row that holds them all |
| IndexerProperties.JoinGets | inferno/history.py:110-121 | joining one row's lookups gives its tuple, or the marker of its first absent name |
| IndexerProperties.DictLookups | inferno/history.py:115 | each name of a group on one dictionary is a lookup in it |
| IndexerProperties.GroupOnDict | inferno/history.py:119-122 | a group of names on one row: the tuple of its values, or KeyError for the first absent name |
| IndexerProperties.PresentRowJoins | inferno/history.py:132 | dropping the marker rows of the joined rows leaves exactly `Joined` |
| IndexerProperties.ZipLookups | inferno/history.py:115-117 | zipping the per-name columns gives one tuple per row, holding that row's lookups |
| IndexerProperties.GroupLookups | inferno/history.py:115 | each name of a group on a list of rows gives that name's column of lookups |
| IndexerProperties.JoinColumns | inferno/history.py:116-118 | zipping and joining the columns gives every row's joined tuple or marker |
| IndexerProperties.GroupOnRowsDirty | inferno/history.py:109-122 | before filtering, a group on a list of rows is the list of every row's joined tuple or marker |
| IndexerProperties.FilterRowJoins | inferno/history.py:129-137 | filtering the joined rows gives `Joined`, or row 0's marker when no row holds every name |
| IndexerProperties.GroupOnRows | inferno/history.py:109-122 | a group on a list of rows: one tuple per row holding every name, in order; KeyError for row 0's first absent name when no row holds them all; `[]` for no row or no name |
| IndexerProperties.NestedSettled | inferno/history.py:129-137 | a list of lists of rows holds no marker in its lists |
| IndexerProperties.SliceRows | inferno/history.py:125 | slicing the rows of a list commutes with viewing them as dictionaries |
| IndexerProperties.DistributeNested | inferno/history.py:100-106 | on a non-empty list of lists, a part is applied to every inner list and the first exception wins |
| IndexerProperties.PlainLookup | inferno/history.py:124-127 | without unrolling, indirection or a group, `partial_index` is the plain lookup |
| IndexerProperties.IndexRows | inferno/history.py:124-125 | an integer on a list of rows is Python list indexing |
| IndexerProperties.SliceRowsPart | inferno/history.py:124-125 | a slice on a list of rows is Python list slicing |
| IndexerProperties.NestedIndexDirty | inferno/history.py:100-127 | an integer on a non-empty list of lists indexes every inner list; IndexError when it is out of range for any of them |
| IndexerProperties.UnrollIndex | inferno/history.py:100-127 | one round with an integer on a list of lists: the element it selects from every inner list; IndexError (never a marker) when any inner list is too short or the list is empty |
| IndexerProperties.NestedSliceDirty | inferno/history.py:100-125 | a slice on a list of lists slices every inner list |
| IndexerProperties.UnrollSlice | inferno/history.py:100-125 | one round with a slice on a list of lists slices every inner list |
| IndexerProperties.NestedColumn | inferno/history.py:21-23 | reference: empty exactly when every inner list is non-empty and lacks the key |
| IndexerProperties.PresentInnerColumns | inferno/history.py:132 | dropping the collapsed inner lists leaves exactly `NestedColumn` |
| IndexerProperties.NestedLookups | inferno/history.py:100-106 | a name on a list of lists is looked up in every row of every inner list |
| IndexerProperties.InnerFiltered | inferno/history.py:129-131 | each inner list's lookups filter to its column, or to the marker when it lacks the key |
| IndexerProperties.FilterInnerLookups | inferno/history.py:129-137 | filtering two levels gives `NestedColumn`, or one marker when every inner list lacks the key |
| IndexerProperties.ColumnOfNested | inferno/history.py:100-145 | a name on a list of lists of rows: each inner list's column, inner lists that lack the key dropped; KeyError only when every inner list is dropped |
| HistoryProperties.BatchRows | inferno/history.py:5-6 | the batch dictionaries of a well-shaped epoch, which viewed as rows are its `'batches'` field |
| HistoryProperties.BatchRowsClean | inferno/history.py:5-6 | the batches of a clean epoch are clean rows |
| HistoryProperties.SliceClean | inferno/history.py:125 | a slice of clean rows is clean |
| HistoryProperties.IndexRowsStep | inferno/history.py:124-125 | a round of an integer part on a list of rows (epochs or batches) selects one row, or raises IndexError |
| HistoryProperties.SliceRowsStep | inferno/history.py:124-125 | a round of a slice part on a list of rows (epochs or batches) selects the rows in range |
| HistoryProperties.RunOk | inferno/history.py:141-143 | a round that succeeds hands its value to the remaining parts |
| HistoryProperties.RunErr | inferno/history.py:141-145 | a round that raises ends the query with its exception |
| HistoryProperties.RunOne | inferno/history.py:141-146 | a one-part loop is one round |
| HistoryProperties.RunTwo | inferno/history.py:141-146 | a two-part loop is two rounds, stopping at the first exception |
| HistoryProperties.EpochColumnQuery | inferno/history.py:21-33 | `h[lo:hi, name]`: `[]` for no epoch selected; KeyError when no selected epoch holds the name; otherwise exactly their values of it, in order |
| HistoryProperties.EpochGroupQuery | inferno/history.py:21-35 | `h[lo:hi, (names)]`: one tuple per selected epoch holding every name, in order; KeyError when none does |
| HistoryProperties.LastEpochGroupQuery | inferno/history.py:119-122 | `h[-1, (names)]`: the current epoch's tuple; KeyError for its first absent name; IndexError for no epoch |
| HistoryProperties.BatchesOf | inferno/history.py:37 | `e['batches']` on one epoch is its batch rows |
| HistoryProperties.LastBatchList | inferno/history.py:37-39 | `h[-1, 'batches', i]` is the integer part applied to the current epoch's batch rows |
| HistoryProperties.LastBatchQuery | inferno/history.py:39 | `h[-1, 'batches', -1]` is the current batch; IndexError when there is no epoch or no batch |
| HistoryProperties.LastEpochBatchColumnQuery | inferno/history.py:21-41 | `h[-1, 'batches', lo:hi, name]`: the values of the selected batches that hold the name, in order; `[]` for no batch; KeyError when none holds it |
| HistoryProperties.ColumnOfAll | inferno/history.py:102-106 | when every row holds the key, the column is every row's value |
| HistoryProperties.AllBatchRows | inferno/history.py:5-6 | the batch rows of each epoch, in epoch order |
| HistoryProperties.BatchesOfAll | inferno/history.py:102-106 | `x['batches']` on well-shaped epochs is the list of their batch lists |
| HistoryProperties.SliceShaped | inferno/history.py:12 | a slice of well-shaped epochs is well-shaped |
| HistoryProperties.SelectedBatches | inferno/history.py:12-17 | the selected batches of each selected epoch, one list per epoch |
| HistoryProperties.SelectedBatchesClean | inferno/history.py:12-17 | the selected batches of clean epochs are clean rows |
| HistoryProperties.SelectBatches | inferno/history.py:12-17 | the first three parts of `h[lo:hi, 'batches', blo:bhi, name]` give the selected batch lists |
| HistoryProperties.AllBatchesColumnQuery | inferno/history.py:12-23 | `h[lo:hi, 'batches', blo:bhi, name]`: per selected epoch, the values of its selected batches that hold the name; epochs whose batches all lack it are dropped; KeyError only when all are |
| HistoryProperties.DictField | inferno/history.py:124-125 | looking up a recorded field of one dictionary gives its value |
| IndexerProperties.MixedColumn | inferno/history.py:100-127 | a name on a list whose first element is a row and whose second is a list of rows: the row's value, then the inner list of lookups with its marker |
| IndexerProperties.ZipOne | inferno/history.py:117 | zipping a single list gives one one-element tuple per element |
| IndexerProperties.GroupOfOneName | inferno/history.py:109-122 | a one-name group on a list that is not unrolled joins the name's lookups one by one |
| IndexerProperties.MarkerInsideTuple | inferno/history.py:100-137 | the group `('a',)` on `[{a: v}, [{b: w}]]` gives `[(v,), ([marker],)]`: the marker survives inside a tuple after filtering |
| HistoryProperties.LastEpochBatchesQuery | inferno/history.py:37 | `h[-1, 'batches']` is the current epoch's batch list; IndexError for no epoch |
| HistoryProperties.LastEpochBatchSlice | inferno/history.py:37-43 | `h[-1, 'batches', lo:hi, p]` is the part `p` applied to the selected batch rows of the current epoch |
| HistoryProperties.LastEpochBatchGroupQuery | inferno/history.py:43 | `h[-1, 'batches', lo:hi, (names)]`: one tuple per selected batch holding every name, in order; KeyError for the first selected batch's first absent name when none holds them all; `[]` for no batch or no name |
| HistoryProperties.EmptyHistoryIsClean | inferno/history.py:1 | the empty history is well-shaped and holds no marker |
| HistoryProperties.NewEpochKeepsClean | inferno/history.py:59-61 | adding an epoch row keeps the history free of markers |
| HistoryProperties.ReplaceLastKeepsClean | inferno/history.py:65-81 | replacing the current epoch by a marker-free row keeps the history free of markers |
| HistoryProperties.UpdateKeepsClean | inferno/history.py:74 | storing a marker-free value in a marker-free row keeps it marker-free |
| HistoryProperties.AppendBatchKeepsClean | inferno/history.py:63-65 | adding a batch row keeps the history free of markers |
| HistoryProperties.RecordFieldKeepsClean | inferno/history.py:67-74 | recording a marker-free value keeps the history free of markers |
| HistoryProperties.BatchUpdateKeepsClean | inferno/history.py:81 | storing a marker-free value in the last batch keeps the batch list marker-free |
| HistoryProperties.RecordBatchFieldKeepsClean | inferno/history.py:76-81 | recording a marker-free batch value keeps the history free of markers |
| HistoryProperties.RecordBatchesLosesShape | inferno/history.py:67-74 | `record('batches', n)` with a scalar is accepted and leaves a history that is not well-shaped |
| HistoryProperties.RecordBatchIntoTuple | inferno/history.py:76-81 | after `record('batches', ({},))`, `record_batch(attr, v)` updates the dictionary at the end of the tuple, and the batches stay a tuple |

## Left out

- Python's runtime type dispatch is replaced by tagged datatypes: `Part` for selector parts and `Selector` for a bare object or a tuple.
  - `bool` counting as `int` is not modelled.
  - Selectors of other types (floats, arbitrary objects) are not modelled.
- Slices with a step, and slice bounds that are not integers, are not modelled.
- Slicing a dictionary is modelled as a TypeError (`Unsupported`), which is what Python raises before version 3.12. From 3.12 on, slices are hashable and the lookup would become a marker.
- Iterating a dictionary inside a group is modelled as `Unsupported`. In Python, `zip` over a dictionary would iterate its keys. The case arises when a group containing an integer part is applied to a list of rows, for example `h[-1, 'batches', (0,)]` or `h[-1, 'batches', (0, 'loss')]`: the integer picks a row, a dictionary, which `zip` then iterates.
- Field values are opaque scalars. Indexing one (for example a string by an integer) is `Unsupported`, a TypeError, and is not followed further.
- `History` is a `list` subclass. The model keeps only its epoch list, so it does not show whether `h[lo:hi]` is a `History` or a plain list.
- Building a history from an existing list, and the list methods it inherits (`append`, `pop`, ...), are not part of this model. Only the empty constructor and the named mutations are modelled.
- `HistoryLog.History.NewBatch`, `HistoryLog.History.RecordBatch`: the model states the failing cases as preconditions instead of as an error path. `record_batch` is accepted wherever the source succeeds: on a list or a tuple of batches ending in a dictionary. In the source the failing cases raise:
  - IndexError when there is no epoch, or no batch for `record_batch`;
  - KeyError when the epoch has no `'batches'`, and KeyError(-1) when `record_batch` finds a dictionary there (`inferno/history.py:81`);
  - AttributeError when `new_batch` finds something other than a list there (`inferno/history.py:65`);
  - TypeError when `record_batch` finds a scalar there, or a last batch that is not a dictionary.
- `HistoryLog.History.Record`, `HistoryLog.History.RecordBatch`: a recorded value must hold no marker. In Python a caller could record the result of an earlier query that holds a marker inside a tuple; that marker is a plain object to later queries, because each `__getitem__` call creates its marker class afresh (`inferno/history.py:91`). The model would treat it as a live marker, so it does not accept such a value.
- `HistoryLog.History.Record`: the source asserts a non-empty history, and that assert disappears under `python -O`. The model keeps it as a precondition.
- The marker's `__repr__` and the text of error messages are not modelled.
- Aliasing is not modelled: a recorded value that the caller later mutates, or an epoch dictionary shared between histories.
- Concurrency is not modelled.
- The surrounding training loop that calls the API is outside this model.

