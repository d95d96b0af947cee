# bamboo observations and date tools, in Dafny

This project models the row store of bamboo, a service that keeps tabular datasets in MongoDB. It covers both generations of the `Observation` model and the date tools the newer one relies on. Every row of a dataset is stored as one document in the `observations` collection. Each document is stamped with the dataset's generation marker, `DATASET_OBSERVATION_ID`. Reads and deletes are forced onto the current generation by overwriting that key in the filter.

- `models/observation.py` (legacy model, imperative): `save` does three things in order:
  - it renames the frame's columns from labels to slugs;
  - it stamps every row with the generation marker;
  - it inserts the rows in batches. The loop flushes its buffer as soon as the buffer holds more than `DB_BATCH_SIZE` rows, so every batch flushed inside the loop has `DB_BATCH_SIZE + 1` rows.

  `find` decodes the query and select texts and forces the generation key. `delete` removes the current generation. `update` computes the columns that are new with respect to the stored rows, hands them to the schema updater, and then deletes and saves.
- `bamboo/models/observation.py` (mixed):
  - `delete_all` extends a filter, or its shared mutable default `{}`, with the generation key.
  - `find` turns an absent or false query into `{}` and rewrites timestamps for `datetime` columns. It reports a `ValueError` as `JSONError` and forces the generation key.
  - `save` builds the schema only when the record has none. It then renames the columns, joins the generation column and stores the rows. Finally it records the column count, the row count and the ready state.
- `bamboo/lib/datetools.py` (mixed):
  - Object columns, or the columns a schema declares `datetime`, are converted to dates all or nothing.
  - NaN and boolean cells are passed through unparsed.
  - The operator values of `datetime` filter keys become `fromtimestamp(int(value))`.

Modules:
- `Values` holds the cell values, exceptions, `Option` and `Result`.
- `Frames` holds frames, row dictionaries, renaming and stamping.
- `Store` holds the collection as a class with a `documents` sequence and an append-only `inserts` log, MongoDB filter matching and the dataset record.
- `DateTools`, `ModelsObservation` and `BambooObservation` hold the three source files.

Calls into code outside these files are parameters of the operations that make them:
- JSON decoding is `decode: string -> JsonResult`.
- `dateutil.parser.parse` is `parse: Value -> Result<DateTime>`.
- `datetime.fromtimestamp` is `fromTimestamp: int -> Result<DateTime>`.
- `build_schema`, `build_labels_to_slugs` and `update_schema` are plain function parameters.
- MongoDB's test of one filter entry against a document is `test: EntryTest`. The one property the model asks of it, `Store.IdEquality`, says that a plain string value on the generation key means equality.

## Model

| member | source | states |
|---|---|---|
| Frames.Rename | models/observation.py:66-71 | a column whose name is in `labels_to_slugs` gets its slug, any other keeps its name; order, dtypes, cells and height are kept |
| Frames.StampedRows | models/observation.py:73-76 | one row per frame row, each carrying the generation key with the dataset's marker |
| Frames.StampedRowContents | models/observation.py:70-75 | a stored row holds every renamed, unshadowed column's cell under its slug and the marker under the generation key |
| Frames.RowOfKeys | models/observation.py:74 | the keys of `row.to_dict()` are exactly the column names |
| Frames.RowOfLastWins | models/observation.py:74 | a column not shadowed by a later one of the same name contributes its own cell |
| Frames.DtypeMapKeys | models/observation.py:92 | `dframe.dtypes.to_dict()` has exactly one key per column name |
| Frames.JoinIdColumnStamps | bamboo/models/observation.py:102-106 | joining the id Series gives the same rows as stamping each row with the marker |
| Store.Matching | models/observation.py:46 | `find` returns exactly the stored documents the filter matches, in stored order |
| Store.Unmatched | models/observation.py:23-25 | `remove` keeps exactly the documents the filter does not match |
| Store.UnmatchedConcat | models/observation.py:23-25 | what `remove` keeps of appended documents is what it keeps of each part, in stored order |
| Store.UnmatchedNone | models/observation.py:23-25 | a filter matching no document keeps every document, in stored order |
| Store.RemovePartitions | models/observation.py:23-25 | what `remove` drops and what it keeps together make up the old documents (as multisets) |
| Store.MatchingConcat | models/observation.py:46 | matching over appended documents is matching over each part, in order |
| Store.MatchingAll | models/observation.py:46 | a filter matching every document selects all of them |
| Store.MatchingNone | models/observation.py:46 | a filter matching no document selects nothing |
| Store.RemovedNotFound | models/observation.py:96-98 | after `remove(filter)`, `find(filter)` returns nothing |
| Store.GenerationFilterSelects | models/observation.py:45-46 | a filter whose generation key is the marker selects only that generation; the bare generation filter selects all of it |
| Store.DeleteScope | bamboo/models/observation.py:27-30 | a delete through such a filter takes away only documents of the current generation and keeps every other generation |
| Store.Collection.Insert | models/observation.py:79 | `insert` appends the batch to the documents and one entry to the insert log |
| Store.Collection.Remove | models/observation.py:23-25 | `remove` keeps the unmatched documents and leaves the insert log alone |
| ModelsObservation.Chunks | models/observation.py:73-83 | the batches of `save`'s loop: while more than `DB_BATCH_SIZE` rows remain, the next `DB_BATCH_SIZE + 1` of them form a batch; a non-empty remainder forms the last batch |
| ModelsObservation.ChunksFlatten | models/observation.py:73-83 | the inserted batches concatenate back to the stamped rows: nothing lost, duplicated or reordered |
| ModelsObservation.ChunksMembers | models/observation.py:73-83 | every row of every batch is one of the stamped rows |
| ModelsObservation.ChunksShape | models/observation.py:77-83 | every batch but the last has `DB_BATCH_SIZE + 1` rows; the last has 1 to `DB_BATCH_SIZE + 1`; no batch at all iff no rows; the count is `ceil(n / (DB_BATCH_SIZE + 1))` |
| ModelsObservation.InsertedRowsCarryGeneration | models/observation.py:63-76 | every row handed to an insert carries the dataset's marker |
| ModelsObservation.SchemaDelta | models/observation.py:91-95 | `cols_to_add` holds exactly the incoming column names absent from the stored columns, each with its dtype; no stored column is passed |
| ModelsObservation.Observation.Delete | models/observation.py:19-25 | removes exactly the documents matching the generation filter; the insert log is unchanged |
| ModelsObservation.Observation.Find | models/observation.py:28-50 | an undecodable query or select raises `JSONError` with its message; when both decode but the query is absent, empty or not a dictionary, the raise is exactly `TypeError` for the item assignment; otherwise the filter is the client's with the generation key overwritten by the marker, and every returned document is of the current generation |
| ModelsObservation.Observation.Save | models/observation.py:53-83 | the schema is built only when absent; the frame is renamed; the insert log grows by exactly `Chunks` of the stamped rows and the documents by the stamped rows |
| ModelsObservation.Observation.InsertInBatches | models/observation.py:73-83 | over the row dictionaries of `iterrows`, the loop's inserts are exactly `Chunks` of the stamped rows, and the stored documents grow by the stamped rows in order |
| ModelsObservation.StampedRowsInGeneration | models/observation.py:73-76 | every row `save` stamps is of the dataset's current generation |
| ModelsObservation.ReplacedGenerationFound | models/observation.py:96-98 | after the generation's documents are removed and rows of that generation appended, the generation filter finds exactly those rows, in order |
| ModelsObservation.Observation.Update | models/observation.py:86-98 | `cols_to_add` is the schema delta against the previous generation; the dataset's schema is `update_schema`'s result on it, or, when that is absent, the one `save` builds from the frame's dtypes; the marker, counts and state are unchanged; the insert log grows by exactly `Chunks` of the new stamped rows; afterwards the documents are the other generations followed by the new stamped rows, and `find` returns exactly the new rows |
| DateTools.IsPotentialDate | bamboo/lib/datetools.py:53-54 | a cell is handed to the parser unless it is NaN or a boolean |
| DateTools.ParseCells | bamboo/lib/datetools.py:60-62 | the comprehension succeeds iff every candidate cell parses, giving each candidate's date and each NaN or boolean unchanged; otherwise it raises the first failure |
| DateTools.ConvertColumn | bamboo/lib/datetools.py:57-69 | all or nothing: the converted column when every candidate parses; otherwise the column exactly as it was for a `ValueError`/`OverflowError`, and the exception for anything else |
| DateTools.RecognizeColumnIdempotent | bamboo/lib/datetools.py:27-29 | recognising a column without booleans a second time changes nothing |
| DateTools.RecognizeDates | bamboo/lib/datetools.py:13-30 | object columns are converted and all others are unchanged, in column order; it succeeds iff every column's conversion does, else raises the first failing column's exception; the input frame is a value and is not changed |
| DateTools.RecognizeDatesFromSchema | bamboo/lib/datetools.py:33-50 | exactly the frame columns the schema declares `datetime` are converted, every other column is unchanged; a raise comes from one such column |
| DateTools.IsDateSimpletype | bamboo/lib/datetools.py:80-81 | a column schema is a date column exactly when its simple type is `datetime` |
| DateTools.PyInt | bamboo/lib/datetools.py:94 | `int(value)`: a boolean gives 0 or 1, an integer itself, a float truncates, NaN raises `ValueError`, base-10 text gives its value or raises `ValueError`, and any other value raises `TypeError` |
| DateTools.ConvertTimestamp | bamboo/lib/datetools.py:94 | `datetime.fromtimestamp(int(value))`: the date for the integer `int` gives, or the exception `int` or `fromtimestamp` raises, in that order |
| DateTools.Truncate | bamboo/lib/datetools.py:94 | `int(x)` of a float truncates toward zero |
| DateTools.PyIntRoundTrip | bamboo/lib/datetools.py:94 | `int(str(n)) == n` for every integer `n`: a check of the model of `int` on text against Python's own round trip |
| DateTools.NatTextDigits | bamboo/lib/datetools.py:94 | the decimal text of a natural number is all digits and denotes that number (the step behind `DateTools.PyIntRoundTrip`) |
| DateTools.TimestampTextConverts | bamboo/lib/datetools.py:94 | a filter value written as the decimal text of a timestamp `n` converts to `fromtimestamp(n)`'s date, or raises its exception |
| DateTools.RewriteOperators | bamboo/lib/datetools.py:92-95 | succeeds iff the filter value is a dictionary whose every operator value converts, giving the same operator keys mapped to dates; otherwise raises `AttributeError` or a failing value's exception |
| DateTools.RewrittenQuery | bamboo/lib/datetools.py:87-95 | the rewritten filter has the same keys; keys naming `datetime` columns keep their operator keys with every value a date; every other key is unchanged |
| DateTools.ParseTimestampQuery | bamboo/lib/datetools.py:84-96 | `{}` is returned unchanged; a dictionary filter succeeds iff every date key's operators convert, giving the rewritten filter, and otherwise raises a date key's failure; a non-dictionary filter raises `AttributeError` iff the schema has a `datetime` column |
| BambooObservation.InitialQuery | bamboo/models/observation.py:52-54 | an absent or empty text, or a decoded value Python counts as false, gives `{}`; an undecodable text gives the decoder's failure; a decoded value Python counts as true is taken as it is |
| BambooObservation.Reported | bamboo/models/observation.py:57-58 | a `ValueError` raised while reading the query is reported as `JSONError` with the `cannot decode query: ` prefix and its message; any other exception passes through unchanged |
| BambooObservation.Observation.DeleteAll | bamboo/models/observation.py:18-30 | the filter (the caller's, or the shared default) keeps its keys and gets the generation key set to the marker; the default never holds more than that key, so a call without a filter removes exactly the current generation; removed documents are all of the current generation |
| BambooObservation.Observation.Find | bamboo/models/observation.py:33-69 | an undecodable query, or a `ValueError` from the timestamp rewrite, raises `JSONError("cannot decode query: ...")`; other rewrite exceptions pass through; an undecodable select raises `JSONError("cannot decode select: ...")`; a non-dictionary query raises; otherwise the filter handed on is the rewritten query with the generation key set to the marker |
| BambooObservation.Observation.Save | bamboo/models/observation.py:71-116 | the schema is built only when absent; with a frame, the renamed rows stamped with the marker are stored; the record gets the schema's key count, the row count (0 without a frame) and the ready state; a frame whose renamed columns already include the generation key fails the join and nothing is stored or recorded |

## Left out

- Concurrency and asynchronous work: `call_async(dataset.summarize, dataset)` is not modelled, and neither is the window between delete and save in `update`.
- Calendar and time-zone behaviour: `dateutil` parsing and `datetime.fromtimestamp` are parameters, so only what they return or raise is modelled. `timegm` and the unix-time helpers at bamboo/lib/datetools.py:72-77 are not part of the core and are not modelled.
- pandas internals are simplified:
  - The dtype of a converted column (`DateTools.SeriesDtype`) is reduced to four cases: dates with NaN gaps, all NaN, all booleans, and object.
  - Frames use the default positional index.
  - `iterrows` is taken as row order.
- MongoDB internals: matching is a per-entry test (`Store.EntryTest`). The `_id` that pymongo adds to inserted documents is not modelled.
- `lib.mongo.mongo_to_df` is not part of this model. `update`'s `previous_dtypes` keys are taken to be the keys of the stored documents (`Store.StoredColumns`).
- `AbstractModel.batch_save` and `AbstractModel.find` are not part of this model:
  - the bamboo `Find` returns the arguments it hands on (`FindCall`);
  - `BambooObservation.Observation.Save` fixes the stored documents, but not how `batch_save` groups them into inserts.
- `dataset.schema` of the bamboo dataset is not part of this model. It is taken as the record's schema, or `{}` when there is none.
- `build_schema`, `build_labels_to_slugs` and `Dataset.update_schema` are parameters because their bodies are not part of this model.
- The constants `DB_BATCH_SIZE` and `DATASET_OBSERVATION_ID` are not part of this model:
  - the batch size is a parameter;
  - the generation key is a fixed string that no proof depends on.
- Exception messages are approximations. Their kinds and the `cannot decode query: ` / `cannot decode select: ` prefixes follow the code.
- A schema entry without `SIMPLETYPE` would raise `KeyError`; the model cannot express it, because every column schema has a simple type.
- DateTools.RecognizeDates: requires distinct column names. With a repeated name, pandas `dframe[column]` yields a frame instead of a column, which is not modelled.
- DateTools.RecognizeDatesFromSchema: requires distinct column names, for the same reason: with a repeated name, pandas `dframe[column]` yields a frame instead of a column, which is not modelled.
- DateTools.RecognizeColumnIdempotent: proved only for columns without boolean cells. A boolean keeps a converted column at object dtype, so a second pass would hand its dates to the parser.
- DateTools.PyInt: models Python's `int` on decoded JSON values only: booleans, integers, floats without infinities, NaN, and base-10 text. Text may hold only ASCII digits, ASCII whitespace around it and a sign directly before the digits. Python 2's `int()` on unicode text also accepts non-ASCII decimal digits, Unicode whitespace such as U+00A0, and whitespace between the sign and the digits; the model raises `ValueError` on those.
- ModelsObservation.Observation.Find: `Cursor.documents` holds whole documents. pymongo applies `select` as a projection of the returned fields (models/observation.py:46); the model only passes `select` on in the cursor.
- Store.Collection.Remove: keeps the remaining documents in insertion order, and `Store.Collection.Insert` appends. MongoDB's natural order promises neither, so "in order" in ModelsObservation.ReplacedGenerationFound and ModelsObservation.Observation.Update holds for this sequence model of the collection only.
- Store.IdEquality: a plain string on the generation key matches only a document whose value there is that string. MongoDB equality also matches a document whose value there is an array holding the string; documents that `save` stores never hold such an array there, because it stamps a string.
- Frames.RowOf: keeps every cell as it is. pandas `iterrows` upcasts each row to a common dtype, so an integer cell in a frame that also has a float column comes out as a float. Frames.StampedRowContents and the stored rows of `save` and `update` hold up to this cast.
- ModelsObservation.Observation.Update: requires that the decoder read `'{}'` as the empty dictionary. This is the default query of the `find` calls it makes.
- ModelsObservation.Observation.Save: the caller's frame is renamed in place in the source. The model returns the renamed frame as `renamed` instead.
- ModelsObservation.SchemaDelta: follows the code as written. It compares the incoming column labels, before `save` renames them, with the stored slugs, so a label that differs from its slug always counts as new.
- ModelsObservation.ChunksShape: the batch after the loop has 1 to `DB_BATCH_SIZE` rows. When `DB_BATCH_SIZE + 1` divides the row count, there is no such batch, and the last logged batch is a full one of `DB_BATCH_SIZE + 1` rows flushed inside the loop.
- bamboo/lib/io.py, bamboo/controllers/calculations.py, lib/constants.py and celeryconfig.py are not part of this model: they hold I/O, delegation to code that is not part of this model, and configuration.
