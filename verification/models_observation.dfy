/**
 * The observation model of models/observation.py: saving a frame's rows in
 * batches stamped with the dataset's generation marker, finding and deleting
 * the rows of the active generation, and replacing them wholesale.
 */
module ModelsObservation {
  import opened Values
  import opened Frames
  import opened Store

  // ---------------------------------------------------------------------------
  // Batches

  /** The batches of `save`'s insert loop, which flushes as soon as it holds more than `batchSize` rows. */
  function Chunks(rows: seq<Row>, batchSize: nat): seq<seq<Row>>
    decreases |rows|
  {
    if rows == [] then []
    else if |rows| <= batchSize then [rows]
    else [rows[..batchSize + 1]] + Chunks(rows[batchSize + 1..], batchSize)
  }

  /** Concatenation of batches, in order. */
  function Flatten(batches: seq<seq<Row>>): seq<Row>
    decreases |batches|
  {
    if batches == [] then [] else batches[0] + Flatten(batches[1..])
  }

  /** The batches concatenate back to the input: no row is lost, duplicated or reordered. */
  lemma {:induction false} ChunksFlatten(rows: seq<Row>, batchSize: nat)
    ensures Flatten(Chunks(rows, batchSize)) == rows
    decreases |rows|
  {
    if |rows| > batchSize {
      var rest := rows[batchSize + 1..];
      ChunksFlatten(rest, batchSize);
      assert Chunks(rows, batchSize)[1..] == Chunks(rest, batchSize);
      assert rows == rows[..batchSize + 1] + rest;
    }
  }

  /** Every row of every batch is a row of the input. */
  lemma {:induction false} ChunksMembers(rows: seq<Row>, batchSize: nat)
    ensures forall k, r :: 0 <= k < |Chunks(rows, batchSize)| && r in Chunks(rows, batchSize)[k] ==> r in rows
    decreases |rows|
  {
    if |rows| > batchSize {
      var rest := rows[batchSize + 1..];
      ChunksMembers(rest, batchSize);
      forall k, r | 0 <= k < |Chunks(rows, batchSize)| && r in Chunks(rows, batchSize)[k]
        ensures r in rows
      {
        if k > 0 {
          assert Chunks(rows, batchSize)[k] == Chunks(rest, batchSize)[k - 1];
          assert r in rest;
        }
      }
    }
  }

  /**
   * The shape of the insert log: every batch but the last holds exactly
   * `batchSize + 1` rows (flushed inside the loop), the last between 1 and
   * `batchSize + 1` (flushed after the loop, or inside it when the count
   * divides evenly), so there are `ceil(n / (batchSize + 1))` batches for `n`
   * rows and an empty frame inserts nothing.
   */
  lemma {:induction false} ChunksShape(rows: seq<Row>, batchSize: nat)
    ensures var batches := Chunks(rows, batchSize);
            && (batches == [] <==> rows == [])
            && (forall k :: 0 <= k < |batches| - 1 ==> |batches[k]| == batchSize + 1)
            && (batches != [] ==>
                  && 1 <= |batches[|batches| - 1]| <= batchSize + 1
                  && |rows| == (|batches| - 1) * (batchSize + 1) + |batches[|batches| - 1]|)
    decreases |rows|
  {
    var m := batchSize + 1;
    if |rows| > batchSize {
      var rest := rows[m..];
      ChunksShape(rest, batchSize);
      var batches, tail := Chunks(rows, batchSize), Chunks(rest, batchSize);
      assert batches == [rows[..m]] + tail;
      if tail != [] {
        assert batches[|batches| - 1] == tail[|tail| - 1];
        assert (|batches| - 1) * m == (|tail| - 1) * m + m;
      }
    }
  }

  /** Every row handed to an insert carries the generation marker it was stamped with. */
  lemma InsertedRowsCarryGeneration(frame: Frame, id: string, batchSize: nat)
    requires frame.Rectangular()
    ensures forall k, r :: 0 <= k < |Chunks(StampedRows(frame, id), batchSize)| && r in Chunks(StampedRows(frame, id), batchSize)[k] ==>
              InGeneration(r, id)
  {
    var stamped := StampedRows(frame, id);
    ChunksMembers(stamped, batchSize);
    forall r | r in stamped ensures InGeneration(r, id) {
      var i :| 0 <= i < |stamped| && stamped[i] == r;
    }
  }

  // ---------------------------------------------------------------------------
  // Update

  /** Every stamped row is of the generation it was stamped with. */
  lemma StampedRowsInGeneration(frame: Frame, id: string)
    requires frame.Rectangular()
    ensures forall d :: d in StampedRows(frame, id) ==> InGeneration(d, id)
  {
    forall d | d in StampedRows(frame, id) ensures InGeneration(d, id) {
      var i :| 0 <= i < frame.height && StampedRows(frame, id)[i] == d;
    }
  }

  /**
   * Delete-then-save replaces a generation: once the documents of generation
   * `id` are removed and `stored` (all of generation `id`) appended, the
   * generation filter finds exactly `stored`, in order.
   */
  lemma ReplacedGenerationFound(docs: seq<Row>, stored: seq<Row>, id: string, test: EntryTest)
    requires IdEquality(test)
    requires forall d :: d in stored ==> InGeneration(d, id)
    ensures Matching(Unmatched(docs, GenerationFilter(id), test) + stored, GenerationFilter(id), test) == stored
  {
    var filter := GenerationFilter(id);
    MatchingConcat(Unmatched(docs, filter, test), stored, filter, test);
    RemovedNotFound(docs, filter, test);
    forall d | d in stored ensures Matches(d, filter, test) {
      GenerationFilterSelects(filter, id, test, d);
    }
    MatchingAll(stored, filter, test);
  }

  /**
   * `cols_to_add` of `update`: the incoming columns, with their dtypes,
   * whose names do not occur among the columns of the stored rows.
   */
  function SchemaDelta(frame: Frame, previous: seq<Row>): (delta: map<string, DType>)
    ensures delta.Keys == NameSet(frame.columns) - StoredColumns(previous)
    ensures forall n :: n in delta ==> n in DtypeMap(frame.columns) && delta[n] == DtypeMap(frame.columns)[n]
  {
    var dtypes := DtypeMap(frame.columns);
    DtypeMapKeys(frame.columns);
    map n | n in dtypes && n !in StoredColumns(previous) :: dtypes[n]
  }

  /** What `collection.find` is handed and what it returns. */
  datatype Cursor = Cursor(filter: Query, select: Option<Value>, documents: seq<Row>)

  /**
   * A full buffer is the next batch: after flushing it, the batches still to
   * come are those of the rows from `i + 1` on, and the stored documents and
   * the insert log (after whatever they held before, `docs0` and `log0`)
   * have grown by it.
   */
  lemma FlushStep(rows: seq<Row>, done: seq<seq<Row>>, start: nat, i: nat, batchSize: nat,
                  docs0: seq<Row>, log0: seq<seq<Row>>)
    requires start <= i < |rows| && i + 1 - start == batchSize + 1
    requires Chunks(rows, batchSize) == done + Chunks(rows[start..], batchSize)
    ensures Chunks(rows, batchSize) == (done + [rows[start..i + 1]]) + Chunks(rows[i + 1..], batchSize)
    ensures (docs0 + rows[..start]) + rows[start..i + 1] == docs0 + rows[..i + 1]
    ensures (log0 + done) + [rows[start..i + 1]] == log0 + (done + [rows[start..i + 1]])
  {
    assert rows[..start] + rows[start..i + 1] == rows[..i + 1];
    assert rows[start..][..batchSize + 1] == rows[start..i + 1];
    assert rows[start..][batchSize + 1..] == rows[i + 1..];
    assert Chunks(rows[start..], batchSize) == [rows[start..i + 1]] + Chunks(rows[i + 1..], batchSize);
  }

  /** What is left in the buffer after the loop is the last batch, if any. */
  lemma FinalStep(rows: seq<Row>, done: seq<seq<Row>>, start: nat, batchSize: nat,
                  docs0: seq<Row>, log0: seq<seq<Row>>)
    requires start <= |rows| && |rows| - start <= batchSize
    requires Chunks(rows, batchSize) == done + Chunks(rows[start..], batchSize)
    ensures start == |rows| ==> log0 + Chunks(rows, batchSize) == log0 + done && docs0 + rows[..start] == docs0 + rows
    ensures start < |rows| ==> log0 + Chunks(rows, batchSize) == (log0 + done) + [rows[start..|rows|]]
    ensures start < |rows| ==> (docs0 + rows[..start]) + rows[start..|rows|] == docs0 + rows
  {
    assert rows[..start] + rows[start..|rows|] == rows;
    assert rows[start..] == rows[start..|rows|];
  }

  /** The `Observation` class; its class methods act on the `observations` collection. */
  class Observation {
    const collection: Collection

    constructor(collection: Collection)
      ensures this.collection == collection
    {
      this.collection := collection;
    }

    /** `delete`: removes every document of the dataset's current generation. */
    method Delete(dataset: Dataset, test: EntryTest)
      modifies collection
      ensures collection.documents == Unmatched(old(collection.documents), GenerationFilter(dataset.observationId), test)
      ensures collection.inserts == old(collection.inserts)
    {
      collection.Remove(GenerationFilter(dataset.observationId), test);
    }

    /**
     * `find`: decodes the query and the select text when given; a decode
     * failure raises `JSONError`. The decoded query's generation key is then
     * forced to the dataset's marker, whatever the client sent, so only rows
     * of the active generation are returned.
     */
    method Find(dataset: Dataset, query: Option<string>, select: Option<string>,
                decode: string -> JsonResult, test: EntryTest) returns (r: Result<Cursor>)
      ensures IsGiven(query) && decode(query.value).Malformed? ==>
                r == Raise(JSONError(QueryError + decode(query.value).reason))
      ensures (!IsGiven(query) || decode(query.value).Parsed?) && IsGiven(select) && decode(select.value).Malformed? ==>
                r == Raise(JSONError(SelectError + decode(select.value).reason))
      ensures !(IsGiven(query) && decode(query.value).Malformed?) && !(IsGiven(select) && decode(select.value).Malformed?) &&
              !(IsGiven(query) && decode(query.value).Parsed? && decode(query.value).value.Doc?) ==>
                r == Raise(NotAssignable)
      ensures r.Ok? <==> IsGiven(query) && decode(query.value).Parsed? && decode(query.value).value.Doc? &&
                         (IsGiven(select) ==> decode(select.value).Parsed?)
      ensures r.Ok? ==> var sent := decode(query.value).value.fields;
                        && ObservationIdKey in r.value.filter && r.value.filter[ObservationIdKey] == Str(dataset.observationId)
                        && (forall k :: k != ObservationIdKey ==> (k in r.value.filter <==> k in sent))
                        && (forall k :: k in sent && k != ObservationIdKey ==> r.value.filter[k] == sent[k])
                        && r.value.documents == collection.Find(r.value.filter, test)
                        && r.value.select == (if select.None? then None else if select.value == "" then Some(Str("")) else Some(decode(select.value).value))
      ensures r.Ok? && IdEquality(test) ==> forall d :: d in r.value.documents ==> InGeneration(d, dataset.observationId)
    {
      var decodedQuery: Option<Value> := None;
      if IsGiven(query) {
        match decode(query.value)
        case Malformed(reason) =>
          return Raise(JSONError(QueryError + reason));
        case Parsed(v) =>
          decodedQuery := Some(v);
      }
      // A false select text is handed on as it is.
      var decodedSelect: Option<Value> := if select.None? then None else Some(Str(select.value));
      if IsGiven(select) {
        match decode(select.value)
        case Malformed(reason) =>
          return Raise(JSONError(SelectError + reason));
        case Parsed(v) =>
          decodedSelect := Some(v);
      }
      if decodedQuery.None? || !decodedQuery.value.Doc? {
        return Raise(NotAssignable);
      }
      var filter := decodedQuery.value.fields[ObservationIdKey := Str(dataset.observationId)];
      var found := collection.Find(filter, test);
      if IdEquality(test) {
        forall d | d in found ensures InGeneration(d, dataset.observationId) {
          GenerationFilterSelects(filter, dataset.observationId, test, d);
        }
      }
      r := Ok(Cursor(filter, decodedSelect, found));
    }

    /**
     * `save`: builds the schema when the dataset has none, renames the
     * columns through `labels_to_slugs` (returned as `renamed`, the caller's
     * frame after the call), stamps every row with the generation marker and
     * inserts the rows in batches of more than `batchSize` rows each, the
     * remainder last.
     */
    method Save(frame: Frame, dataset: Dataset, batchSize: nat,
                buildSchema: seq<(string, DType)> -> Schema,
                buildLabelsToSlugs: Schema -> map<string, string>) returns (renamed: Frame)
      requires frame.Rectangular()
      modifies collection, dataset
      ensures dataset.schema == if old(dataset.schema).None? then Some(buildSchema(Dtypes(frame))) else old(dataset.schema)
      ensures dataset.observationId == old(dataset.observationId)
      ensures dataset.numColumns == old(dataset.numColumns) && dataset.numRows == old(dataset.numRows)
      ensures dataset.state == old(dataset.state)
      ensures renamed == Rename(frame, buildLabelsToSlugs(dataset.schema.value))
      ensures collection.inserts == old(collection.inserts) + Chunks(StampedRows(renamed, dataset.observationId), batchSize)
      ensures collection.documents == old(collection.documents) + StampedRows(renamed, dataset.observationId)
    {
      if dataset.schema.None? {
        dataset.schema := Some(buildSchema(Dtypes(frame)));
      }
      var id := dataset.observationId;
      var labelsToSlugs := buildLabelsToSlugs(dataset.schema.value);
      renamed := Rename(frame, labelsToSlugs);
      InsertInBatches(Rows(renamed), id, batchSize, StampedRows(renamed, id));
    }

    /**
     * The insert loop of `save` over the row dictionaries of `iterrows`:
     * stamps row after row and flushes the buffer once it holds more than
     * `batchSize` rows; `stamped` names the stamped rows.
     */
    method InsertInBatches(frameRows: seq<Row>, id: string, batchSize: nat, ghost stamped: seq<Row>)
      requires |stamped| == |frameRows|
      requires forall i :: 0 <= i < |frameRows| ==> stamped[i] == Stamp(frameRows[i], id)
      modifies collection
      ensures collection.inserts == old(collection.inserts) + Chunks(stamped, batchSize)
      ensures collection.documents == old(collection.documents) + stamped
    {
      ghost var done: seq<seq<Row>> := [];
      ghost var start := 0;
      var rows: seq<Row> := [];
      var i := 0;
      while i < |frameRows|
        invariant 0 <= start <= i <= |frameRows| && start + |rows| == i && |rows| <= batchSize
        invariant rows == stamped[start..i]
        invariant collection.inserts == old(collection.inserts) + done
        invariant collection.documents == old(collection.documents) + stamped[..start]
        invariant Chunks(stamped, batchSize) == done + Chunks(stamped[start..], batchSize)
      {
        var row := Stamp(frameRows[i], id);
        assert stamped[start..i + 1] == stamped[start..i] + [stamped[i]];
        rows := rows + [row];
        if |rows| > batchSize {
          FlushStep(stamped, done, start, i, batchSize, old(collection.documents), old(collection.inserts));
          collection.Insert(rows);
          done := done + [rows];
          rows := [];
          start := i + 1;
        }
        i := i + 1;
      }
      FinalStep(stamped, done, start, batchSize, old(collection.documents), old(collection.inserts));
      if |rows| > 0 {
        collection.Insert(rows);
        done := done + [rows];
      }
    }

    /**
     * `update`: computes the columns new to the stored rows and hands them to
     * `update_schema`, deletes the active generation, saves the new frame
     * under the same marker and returns what `find` then sees: exactly the
     * new frame's rows, because the delete precedes the save.
     */
    method Update(frame: Frame, dataset: Dataset, batchSize: nat,
                  decode: string -> JsonResult, test: EntryTest,
                  buildSchema: seq<(string, DType)> -> Schema,
                  buildLabelsToSlugs: Schema -> map<string, string>,
                  updateSchema: (Option<Schema>, map<string, DType>) -> Option<Schema>)
      returns (rows: seq<Row>, colsToAdd: map<string, DType>)
      requires frame.Rectangular()
      requires IdEquality(test)
      requires decode("{}") == Parsed(Doc(map[]))
      modifies collection, dataset
      ensures dataset.observationId == old(dataset.observationId)
      ensures colsToAdd == SchemaDelta(frame, old(collection.Find(GenerationFilter(dataset.observationId), test)))
      ensures dataset.schema == var updated := updateSchema(old(dataset.schema), colsToAdd);
                                if updated.None? then Some(buildSchema(Dtypes(frame))) else updated
      ensures dataset.numColumns == old(dataset.numColumns) && dataset.numRows == old(dataset.numRows)
      ensures dataset.state == old(dataset.state)
      ensures var stored := StampedRows(Rename(frame, buildLabelsToSlugs(dataset.schema.value)), dataset.observationId);
              && collection.documents ==
                   Unmatched(old(collection.documents), GenerationFilter(dataset.observationId), test) + stored
              && collection.inserts == old(collection.inserts) + Chunks(stored, batchSize)
              && rows == stored
    {
      var id := dataset.observationId;
      var previous := Find(dataset, Some("{}"), None, decode, test);
      assert previous.value.filter == GenerationFilter(id);
      colsToAdd := SchemaDelta(frame, previous.value.documents);
      dataset.schema := updateSchema(dataset.schema, colsToAdd);
      ghost var before := collection.documents;
      Delete(dataset, test);
      var renamed := Save(frame, dataset, batchSize, buildSchema, buildLabelsToSlugs);
      ghost var stored := StampedRows(renamed, id);
      var current := Find(dataset, Some("{}"), None, decode, test);
      assert current.value.filter == GenerationFilter(id);
      StampedRowsInGeneration(renamed, id);
      ReplacedGenerationFound(before, stored, id, test);
      rows := current.value.documents;
    }
  }
}
