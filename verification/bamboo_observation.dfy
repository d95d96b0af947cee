/**
 * The observation model of bamboo/models/observation.py: the rows of a
 * dataset stored in the `observations` collection, each stamped with the
 * dataset's generation marker, with `delete_all`, `find` (whose query may
 * name `datetime` columns by timestamps) and `save`.
 */
module BambooObservation {
  import opened Values
  import opened Frames
  import opened Store
  import opened DateTools

  /** Raised by `dframe.join(id_column)` when the frame already has a column named by the generation key. */
  const ColumnsOverlap: Exception := ValueError("columns overlap but no suffix specified")

  /**
   * `(query and json.loads(query)) or {}`: an absent or empty text gives the
   * empty filter, so does a decoded value Python counts as false, and any
   * other decoded value is taken as it is.
   */
  function InitialQuery(query: Option<string>, decode: string -> JsonResult): (r: JsonResult)
    ensures !IsGiven(query) ==> r == Parsed(Doc(map[]))
    ensures IsGiven(query) && decode(query.value).Malformed? ==> r == decode(query.value)
    ensures IsGiven(query) && decode(query.value).Parsed? ==> r.Parsed?
    ensures IsGiven(query) && decode(query.value).Parsed? && Truthy(decode(query.value).value) ==> r == decode(query.value)
    ensures r.Parsed? ==> Truthy(r.value) || r.value == Doc(map[])
    ensures r.Parsed? && r.value != Doc(map[]) ==> IsGiven(query) && decode(query.value) == r
  {
    if !IsGiven(query) then Parsed(Doc(map[]))
    else match decode(query.value)
      case Malformed(reason) => Malformed(reason)
      case Parsed(v) => if Truthy(v) then Parsed(v) else Parsed(Doc(map[]))
  }

  /** What `find` reports for an exception of `parse_timestamp_query`: a `ValueError` becomes a `JSONError`, anything else passes through. */
  function Reported(e: Exception): Exception
  {
    if e.ValueError? then JSONError(QueryError + e.msg) else e
  }

  /** `dataset.schema`, the empty schema while the record has none. */
  function SchemaOf(schema: Option<Schema>): Schema
  {
    if schema.Some? then schema.value else map[]
  }

  /** The arguments `find` hands on to the collection query. */
  datatype FindCall = FindCall(query: Query, select: Option<Value>, limit: int, orderBy: Option<string>, asCursor: bool)

  /** The `Observation` model; `deleteAllDefault` is the dictionary `delete_all` shares between calls as its default `query`. */
  class Observation {
    const collection: Collection
    var deleteAllDefault: Query

    /** The shared default only ever holds the generation key. */
    predicate Valid()
      reads this
    {
      deleteAllDefault.Keys <= {ObservationIdKey}
    }

    constructor(collection: Collection)
      ensures this.collection == collection && deleteAllDefault == map[]
      ensures Valid()
    {
      this.collection := collection;
      deleteAllDefault := map[];
    }

    /**
     * `delete_all`: sets the generation key of the given filter, or of the
     * shared default when none is given, to the dataset's marker (the
     * dictionary is updated in place and returned as `sent`), then removes
     * every matching document. The default keeps only that key, so a call
     * without a filter removes exactly the dataset's current generation.
     */
    method DeleteAll(dataset: Dataset, query: Option<Query>, test: EntryTest) returns (sent: Query)
      requires Valid()
      modifies this, collection
      ensures Valid()
      ensures sent == (if query.Some? then query.value else old(deleteAllDefault))[ObservationIdKey := Str(dataset.observationId)]
      ensures deleteAllDefault == if query.None? then sent else old(deleteAllDefault)
      ensures query.None? ==> sent == GenerationFilter(dataset.observationId)
      ensures collection.documents == Unmatched(old(collection.documents), sent, test)
      ensures collection.inserts == old(collection.inserts)
      ensures IdEquality(test) ==>
                && (forall d :: d in old(collection.documents) && d !in collection.documents ==> InGeneration(d, dataset.observationId))
                && (forall d :: d in old(collection.documents) && !InGeneration(d, dataset.observationId) ==> d in collection.documents)
    {
      var target := if query.Some? then query.value else deleteAllDefault;
      sent := target[ObservationIdKey := Str(dataset.observationId)];
      if query.None? {
        deleteAllDefault := sent;
      }
      if IdEquality(test) {
        DeleteScope(collection.documents, sent, dataset.observationId, test);
      }
      collection.Remove(sent, test);
    }

    /**
     * `find`: decodes the query (an absent or false one is the empty filter)
     * and rewrites the timestamps it gives for `datetime` columns; a
     * `ValueError` on the way is reported as `JSONError`. A given select text
     * is decoded likewise. The generation key of the filter is then forced to
     * the dataset's marker, whatever the client sent.
     */
    method Find(dataset: Dataset, query: Option<string>, select: Option<string>, limit: int,
                orderBy: Option<string>, asCursor: bool,
                decode: string -> JsonResult, fromTimestamp: FromTimestamp) returns (r: Result<FindCall>)
      ensures var initial := InitialQuery(query, decode);
              initial.Malformed? ==> r == Raise(JSONError(QueryError + initial.reason))
      ensures var initial := InitialQuery(query, decode);
              initial.Parsed? && !initial.value.Doc? ==>
                r == Raise(if HasDateColumn(SchemaOf(dataset.schema)) then NoKeys
                           else if IsGiven(select) && decode(select.value).Malformed? then JSONError(SelectError + decode(select.value).reason)
                           else NotAssignable)
      ensures var initial, schema := InitialQuery(query, decode), SchemaOf(dataset.schema);
              initial.Parsed? && initial.value.Doc? && !TimestampsConvert(initial.value.fields, schema, fromTimestamp) ==>
                r.Raise? && exists c, e :: c in DateKeys(initial.value.fields, schema) &&
                                           OperatorsFailure(initial.value.fields[c], fromTimestamp, e) && r.exc == Reported(e)
      ensures var initial, schema := InitialQuery(query, decode), SchemaOf(dataset.schema);
              initial.Parsed? && initial.value.Doc? && TimestampsConvert(initial.value.fields, schema, fromTimestamp) &&
              IsGiven(select) && decode(select.value).Malformed? ==>
                r == Raise(JSONError(SelectError + decode(select.value).reason))
      ensures var initial, schema := InitialQuery(query, decode), SchemaOf(dataset.schema);
              r.Ok? <==> initial.Parsed? && initial.value.Doc? && TimestampsConvert(initial.value.fields, schema, fromTimestamp) &&
                         (IsGiven(select) ==> decode(select.value).Parsed?)
      ensures var initial, schema := InitialQuery(query, decode), SchemaOf(dataset.schema);
              r.Ok? ==>
                && r.value.query == RewrittenQuery(initial.value.fields, schema, fromTimestamp)[ObservationIdKey := Str(dataset.observationId)]
                && r.value.select == (if select.None? then None else if select.value == "" then Some(Str("")) else Some(decode(select.value).value))
                && r.value.limit == limit && r.value.orderBy == orderBy && r.value.asCursor == asCursor
    {
      var initial := InitialQuery(query, decode);
      if initial.Malformed? {
        return Raise(JSONError(QueryError + initial.reason));
      }
      var parsed := ParseTimestampQuery(initial.value, SchemaOf(dataset.schema), fromTimestamp);
      if parsed.Raise? {
        return Raise(Reported(parsed.exc));
      }
      // A false select text is handed on as it is.
      var selected: Option<Value> := if select.None? then None else Some(Str(select.value));
      if IsGiven(select) {
        match decode(select.value)
        case Malformed(reason) =>
          return Raise(JSONError(SelectError + reason));
        case Parsed(v) =>
          selected := Some(v);
      }
      if !parsed.value.Doc? {
        return Raise(NotAssignable);
      }
      var filter := parsed.value.fields[ObservationIdKey := Str(dataset.observationId)];
      r := Ok(FindCall(filter, selected, limit, orderBy, asCursor));
    }

    /**
     * `save`: builds the schema when the record has none; then, when a frame
     * is given, renames its columns to slugs, joins the generation column and
     * stores its rows, and finally records the schema's column count, the
     * number of rows stored and the ready state on the dataset. A frame that
     * already has a column named by the generation key makes the join fail,
     * and nothing is stored or recorded.
     */
    method Save(frame: Option<Frame>, dataset: Dataset,
                buildSchema: Option<Frame> -> Schema,
                buildLabelsToSlugs: Schema -> map<string, string>) returns (r: Outcome)
      requires frame.Some? ==> frame.value.Rectangular()
      modifies collection, dataset
      ensures dataset.schema == if old(dataset.schema).None? then Some(buildSchema(frame)) else old(dataset.schema)
      ensures dataset.observationId == old(dataset.observationId)
      ensures r.Fail? <==> frame.Some? && ObservationIdKey in NameSet(Rename(frame.value, buildLabelsToSlugs(dataset.schema.value)).columns)
      ensures r.Fail? ==> r.exc == ColumnsOverlap
      ensures r.Fail? ==> collection.documents == old(collection.documents) &&
                          dataset.numColumns == old(dataset.numColumns) && dataset.numRows == old(dataset.numRows) &&
                          dataset.state == old(dataset.state)
      ensures r.Pass? ==>
                && collection.documents == old(collection.documents) +
                     (if frame.None? then [] else StampedRows(Rename(frame.value, buildLabelsToSlugs(dataset.schema.value)), dataset.observationId))
                && dataset.numColumns == Some(|dataset.schema.value|)
                && dataset.numRows == Some(if frame.None? then 0 else frame.value.height)
                && dataset.state == Some(Ready)
    {
      if dataset.schema.None? {
        dataset.schema := Some(buildSchema(frame));
      }
      var numColumns := |dataset.schema.value|;
      var numRows := 0;
      if frame.Some? {
        var labelsToSlugs := buildLabelsToSlugs(dataset.schema.value);
        var renamed := Rename(frame.value, labelsToSlugs);
        if ObservationIdKey in NameSet(renamed.columns) {
          return Fail(ColumnsOverlap);
        }
        var joined := JoinIdColumn(renamed, dataset.observationId);
        JoinIdColumnStamps(renamed, dataset.observationId);
        collection.Insert(Rows(joined));
        numRows := joined.height;
      }
      dataset.numColumns := Some(numColumns);
      dataset.numRows := Some(numRows);
      dataset.state := Some(Ready);
      r := Pass;
    }
  }
}
