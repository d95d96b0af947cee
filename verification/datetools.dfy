/**
 * Date recognition in frames and the rewriting of timestamp filters
 * (bamboo/lib/datetools.py). The date parser (`dateutil.parser.parse`) and
 * `datetime.fromtimestamp` are parameters: their calendar and time-zone
 * behaviour is not modelled, only what they return or raise.
 */
module DateTools {
  import opened Values
  import opened Frames

  /** `dateutil.parser.parse` applied to one cell. */
  type DateParser = Value -> Result<DateTime>

  /** `datetime.fromtimestamp` applied to whole seconds. */
  type FromTimestamp = int -> Result<DateTime>

  // ---------------------------------------------------------------------------
  // Cells and columns

  /** `_is_potential_date`: NaN and boolean cells are passed through, never parsed. */
  predicate IsPotentialDate(v: Value)
  {
    !(v.NaN? || v.Bool?)
  }

  /** `col_is_date_simpletype`. */
  predicate IsDateSimpletype(cs: ColumnSchema)
  {
    cs.simpletype == Datetime
  }

  /** The exceptions `_convert_column_to_date` swallows. */
  predicate IsSwallowed(e: Exception)
  {
    e.ValueError? || e.OverflowError?
  }

  /** Every cell the parser is handed parses. */
  predicate AllParse(cells: seq<Value>, parse: DateParser)
  {
    forall j :: 0 <= j < |cells| && IsPotentialDate(cells[j]) ==> parse(cells[j]).Ok?
  }

  /** `e` is what the parser raised on the first cell it failed on. */
  predicate FirstFailure(cells: seq<Value>, parse: DateParser, e: Exception)
  {
    exists j :: 0 <= j < |cells| && IsPotentialDate(cells[j]) && parse(cells[j]) == Raise(e) &&
      forall k :: 0 <= k < j && IsPotentialDate(cells[k]) ==> parse(cells[k]).Ok?
  }

  /** A cell after conversion: its parsed date, or itself when it is NaN or a boolean. */
  function ParsedCell(v: Value, parse: DateParser): Value
    requires IsPotentialDate(v) ==> parse(v).Ok?
  {
    if IsPotentialDate(v) then Date(parse(v).value) else v
  }

  /** The cells of a column that converts, each through `ParsedCell`. */
  function ParsedCells(cells: seq<Value>, parse: DateParser): (r: seq<Value>)
    requires AllParse(cells, parse)
  {
    seq(|cells|, j requires 0 <= j < |cells| => ParsedCell(cells[j], parse))
  }

  /**
   * The list comprehension of `_convert_column_to_date`, evaluated left to
   * right: the converted cells when every candidate parses, otherwise the
   * exception of the first candidate that does not.
   */
  function ParseCells(cells: seq<Value>, parse: DateParser): (r: Result<seq<Value>>)
    ensures r.Ok? <==> AllParse(cells, parse)
    ensures r.Ok? ==> r.value == ParsedCells(cells, parse)
    ensures r.Raise? ==> FirstFailure(cells, parse, r.exc)
    decreases |cells|
  {
    if cells == [] then Ok([])
    else if IsPotentialDate(cells[0]) && parse(cells[0]).Raise? then
      assert FirstFailure(cells, parse, parse(cells[0]).exc) by {
        assert IsPotentialDate(cells[0]) && parse(cells[0]) == Raise(parse(cells[0]).exc);
      }
      Raise(parse(cells[0]).exc)
    else
      match ParseCells(cells[1..], parse)
      case Raise(e) =>
        assert FirstFailure(cells, parse, e) by {
          var j :| 0 <= j < |cells[1..]| && IsPotentialDate(cells[1..][j]) && parse(cells[1..][j]) == Raise(e) &&
                   forall k :: 0 <= k < j && IsPotentialDate(cells[1..][k]) ==> parse(cells[1..][k]).Ok?;
          assert IsPotentialDate(cells[j + 1]) && parse(cells[j + 1]) == Raise(e);
          assert forall k :: 0 <= k < j + 1 && IsPotentialDate(cells[k]) ==> parse(cells[k]).Ok? by {
            forall k | 0 < k < j + 1 && IsPotentialDate(cells[k]) ensures parse(cells[k]).Ok? {
              assert cells[k] == cells[1..][k - 1];
            }
          }
        }
        Raise(e)
      case Ok(rest) =>
        assert AllParse(cells, parse) by {
          forall j | 0 < j < |cells| && IsPotentialDate(cells[j]) ensures parse(cells[j]).Ok? {
            assert cells[j] == cells[1..][j - 1];
          }
        }
        Ok([ParsedCell(cells[0], parse)] + rest)
  }

  /**
   * The dtype pandas gives `Series(cells)`, reduced to the cases conversion
   * produces: dates (with NaN gaps), all NaN, all booleans, anything else.
   */
  function SeriesDtype(cells: seq<Value>): DType
  {
    if |cells| > 0 && (forall v :: v in cells ==> v.Date? || v.NaN?) && (exists v :: v in cells && v.Date?) then Datetime64
    else if |cells| > 0 && forall v :: v in cells ==> v.NaN? then Float64
    else if |cells| > 0 && forall v :: v in cells ==> v.Bool? then BoolDtype
    else ObjectDtype
  }

  /** A column that converts: same name, converted cells, the dtype pandas infers for them. */
  function Converted(col: Column, parse: DateParser): Column
    requires AllParse(col.cells, parse)
  {
    var cells := ParsedCells(col.cells, parse);
    Column(col.name, SeriesDtype(cells), cells)
  }

  /**
   * `_convert_column_to_date` for one column, all or nothing: the converted
   * column when every candidate cell parses; otherwise the column exactly as
   * it was when the first failure is a `ValueError` or `OverflowError`, and
   * that failure raised when it is anything else.
   */
  function ConvertColumn(col: Column, parse: DateParser): (r: Result<Column>)
    ensures AllParse(col.cells, parse) ==> r == Ok(Converted(col, parse))
    ensures !AllParse(col.cells, parse) ==>
              exists e :: FirstFailure(col.cells, parse, e) && r == (if IsSwallowed(e) then Ok(col) else Raise(e))
  {
    match ParseCells(col.cells, parse)
    case Ok(cells) => Ok(Column(col.name, SeriesDtype(cells), cells))
    case Raise(e) => if IsSwallowed(e) then Ok(col) else Raise(e)
  }

  /** What `recognize_dates` does to one column: object columns are converted, all others kept. */
  function RecognizeColumn(col: Column, parse: DateParser): Result<Column>
  {
    if col.dtype == ObjectDtype then ConvertColumn(col, parse) else Ok(col)
  }

  /**
   * Recognising a column twice changes nothing the first pass did not, for
   * columns without boolean cells (a boolean keeps a converted column of
   * object dtype, so a second pass would hand its dates to the parser).
   */
  lemma RecognizeColumnIdempotent(col: Column, parse: DateParser)
    requires forall v :: v in col.cells ==> !v.Bool?
    requires RecognizeColumn(col, parse).Ok?
    ensures RecognizeColumn(RecognizeColumn(col, parse).value, parse) == RecognizeColumn(col, parse)
  {
    if col.dtype == ObjectDtype && AllParse(col.cells, parse) {
      var cells := ParsedCells(col.cells, parse);
      assert forall v :: v in cells ==> v.Date? || v.NaN? by {
        forall v | v in cells ensures v.Date? || v.NaN? {
          var j :| 0 <= j < |cells| && cells[j] == v;
          assert !col.cells[j].Bool?;
        }
      }
      if cells == [] {
        assert AllParse(cells, parse);
        assert ParsedCells(cells, parse) == cells;
      } else if exists v :: v in cells && v.Date? {
        assert SeriesDtype(cells) == Datetime64;
      } else {
        assert SeriesDtype(cells) == Float64;
      }
    }
  }

  /**
   * `recognize_dates`: works on a copy (the input frame is a value and is
   * never changed) and converts each object column in column order; the
   * first conversion that raises ends the call.
   */
  method RecognizeDates(frame: Frame, parse: DateParser) returns (r: Result<Frame>)
    requires frame.DistinctNames()
    ensures r.Ok? <==> forall k :: 0 <= k < |frame.columns| ==> RecognizeColumn(frame.columns[k], parse).Ok?
    ensures r.Ok? ==> r.value.height == frame.height && |r.value.columns| == |frame.columns|
    ensures r.Ok? ==> forall k :: 0 <= k < |frame.columns| ==>
                        r.value.columns[k] == RecognizeColumn(frame.columns[k], parse).value
    ensures r.Raise? ==> exists k :: 0 <= k < |frame.columns| && RecognizeColumn(frame.columns[k], parse) == Raise(r.exc) &&
                                     forall j :: 0 <= j < k ==> RecognizeColumn(frame.columns[j], parse).Ok?
  {
    var columns := frame.columns;
    var i := 0;
    while i < |frame.columns|
      invariant 0 <= i <= |frame.columns| && |columns| == |frame.columns|
      invariant forall k :: 0 <= k < i ==> RecognizeColumn(frame.columns[k], parse).Ok? &&
                                           columns[k] == RecognizeColumn(frame.columns[k], parse).value
      invariant forall k :: i <= k < |columns| ==> columns[k] == frame.columns[k]
    {
      if frame.columns[i].dtype == ObjectDtype {
        var converted := ConvertColumn(columns[i], parse);
        if converted.Raise? {
          return Raise(converted.exc);
        }
        columns := columns[i := converted.value];
      }
      assert columns[i] == RecognizeColumn(frame.columns[i], parse).value;
      i := i + 1;
    }
    r := Ok(Frame(columns, frame.height));
  }

  /** A column `recognize_dates_from_schema` converts: named in the schema and declared `datetime` there. */
  predicate SelectedBySchema(schema: Schema, name: string)
  {
    name in schema && IsDateSimpletype(schema[name])
  }

  /**
   * `recognize_dates_from_schema`: works on a copy and converts exactly the
   * frame columns that the schema declares `datetime`, visiting the schema's
   * entries in dictionary order; the first conversion that raises ends the call.
   */
  method RecognizeDatesFromSchema(schema: Schema, frame: Frame, parse: DateParser) returns (r: Result<Frame>)
    requires frame.DistinctNames()
    ensures r.Ok? <==> forall k :: 0 <= k < |frame.columns| && SelectedBySchema(schema, frame.columns[k].name) ==>
                                   ConvertColumn(frame.columns[k], parse).Ok?
    ensures r.Ok? ==> r.value.height == frame.height && |r.value.columns| == |frame.columns|
    ensures r.Ok? ==> forall k :: 0 <= k < |frame.columns| ==>
                        r.value.columns[k] == if SelectedBySchema(schema, frame.columns[k].name)
                                              then ConvertColumn(frame.columns[k], parse).value
                                              else frame.columns[k]
    ensures r.Raise? ==> exists k :: 0 <= k < |frame.columns| && SelectedBySchema(schema, frame.columns[k].name) &&
                                     ConvertColumn(frame.columns[k], parse) == Raise(r.exc)
  {
    var columns := frame.columns;
    var todo := schema.Keys;
    while todo != {}
      invariant todo <= schema.Keys && |columns| == |frame.columns|
      invariant forall k :: 0 <= k < |columns| && SelectedBySchema(schema, frame.columns[k].name) && frame.columns[k].name !in todo ==>
                  ConvertColumn(frame.columns[k], parse).Ok? && columns[k] == ConvertColumn(frame.columns[k], parse).value
      invariant forall k :: 0 <= k < |columns| && !(SelectedBySchema(schema, frame.columns[k].name) && frame.columns[k].name !in todo) ==>
                  columns[k] == frame.columns[k]
      decreases todo
    {
      var column :| column in todo;
      todo := todo - {column};
      if column in NameSet(frame.columns) && IsDateSimpletype(schema[column]) {
        var k :| 0 <= k < |frame.columns| && frame.columns[k].name == column;
        var converted := ConvertColumn(columns[k], parse);
        if converted.Raise? {
          return Raise(converted.exc);
        }
        ghost var before := columns;
        columns := columns[k := converted.value];
        forall j | 0 <= j < |columns| && j != k
          ensures columns[j] == before[j] && frame.columns[j].name != column
        {
          if j < k {
            assert frame.columns[j].name != frame.columns[k].name;
          } else {
            assert frame.columns[k].name != frame.columns[j].name;
          }
        }
      }
    }
    r := Ok(Frame(columns, frame.height));
  }

  // ---------------------------------------------------------------------------
  // Timestamp filters

  predicate IsSpace(c: char)
  {
    c == ' ' || c == '\t' || c == '\n' || c == '\r' || c as int == 11 || c as int == 12
  }

  function StripLeft(s: string): string
    decreases |s|
  {
    if |s| > 0 && IsSpace(s[0]) then StripLeft(s[1..]) else s
  }

  function StripRight(s: string): string
    decreases |s|
  {
    if |s| > 0 && IsSpace(s[|s| - 1]) then StripRight(s[..|s| - 1]) else s
  }

  predicate IsDigits(s: string)
  {
    |s| > 0 && forall k :: 0 <= k < |s| ==> '0' <= s[k] <= '9'
  }

  function DigitsValue(s: string): nat
    requires forall k :: 0 <= k < |s| ==> '0' <= s[k] <= '9'
    decreases |s|
  {
    if s == [] then 0 else DigitsValue(s[..|s| - 1]) * 10 + (s[|s| - 1] as int - '0' as int)
  }

  /** `int(text)` in base 10: optional surrounding whitespace, an optional sign, at least one digit. */
  function ParseDecimal(text: string): Option<int>
  {
    var t := StripRight(StripLeft(text));
    if |t| > 0 && (t[0] == '+' || t[0] == '-') && IsDigits(t[1..]) then
      var magnitude: int := DigitsValue(t[1..]);
      Some(if t[0] == '-' then -magnitude else magnitude)
    else if IsDigits(t) then Some(DigitsValue(t))
    else None
  }

  /** `int(x)` for a float: truncation toward zero. */
  function Truncate(x: real): (n: int)
    ensures 0.0 <= x ==> n as real <= x < n as real + 1.0
    ensures x < 0.0 ==> n as real - 1.0 < x <= n as real
  {
    if x >= 0.0 then x.Floor else -((-x).Floor)
  }

  /** Python's `int(value)` on a decoded JSON value. */
  function PyInt(v: Value): Result<int>
  {
    match v
    case Bool(b) => Ok(if b then 1 else 0)
    case Int(i) => Ok(i)
    case Float(x) => Ok(Truncate(x))
    case NaN => Raise(ValueError("cannot convert float NaN to integer"))
    case Str(s) =>
      (match ParseDecimal(s)
       case Some(n) => Ok(n)
       case None => Raise(ValueError("invalid literal for int() with base 10: " + s)))
    case _ => Raise(TypeError("int() argument must be a string or a number"))
  }

  /** `str(n)` for a natural number: its decimal digits, most significant first. */
  function NatText(n: nat): string
    decreases n
  {
    if n < 10 then [('0' as int + n) as char] else NatText(n / 10) + [('0' as int + n % 10) as char]
  }

  /** `str(n)`: the decimal text of an integer, with a leading minus when negative. */
  function IntText(n: int): string
  {
    if n < 0 then "-" + NatText(-n) else NatText(n)
  }

  /** The decimal text of a natural number is all digits and reads back as that number. */
  lemma {:induction false} NatTextDigits(n: nat)
    ensures IsDigits(NatText(n)) && DigitsValue(NatText(n)) == n
    decreases n
  {
    if n >= 10 {
      NatTextDigits(n / 10);
      var s := NatText(n);
      assert s[..|s| - 1] == NatText(n / 10);
    }
  }

  /** Text with no surrounding whitespace is unchanged by stripping. */
  lemma StripNoSpace(s: string)
    requires |s| > 0 && !IsSpace(s[0]) && !IsSpace(s[|s| - 1])
    ensures StripRight(StripLeft(s)) == s
  {
  }

  /** `int(str(n)) == n`: the timestamp text of any integer converts back to it. */
  lemma PyIntRoundTrip(n: int)
    ensures PyInt(Str(IntText(n))) == Ok(n)
  {
    var m: nat := if n < 0 then -n else n;
    NatTextDigits(m);
    var t := IntText(n);
    StripNoSpace(t);
    if n < 0 {
      assert t[1..] == NatText(m);
    }
  }

  /** `datetime.fromtimestamp(int(value))`, as a date value. */
  function ConvertTimestamp(v: Value, fromTimestamp: FromTimestamp): Result<Value>
  {
    match PyInt(v)
    case Raise(e) => Raise(e)
    case Ok(n) =>
      (match fromTimestamp(n)
       case Raise(e) => Raise(e)
       case Ok(d) => Ok(Date(d)))
  }

  /**
   * A filter value written as the decimal text of a timestamp converts to the
   * date `fromtimestamp` gives for that timestamp, or raises what it raises.
   */
  lemma TimestampTextConverts(n: int, fromTimestamp: FromTimestamp)
    ensures ConvertTimestamp(Str(IntText(n)), fromTimestamp) ==
              (match fromTimestamp(n)
               case Ok(d) => Ok(Date(d))
               case Raise(e) => Raise(e))
  {
    PyIntRoundTrip(n);
  }

  /** Raised by `.items()` on a filter value that is not a dictionary. */
  const NoItems: Exception := AttributeError("object has no attribute 'items'")

  /** Raised by `.keys()` on a filter that is not a dictionary. */
  const NoKeys: Exception := AttributeError("object has no attribute 'keys'")

  /** A filter value whose every operator value converts. */
  predicate OperatorsConvert(v: Value, fromTimestamp: FromTimestamp)
  {
    v.Doc? && forall op :: op in v.fields ==> ConvertTimestamp(v.fields[op], fromTimestamp).Ok?
  }

  /** The same operator keys, each value replaced by its date. */
  function ConvertedOperators(v: Value, fromTimestamp: FromTimestamp): Value
    requires OperatorsConvert(v, fromTimestamp)
  {
    Doc(map op | op in v.fields :: ConvertTimestamp(v.fields[op], fromTimestamp).value)
  }

  /** `e` is what rewriting the filter value `v` can raise. */
  predicate OperatorsFailure(v: Value, fromTimestamp: FromTimestamp, e: Exception)
  {
    || (!v.Doc? && e == NoItems)
    || (v.Doc? && exists op :: op in v.fields && ConvertTimestamp(v.fields[op], fromTimestamp) == Raise(e))
  }

  /**
   * The dictionary comprehension of `parse_timestamp_query` for one filter
   * value, visiting its items in dictionary order.
   */
  method RewriteOperators(v: Value, fromTimestamp: FromTimestamp) returns (r: Result<Value>)
    ensures r.Ok? <==> OperatorsConvert(v, fromTimestamp)
    ensures r.Ok? ==> r.value == ConvertedOperators(v, fromTimestamp)
    ensures r.Raise? ==> OperatorsFailure(v, fromTimestamp, r.exc)
  {
    if !v.Doc? {
      return Raise(NoItems);
    }
    var todo := v.fields.Keys;
    var converted: map<string, Value> := map[];
    while todo != {}
      invariant todo <= v.fields.Keys
      invariant converted.Keys == v.fields.Keys - todo
      invariant forall op :: op in converted ==> ConvertTimestamp(v.fields[op], fromTimestamp) == Ok(converted[op])
      decreases todo
    {
      var op :| op in todo;
      todo := todo - {op};
      var c := ConvertTimestamp(v.fields[op], fromTimestamp);
      if c.Raise? {
        return Raise(c.exc);
      }
      converted := converted[op := c.value];
    }
    r := Ok(Doc(converted));
  }

  /** The schema declares some column `datetime`. */
  predicate HasDateColumn(schema: Schema)
  {
    exists c :: c in schema && IsDateSimpletype(schema[c])
  }

  /** `datetime_columns`: the filter keys that name a `datetime` column of the schema. */
  function DateKeys(query: Query, schema: Schema): set<string>
  {
    set c | c in schema && IsDateSimpletype(schema[c]) && c in query
  }

  /** Every date key's filter value converts. */
  predicate TimestampsConvert(query: Query, schema: Schema, fromTimestamp: FromTimestamp)
  {
    forall c :: c in DateKeys(query, schema) ==> OperatorsConvert(query[c], fromTimestamp)
  }

  /** The rewritten filter: date keys get converted operator values, every other key is kept as it is. */
  function RewrittenQuery(query: Query, schema: Schema, fromTimestamp: FromTimestamp): (r: Query)
    requires TimestampsConvert(query, schema, fromTimestamp)
    ensures r.Keys == query.Keys
    ensures forall k :: k in query && k !in DateKeys(query, schema) ==> r[k] == query[k]
    ensures forall k :: k in DateKeys(query, schema) ==>
              && r[k].Doc? && query[k].Doc? && r[k].fields.Keys == query[k].fields.Keys
              && (forall op :: op in r[k].fields ==> r[k].fields[op].Date?)
  {
    map k | k in query :: if k in DateKeys(query, schema) then ConvertedOperators(query[k], fromTimestamp) else query[k]
  }

  /**
   * `parse_timestamp_query`: an empty filter is returned as it is; otherwise
   * every filter key naming a `datetime` column has its operator values
   * turned into dates, and nothing else changes. A filter that is not a
   * dictionary raises `AttributeError` as soon as the schema has a
   * `datetime` column, and is returned as it is otherwise.
   */
  method ParseTimestampQuery(query: Value, schema: Schema, fromTimestamp: FromTimestamp) returns (r: Result<Value>)
    ensures query == Doc(map[]) ==> r == Ok(query)
    ensures !query.Doc? ==> r == if HasDateColumn(schema) then Raise(NoKeys) else Ok(query)
    ensures query.Doc? ==> (r.Ok? <==> TimestampsConvert(query.fields, schema, fromTimestamp))
    ensures query.Doc? && r.Ok? ==> r.value == Doc(RewrittenQuery(query.fields, schema, fromTimestamp))
    ensures query.Doc? && r.Raise? ==>
              exists c :: c in DateKeys(query.fields, schema) && OperatorsFailure(query.fields[c], fromTimestamp, r.exc)
  {
    if query == Doc(map[]) {
      return Ok(query);
    }
    if !query.Doc? {
      if HasDateColumn(schema) {
        return Raise(NoKeys);
      }
      return Ok(query);
    }
    var original := query.fields;
    var dateKeys := DateKeys(original, schema);
    var q := original;
    var todo := dateKeys;
    while todo != {}
      invariant todo <= dateKeys && q.Keys == original.Keys
      invariant forall c :: c in dateKeys - todo ==>
                  OperatorsConvert(original[c], fromTimestamp) && q[c] == ConvertedOperators(original[c], fromTimestamp)
      invariant forall k :: k in q && k !in dateKeys - todo ==> q[k] == original[k]
      decreases todo
    {
      var column :| column in todo;
      todo := todo - {column};
      assert q[column] == original[column];
      var rewritten := RewriteOperators(q[column], fromTimestamp);
      if rewritten.Raise? {
        assert column in DateKeys(original, schema) && OperatorsFailure(original[column], fromTimestamp, rewritten.exc);
        return Raise(rewritten.exc);
      }
      q := q[column := rewritten.value];
    }
    assert TimestampsConvert(original, schema, fromTimestamp);
    assert q == RewrittenQuery(original, schema, fromTimestamp);
    r := Ok(Doc(q));
  }
}
