/**
 * Data frames as the observation store and the date tools see them: ordered,
 * named, typed columns of equal height over the default positional index,
 * the dataset schema, and the row dictionaries built from a frame.
 */
module Frames {
  import opened Values

  /**
   * `DATASET_OBSERVATION_ID`, the key under which every stored row carries its
   * dataset's generation marker. Its spelling is defined outside the modelled
   * files; no proof depends on it.
   */
  const ObservationIdKey: string := "BAMBOO_RESERVED_KEY_dataset_observation_id"

  /** The numpy dtype of a pandas column. */
  datatype DType = ObjectDtype | Int64 | Float64 | BoolDtype | Datetime64

  datatype Column = Column(name: string, dtype: DType, cells: seq<Value>)

  /** A DataFrame with `height` rows indexed 0 .. height - 1. */
  datatype Frame = Frame(columns: seq<Column>, height: nat) {

    /** Every column has one cell per row. */
    predicate Rectangular()
    {
      forall c :: c in columns ==> |c.cells| == height
    }

    /** No two columns share a name. */
    predicate DistinctNames()
    {
      forall i, j :: 0 <= i < j < |columns| ==> columns[i].name != columns[j].name
    }
  }

  /** The `SIMPLETYPE` entry of a column schema. */
  datatype SimpleType = Numeric | StringType | BooleanType | Datetime

  /** The `OLAP_TYPE` entry of a column schema. */
  datatype OlapType = Dimension | Measure

  datatype ColumnSchema = ColumnSchema(displayLabel: string, simpletype: SimpleType, olapType: OlapType)

  /** A dataset schema: column slug to its description. */
  type Schema = map<string, ColumnSchema>

  function NameSet(cols: seq<Column>): set<string>
  {
    set c | c in cols :: c.name
  }

  /**
   * `row.to_dict()` for row `i`: one entry per column name; when a name occurs
   * twice the later column's cell wins, as building a dict from pairs does.
   */
  function RowOf(cols: seq<Column>, i: nat): Row
    requires forall c :: c in cols ==> i < |c.cells|
    decreases |cols|
  {
    if cols == [] then map[]
    else RowOf(cols[..|cols| - 1], i)[cols[|cols| - 1].name := cols[|cols| - 1].cells[i]]
  }

  /** The keys of a row dictionary are exactly the column names. */
  lemma {:induction false} RowOfKeys(cols: seq<Column>, i: nat)
    requires forall c :: c in cols ==> i < |c.cells|
    ensures RowOf(cols, i).Keys == NameSet(cols)
    decreases |cols|
  {
    if cols != [] {
      var n := |cols| - 1;
      RowOfKeys(cols[..n], i);
      assert cols == cols[..n] + [cols[n]];
      assert NameSet(cols) == NameSet(cols[..n]) + {cols[n].name};
    }
  }

  /** A column that no later column shadows contributes its own cell to the row. */
  lemma {:induction false} RowOfLastWins(cols: seq<Column>, i: nat, j: nat)
    requires forall c :: c in cols ==> i < |c.cells|
    requires j < |cols|
    requires forall k :: j < k < |cols| ==> cols[k].name != cols[j].name
    ensures cols[j].name in RowOf(cols, i)
    ensures RowOf(cols, i)[cols[j].name] == cols[j].cells[i]
    decreases |cols|
  {
    var n := |cols| - 1;
    if j < n {
      RowOfLastWins(cols[..n], i, j);
    }
  }

  /** `dframe.iterrows()` followed by `to_dict()`: the frame's rows in index order. */
  function Rows(frame: Frame): seq<Row>
    requires frame.Rectangular()
  {
    seq(frame.height, i requires 0 <= i < frame.height => RowOf(frame.columns, i))
  }

  /** A row with the generation key set to `id`, overriding any value it had. */
  function Stamp(row: Row, id: string): Row
  {
    row[ObservationIdKey := Str(id)]
  }

  /** True of a document stamped with generation `id`. */
  predicate InGeneration(doc: Row, id: string)
  {
    ObservationIdKey in doc && doc[ObservationIdKey] == Str(id)
  }

  /** The rows of a frame, each stamped with the generation marker `id`. */
  function StampedRows(frame: Frame, id: string): (r: seq<Row>)
    requires frame.Rectangular()
    ensures |r| == frame.height
    ensures forall i :: 0 <= i < |r| ==> InGeneration(r[i], id)
  {
    seq(frame.height, i requires 0 <= i < frame.height => Stamp(RowOf(frame.columns, i), id))
  }

  /** `labels_to_slugs.get(column, column)`: a known label becomes its slug, any other name is kept. */
  function SlugOf(labelsToSlugs: map<string, string>, name: string): string
  {
    if name in labelsToSlugs then labelsToSlugs[name] else name
  }

  /** Renames every column through `labels_to_slugs`, keeping order, dtypes and cells. */
  function Rename(frame: Frame, labelsToSlugs: map<string, string>): (r: Frame)
    ensures r.height == frame.height && |r.columns| == |frame.columns|
    ensures forall k :: 0 <= k < |r.columns| ==>
              && (frame.columns[k].name in labelsToSlugs ==> r.columns[k].name == labelsToSlugs[frame.columns[k].name])
              && (frame.columns[k].name !in labelsToSlugs ==> r.columns[k].name == frame.columns[k].name)
              && r.columns[k].dtype == frame.columns[k].dtype
              && r.columns[k].cells == frame.columns[k].cells
    ensures frame.Rectangular() ==> r.Rectangular()
  {
    Frame(seq(|frame.columns|, k requires 0 <= k < |frame.columns| =>
                Column(SlugOf(labelsToSlugs, frame.columns[k].name), frame.columns[k].dtype, frame.columns[k].cells)),
          frame.height)
  }

  /**
   * What a stored row holds after renaming and stamping: every column whose
   * slug is neither shadowed by a later column nor the generation key puts its
   * cell under its slug, and the generation key holds `id`.
   */
  lemma StampedRowContents(frame: Frame, labelsToSlugs: map<string, string>, id: string, i: nat, j: nat)
    requires frame.Rectangular()
    requires i < frame.height && j < |frame.columns|
    requires SlugOf(labelsToSlugs, frame.columns[j].name) != ObservationIdKey
    requires forall k :: j < k < |frame.columns| ==>
               SlugOf(labelsToSlugs, frame.columns[k].name) != SlugOf(labelsToSlugs, frame.columns[j].name)
    ensures var row := StampedRows(Rename(frame, labelsToSlugs), id)[i];
            && SlugOf(labelsToSlugs, frame.columns[j].name) in row
            && row[SlugOf(labelsToSlugs, frame.columns[j].name)] == frame.columns[j].cells[i]
            && row[ObservationIdKey] == Str(id)
  {
    var renamed := Rename(frame, labelsToSlugs);
    RowOfLastWins(renamed.columns, i, j);
  }

  /** The `(name, dtype)` pairs of `dframe.dtypes`, in column order. */
  function Dtypes(frame: Frame): seq<(string, DType)>
  {
    seq(|frame.columns|, k requires 0 <= k < |frame.columns| => (frame.columns[k].name, frame.columns[k].dtype))
  }

  /** `dframe.dtypes.to_dict()`: column name to dtype, the later column winning on a repeated name. */
  function DtypeMap(cols: seq<Column>): map<string, DType>
    decreases |cols|
  {
    if cols == [] then map[]
    else DtypeMap(cols[..|cols| - 1])[cols[|cols| - 1].name := cols[|cols| - 1].dtype]
  }

  /** The dtype dictionary has one key per column name. */
  lemma {:induction false} DtypeMapKeys(cols: seq<Column>)
    ensures DtypeMap(cols).Keys == NameSet(cols)
    decreases |cols|
  {
    if cols != [] {
      var n := |cols| - 1;
      DtypeMapKeys(cols[..n]);
      assert cols == cols[..n] + [cols[n]];
      assert NameSet(cols) == NameSet(cols[..n]) + {cols[n].name};
    }
  }

  /**
   * The frame after `dframe.join(id_column)`: one more column, named by the
   * generation key, holding `id` in every row.
   */
  function JoinIdColumn(frame: Frame, id: string): Frame
  {
    Frame(frame.columns + [Column(ObservationIdKey, ObjectDtype, seq(frame.height, _ => Str(id)))], frame.height)
  }

  /** Joining the id column gives the same rows as stamping each row dictionary. */
  lemma JoinIdColumnStamps(frame: Frame, id: string)
    requires frame.Rectangular()
    ensures JoinIdColumn(frame, id).Rectangular()
    ensures Rows(JoinIdColumn(frame, id)) == StampedRows(frame, id)
  {
    var joined := JoinIdColumn(frame, id);
    forall i | 0 <= i < frame.height
      ensures RowOf(joined.columns, i) == Stamp(RowOf(frame.columns, i), id)
    {
      assert joined.columns[..|joined.columns| - 1] == frame.columns;
    }
  }
}
