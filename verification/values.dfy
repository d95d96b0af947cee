/**
 * Values shared by the observation store and the date tools: the cells of a
 * data frame, the fields of a stored document and the values a JSON decoder
 * produces, together with the Python exceptions the core raises or catches.
 */
module Values {

  /** A Python `datetime`; its fields carry no calendar meaning in this model. */
  datatype DateTime = DateTime(year: int, month: int, day: int,
                               hour: int, minute: int, second: int, microsecond: int)

  /** A cell, a document field or a decoded JSON value. */
  datatype Value =
    | Null
    | Bool(b: bool)
    | Int(i: int)
    | Float(x: real)
    | NaN
    | Str(s: string)
    | Date(d: DateTime)
    | List(items: seq<Value>)
    | Doc(fields: map<string, Value>)

  /** A stored document (one observation) or one row of a frame as a dictionary. */
  type Row = map<string, Value>

  /** A MongoDB filter document: its top-level entries are implicitly conjoined. */
  type Query = map<string, Value>

  /** The Python exceptions that the core raises, catches or lets through. */
  datatype Exception =
    | ValueError(msg: string)
    | OverflowError(msg: string)
    | TypeError(msg: string)
    | AttributeError(msg: string)
    | JSONError(msg: string)

  datatype Option<T> = None | Some(value: T)

  /** A computation that returns a value or raises. */
  datatype Result<T> = Ok(value: T) | Raise(exc: Exception)

  /** A computation run for its effect that returns normally or raises. */
  datatype Outcome = Pass | Fail(exc: Exception)

  /** What `json.loads(text, object_hook=json_util.object_hook)` gives: a value, or a `ValueError` with its message. */
  datatype JsonResult = Parsed(value: Value) | Malformed(reason: string)

  /** The message prefixes of the `JSONError`s that `find` raises on undecodable query and select texts. */
  const QueryError: string := "cannot decode query: "
  const SelectError: string := "cannot decode select: "

  /** Raised by `query[DATASET_OBSERVATION_ID] = ...` on a query that is not a dictionary. */
  const NotAssignable: Exception := TypeError("object does not support item assignment")

  /** Python truthiness of a text argument that may be `None`. */
  predicate IsGiven(text: Option<string>)
  {
    text.Some? && text.value != ""
  }

  /** Python truthiness of a decoded value (`None`, `False`, `0`, `0.0`, `''`, `[]` and `{}` are false). */
  predicate Truthy(v: Value)
  {
    match v
    case Null => false
    case Bool(b) => b
    case Int(i) => i != 0
    case Float(x) => x != 0.0
    case NaN => true
    case Str(s) => s != ""
    case Date(_) => true
    case List(items) => items != []
    case Doc(fields) => fields != map[]
  }
}
