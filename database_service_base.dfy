/** The row value model: the closed set of value kinds a cell can hold, and a
    row as a mapping from column name to value with typed accessors. */
module DatabaseServiceBase {
  import opened Common

  /** `DatabaseRowValue`: exactly one of five kinds per cell. */
  datatype DatabaseRowValue =
    | Integer(i: i64)
    | Text(t: string)
    | Real(r: F64)
    | Blob(b: Blob)
    | Bool(v: bool)

  /** The message of the error an accessor returns when the column holds
      another kind of value; `kind` is the accessor's kind name. */
  function MismatchMessage(columnName: string, kind: string): string
  {
    "The column " + columnName + " is not " + kind + " type"
  }

  function Mismatch<T>(columnName: string, kind: string): Result<T>
  {
    Err(DatabaseServiceError(MismatchMessage(columnName, kind)))
  }

  /** `DatabaseRow`: a row of a select result, built column by column. Each
      accessor requires the column to be present: the source unwraps the
      lookup, so an absent name is a panic. */
  class DatabaseRow {
    var columns: map<string, DatabaseRowValue>

    /** `DatabaseRow::new`: a row without columns. */
    constructor()
      ensures columns == map[]
    {
      columns := map[];
    }

    /** `add_column`: stores `value` under `columnName`, replacing any value
        stored there before and leaving every other column as it was. */
    method AddColumn(columnName: string, value: DatabaseRowValue)
      modifies this
      ensures columns == old(columns)[columnName := value]
      ensures columns.Keys == old(columns).Keys + {columnName}
      ensures forall n :: n in old(columns) && n != columnName ==> columns[n] == old(columns)[n]
      ensures value.Integer? ==> GetInteger(columnName) == Ok(value.i)
      ensures value.Text? ==> GetText(columnName) == Ok(value.t)
      ensures value.Real? ==> GetReal(columnName) == Ok(value.r)
      ensures value.Blob? ==> GetBlob(columnName) == Ok(value.b)
      ensures value.Bool? ==> GetBool(columnName) == Ok(value.v)
    {
      columns := columns[columnName := value];
    }

    /** The derived `Clone`: a new row holding the same columns. */
    method Clone() returns (copy: DatabaseRow)
      ensures fresh(copy)
      ensures copy.columns == columns
    {
      copy := new DatabaseRow();
      copy.columns := columns;
    }

    /** `get_integer`: the payload when the column holds an Integer, otherwise
        the mismatch error naming the column. */
    function GetInteger(columnName: string): (r: Result<i64>)
      reads this
      requires columnName in columns
      ensures r.Ok? <==> columns[columnName].Integer?
      ensures r.Ok? ==> r.value == columns[columnName].i
      ensures r.Err? ==> r.error.message == MismatchMessage(columnName, "Integer")
    {
      match columns[columnName]
      case Integer(i) => Ok(i)
      case _ => Mismatch(columnName, "Integer")
    }

    /** `get_text`. */
    function GetText(columnName: string): (r: Result<string>)
      reads this
      requires columnName in columns
      ensures r.Ok? <==> columns[columnName].Text?
      ensures r.Ok? ==> r.value == columns[columnName].t
      ensures r.Err? ==> r.error.message == MismatchMessage(columnName, "Text")
    {
      match columns[columnName]
      case Text(t) => Ok(t)
      case _ => Mismatch(columnName, "Text")
    }

    /** `get_real`. */
    function GetReal(columnName: string): (r: Result<F64>)
      reads this
      requires columnName in columns
      ensures r.Ok? <==> columns[columnName].Real?
      ensures r.Ok? ==> r.value == columns[columnName].r
      ensures r.Err? ==> r.error.message == MismatchMessage(columnName, "Real")
    {
      match columns[columnName]
      case Real(x) => Ok(x)
      case _ => Mismatch(columnName, "Real")
    }

    /** `get_blob`: a copy of the stored bytes, equal to them. */
    function GetBlob(columnName: string): (r: Result<Blob>)
      reads this
      requires columnName in columns
      ensures r.Ok? <==> columns[columnName].Blob?
      ensures r.Ok? ==> r.value == columns[columnName].b
      ensures r.Err? ==> r.error.message == MismatchMessage(columnName, "Blob")
    {
      match columns[columnName]
      case Blob(b) => Ok(b)
      case _ => Mismatch(columnName, "Blob")
    }

    /** `get_bool`. */
    function GetBool(columnName: string): (r: Result<bool>)
      reads this
      requires columnName in columns
      ensures r.Ok? <==> columns[columnName].Bool?
      ensures r.Ok? ==> r.value == columns[columnName].v
      ensures r.Err? ==> r.error.message == MismatchMessage(columnName, "Bool")
    {
      match columns[columnName]
      case Bool(v) => Ok(v)
      case _ => Mismatch(columnName, "Bool")
    }
  }
}
