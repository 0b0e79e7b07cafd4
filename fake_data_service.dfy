/** The scripted test double `FakeDataService`: it holds the one statement it
    expects and a canned result. Receiving any other statement fails an
    assertion, and asking for a kind of answer the script does not hold is
    `unimplemented!()`; both are preconditions here. */
module FakeDataServices {
  import opened Common
  import opened DatabaseServiceBase

  /** `FakeResult`: an id or count, a list of rows, or an error message. */
  datatype FakeResult =
    | FakeOk(n: i64)
    | FakeOkSelect(rows: seq<DatabaseRow>)
    | FakeErr(message: string)

  /** The rows a script holds, as a set of objects. */
  function ScriptedRows(result: FakeResult): set<DatabaseRow>
  {
    if result.FakeOkSelect? then set r | r in result.rows else {}
  }

  /** The columns of a list of rows. */
  function ColumnsOf(rows: seq<DatabaseRow>): (cs: seq<map<string, DatabaseRowValue>>)
    reads set r | r in rows
    ensures |cs| == |rows|
    ensures forall i :: 0 <= i < |rows| ==> cs[i] == rows[i].columns
  {
    seq(|rows|, i reads set r | r in rows requires 0 <= i < |rows| => rows[i].columns)
  }

  /** What the script answers to `insert`. */
  function InsertAnswer(result: FakeResult): Result<i64>
    requires !result.FakeOkSelect?
  {
    if result.FakeOk? then Ok(result.n) else Err(DatabaseServiceError(result.message))
  }

  /** What the script answers to `update` and `delete`: the scripted number
      read as `u64`. */
  function CountAnswer(result: FakeResult): Result<u64>
    requires !result.FakeOkSelect?
  {
    if result.FakeOk? then Ok(AsU64(result.n)) else Err(DatabaseServiceError(result.message))
  }

  class FakeDataService {
    var receivedQuery: string
    var result: FakeResult

    /** `FakeDataService::new`. */
    constructor(query: string, result: FakeResult)
      ensures receivedQuery == query && this.result == result
    {
      receivedQuery := query;
      this.result := result;
    }

    /** `FakeDataService::default`: expects the empty statement, answers 0. */
    constructor Default()
      ensures receivedQuery == "" && result == FakeOk(0)
    {
      receivedQuery := "";
      result := FakeOk(0);
    }

    /** `insert`: the scripted id, or the scripted error message; the blobs
        are ignored. */
    method Insert(query: string, blobs: Option<BlobList>) returns (r: Result<i64>)
      requires query == receivedQuery
      requires !result.FakeOkSelect?
      ensures r == InsertAnswer(result)
      ensures result.FakeOk? ==> r == Ok(result.n)
      ensures result.FakeErr? ==> r == Err(DatabaseServiceError(result.message))
    {
      match result
      case FakeOk(x) => r := Ok(x);
      case FakeErr(e) => r := Err(DatabaseServiceError(e));
    }

    /** `update`: the scripted number as `u64`, or the scripted error. */
    method Update(query: string, blobs: Option<BlobList>) returns (r: Result<u64>)
      requires query == receivedQuery
      requires !result.FakeOkSelect?
      ensures r == CountAnswer(result)
      ensures result.FakeOk? && 0 <= result.n ==> r == Ok(result.n)
      ensures result.FakeErr? ==> r == Err(DatabaseServiceError(result.message))
    {
      match result
      case FakeOk(x) => r := Ok(AsU64(x));
      case FakeErr(e) => r := Err(DatabaseServiceError(e));
    }

    /** `delete`: as `update`. */
    method Delete(query: string) returns (r: Result<u64>)
      requires query == receivedQuery
      requires !result.FakeOkSelect?
      ensures r == CountAnswer(result)
      ensures result.FakeOk? && 0 <= result.n ==> r == Ok(result.n)
      ensures result.FakeErr? ==> r == Err(DatabaseServiceError(result.message))
    {
      match result
      case FakeOk(x) => r := Ok(AsU64(x));
      case FakeErr(e) => r := Err(DatabaseServiceError(e));
    }

    /** `select`: new, distinct copies of the scripted rows (`to_vec` clones
        them), in order, or the scripted error. */
    method Select(query: string) returns (r: Result<seq<DatabaseRow>>)
      requires query == receivedQuery
      requires !result.FakeOk?
      ensures result.FakeErr? ==> r == Err(DatabaseServiceError(result.message))
      ensures result.FakeOkSelect? ==> r.Ok? && |r.value| == |result.rows|
      ensures result.FakeOkSelect? ==> forall i :: 0 <= i < |r.value| ==>
        fresh(r.value[i]) && r.value[i].columns == result.rows[i].columns
      ensures result.FakeOkSelect? ==> forall i, j :: 0 <= i < j < |r.value| ==> r.value[i] != r.value[j]
    {
      match result
      case FakeErr(e) =>
        r := Err(DatabaseServiceError(e));
      case FakeOkSelect(rows) =>
        var copies: seq<DatabaseRow> := [];
        for i := 0 to |rows|
          invariant |copies| == i
          invariant forall k :: 0 <= k < i ==> fresh(copies[k]) && copies[k].columns == rows[k].columns
          invariant forall k, l :: 0 <= k < l < i ==> copies[k] != copies[l]
        {
          var copy := rows[i].Clone();
          copies := copies + [copy];
        }
        r := Ok(copies);
    }
  }
}
