/** The concrete execution adapter `DatabaseService`: a connection guard over an
    SQLite pool, positional binding of blobs, translation of driver failures
    into `DatabaseServiceError`, and decoding of fetched rows by column type
    name. The driver itself is not modelled: what it answers is data. */
module DatabaseServices {
  import opened Common
  import opened DatabaseServiceBase

  /** A driver outcome: a value, or a failure known by its `to_string()`. */
  datatype DriverResult<T> = Done(value: T) | Failed(message: string)

  /** What `row.try_get(ordinal)` yields for the one cell of a fetched column,
      for each Rust type the dispatch may ask for; None when that decoding
      fails (the source unwraps it, so that is a panic). */
  datatype SqlCell = SqlCell(
    asInteger: Option<i64>,
    asText: Option<string>,
    asReal: Option<F64>,
    asBlob: Option<Blob>,
    asBool: Option<bool>)

  /** One column of a fetched row: its name, the type name the driver reports
      for it, and its cell. */
  datatype SqlColumn = SqlColumn(name: string, typeName: string, cell: SqlCell)

  /** A fetched row, its columns in ordinal order. */
  type SqlRow = seq<SqlColumn>

  /** What executing a statement reports. */
  datatype ExecResult = ExecResult(lastInsertRowid: i64, rowsAffected: u64)

  /** A prepared statement: its text and the arguments bound so far. */
  datatype Query = Query(sql: string, arguments: BlobList) {
    /** `bind`: the next positional argument. */
    function Bind(blob: Blob): Query
    {
      Query(sql, arguments + [blob])
    }
  }

  /** A call the adapter makes to an open pool. */
  datatype DriverCall = Acquire | Execute(statement: Query) | Fetch(statement: Query)

  /** An open `SqlitePool`, given by how it answers each call: the failure of
      `acquire` if it fails, and the outcome of executing or fetching a
      statement with its bound arguments. Each answer may depend on every
      call made to the pool before it, so an executed statement can change
      what later calls answer (a new rowid, other rows) and `acquire` may
      fail once and succeed later. */
  datatype SqlitePool = SqlitePool(
    acquire: seq<DriverCall> -> Option<string>,
    execute: (seq<DriverCall>, Query) -> DriverResult<ExecResult>,
    fetchAll: (seq<DriverCall>, Query) -> DriverResult<seq<SqlRow>>)

  /** `get_not_connected_msg`. */
  const NotConnectedMessage := "Database is not connected. Call the connect method first."

  /** The blobs an optional list binds: all of them in order, or none. */
  function BlobsToBind(blobs: Option<BlobList>): BlobList
  {
    if blobs.Some? then blobs.value else []
  }

  /** The column type names the select dispatch knows. */
  predicate KnownTypeName(typeName: string)
  {
    typeName in {"INTEGER", "TEXT", "REAL", "BLOB", "BOOLEAN"}
  }

  /** The dispatch can decode the column: its type name is known and the
      driver decodes its cell as the matching Rust type. Anything else is
      `unimplemented!()` or a failed unwrap. */
  predicate Decodable(column: SqlColumn)
  {
    match column.typeName
    case "INTEGER" => column.cell.asInteger.Some?
    case "TEXT" => column.cell.asText.Some?
    case "REAL" => column.cell.asReal.Some?
    case "BLOB" => column.cell.asBlob.Some?
    case "BOOLEAN" => column.cell.asBool.Some?
    case _ => false
  }

  /** The select dispatch from a column's type name to a value kind. */
  function DecodeValue(column: SqlColumn): (v: DatabaseRowValue)
    requires Decodable(column)
    ensures KnownTypeName(column.typeName)
    ensures v.Integer? <==> column.typeName == "INTEGER"
    ensures v.Text? <==> column.typeName == "TEXT"
    ensures v.Real? <==> column.typeName == "REAL"
    ensures v.Blob? <==> column.typeName == "BLOB"
    ensures v.Bool? <==> column.typeName == "BOOLEAN"
    ensures v.Integer? ==> v.i == column.cell.asInteger.value
    ensures v.Text? ==> v.t == column.cell.asText.value
    ensures v.Real? ==> v.r == column.cell.asReal.value
    ensures v.Blob? ==> v.b == column.cell.asBlob.value
    ensures v.Bool? ==> v.v == column.cell.asBool.value
  {
    match column.typeName
    case "INTEGER" => Integer(column.cell.asInteger.value)
    case "TEXT" => Text(column.cell.asText.value)
    case "REAL" => Real(column.cell.asReal.value)
    case "BLOB" => Blob(column.cell.asBlob.value)
    case "BOOLEAN" => Bool(column.cell.asBool.value)
  }

  predicate RowDecodable(row: SqlRow)
  {
    forall j :: 0 <= j < |row| ==> Decodable(row[j])
  }

  /** The columns of the row that `select` builds from a fetched row, adding
      the columns in ordinal order. */
  function DecodeRow(row: SqlRow): map<string, DatabaseRowValue>
    requires RowDecodable(row)
  {
    if row == [] then map[]
    else DecodeRow(row[..|row| - 1])[row[|row| - 1].name := DecodeValue(row[|row| - 1])]
  }

  /** A decoded row has a column for every result column name, and no
      other column. */
  lemma {:induction false} DecodeRowKeys(row: SqlRow)
    requires RowDecodable(row)
    ensures forall j :: 0 <= j < |row| ==> row[j].name in DecodeRow(row)
    ensures forall n :: n in DecodeRow(row) ==> exists j :: 0 <= j < |row| && row[j].name == n
  {
    if row != [] {
      var init := row[..|row| - 1];
      DecodeRowKeys(init);
      forall n | n in DecodeRow(row)
        ensures exists j :: 0 <= j < |row| && row[j].name == n
      {
        if n != row[|row| - 1].name {
          assert n in DecodeRow(init);
          var j :| 0 <= j < |init| && init[j].name == n;
          assert row[j].name == n;
        }
      }
    }
  }

  /** The column of a name holds the value decoded from the last result
      column of that name. */
  lemma {:induction false} DecodeRowValue(row: SqlRow, j: nat)
    requires RowDecodable(row)
    requires j < |row|
    requires forall k :: j < k < |row| ==> row[k].name != row[j].name
    ensures row[j].name in DecodeRow(row)
    ensures DecodeRow(row)[row[j].name] == DecodeValue(row[j])
  {
    if j < |row| - 1 {
      var init := row[..|row| - 1];
      DecodeRowValue(init, j);
      assert init[j] == row[j];
    }
  }

  /** The calls one operation makes to the pool, after the calls `calls`:
      none while disconnected, then an acquire, then `call` if the acquire
      succeeded. */
  function CallsMade(pool: Option<SqlitePool>, calls: seq<DriverCall>, call: DriverCall): seq<DriverCall>
  {
    if pool.None? then []
    else if pool.value.acquire(calls).Some? then [Acquire]
    else [Acquire, call]
  }

  /** Every row that a successful select, made after the calls `calls`,
      fetches can be decoded. */
  predicate SelectDecodable(pool: Option<SqlitePool>, calls: seq<DriverCall>, query: string)
  {
    pool.Some? && pool.value.acquire(calls).None? && pool.value.fetchAll(calls + [Acquire], Query(query, [])).Done? ==>
      forall i :: 0 <= i < |pool.value.fetchAll(calls + [Acquire], Query(query, [])).value| ==>
        RowDecodable(pool.value.fetchAll(calls + [Acquire], Query(query, [])).value[i])
  }

  /** The answers of the four operations in a given connection state, after
      the calls `calls` to the pool. */
  function InsertReply(pool: Option<SqlitePool>, calls: seq<DriverCall>, query: string, blobs: Option<BlobList>): Result<i64>
  {
    if pool.None? then Err(DatabaseServiceError(NotConnectedMessage))
    else if pool.value.acquire(calls).Some? then Err(DatabaseServiceError(pool.value.acquire(calls).value))
    else match pool.value.execute(calls + [Acquire], Query(query, BlobsToBind(blobs)))
      case Done(res) => Ok(res.lastInsertRowid)
      case Failed(m) => Err(DatabaseServiceError(m))
  }

  function UpdateReply(pool: Option<SqlitePool>, calls: seq<DriverCall>, query: string, blobs: Option<BlobList>): Result<u64>
  {
    if pool.None? then Err(DatabaseServiceError(NotConnectedMessage))
    else if pool.value.acquire(calls).Some? then Err(DatabaseServiceError(pool.value.acquire(calls).value))
    else match pool.value.execute(calls + [Acquire], Query(query, BlobsToBind(blobs)))
      case Done(res) => Ok(res.rowsAffected)
      case Failed(m) => Err(DatabaseServiceError(m))
  }

  function DeleteReply(pool: Option<SqlitePool>, calls: seq<DriverCall>, query: string): Result<u64>
  {
    if pool.None? then Err(DatabaseServiceError(NotConnectedMessage))
    else if pool.value.acquire(calls).Some? then Err(DatabaseServiceError(pool.value.acquire(calls).value))
    else match pool.value.execute(calls + [Acquire], Query(query, []))
      case Done(res) => Ok(res.rowsAffected)
      case Failed(m) => Err(DatabaseServiceError(m))
  }

  /** The columns of the rows `select` returns. */
  function SelectReply(pool: Option<SqlitePool>, calls: seq<DriverCall>, query: string): Result<seq<map<string, DatabaseRowValue>>>
    requires SelectDecodable(pool, calls, query)
  {
    if pool.None? then Err(DatabaseServiceError(NotConnectedMessage))
    else if pool.value.acquire(calls).Some? then Err(DatabaseServiceError(pool.value.acquire(calls).value))
    else match pool.value.fetchAll(calls + [Acquire], Query(query, []))
      case Done(rows) => Ok(seq(|rows|, i requires 0 <= i < |rows| => DecodeRow(rows[i])))
      case Failed(m) => Err(DatabaseServiceError(m))
  }

  /** The `for blob in blobs.unwrap_or_else(|| vec![])` loop: binds every
      blob, in the order given, to a statement that starts with none. */
  method BindBlobs(query: string, blobs: Option<BlobList>) returns (q: Query)
    ensures q.sql == query
    ensures q.arguments == BlobsToBind(blobs)
    ensures blobs.None? ==> q.arguments == []
    ensures blobs.Some? ==> |q.arguments| == |blobs.value|
    ensures blobs.Some? ==> forall k :: 0 <= k < |blobs.value| ==> q.arguments[k] == blobs.value[k]
  {
    q := Query(query, []);
    var list := BlobsToBind(blobs);
    for i := 0 to |list|
      invariant q.sql == query
      invariant q.arguments == list[..i]
    {
      q := q.Bind(list[i]);
    }
  }

  /** The inner loop of `select`: a new row, filled by adding the fetched
      row's columns in ordinal order. */
  method BuildRow(row: SqlRow) returns (newRow: DatabaseRow)
    requires RowDecodable(row)
    ensures fresh(newRow)
    ensures newRow.columns == DecodeRow(row)
  {
    newRow := new DatabaseRow();
    for j := 0 to |row|
      invariant fresh(newRow)
      invariant newRow.columns == DecodeRow(row[..j])
    {
      assert row[..j + 1][..j] == row[..j];
      newRow.AddColumn(row[j].name, DecodeValue(row[j]));
    }
    assert row[..|row|] == row;
  }

  class DatabaseService {
    var databaseFilePath: string
    var pool: Option<SqlitePool>
    /** The calls made to the current pool so far, oldest first. */
    var driverCalls: seq<DriverCall>

    /** `DatabaseService::new`: remembers the path and starts disconnected. */
    constructor(databaseFilePath: string)
      ensures this.databaseFilePath == databaseFilePath
      ensures pool.None? && driverCalls == []
    {
      this.databaseFilePath := databaseFilePath;
      pool := None;
      driverCalls := [];
    }

    /** `connect`. `outcome` is what `SqlitePool::connect(databaseFilePath)`
        yields. On success the service is connected to a pool that has not
        been called yet; on failure the driver's message is returned and the
        state is left as it was. */
    method Connect(outcome: DriverResult<SqlitePool>) returns (r: Result<()>)
      modifies this`pool, this`driverCalls
      ensures outcome.Done? ==> pool == Some(outcome.value) && driverCalls == [] && r == Ok(())
      ensures outcome.Failed? ==> pool == old(pool) && driverCalls == old(driverCalls)
      ensures outcome.Failed? ==> r == Err(DatabaseServiceError(outcome.message))
    {
      match outcome
      case Failed(m) =>
        return Err(DatabaseServiceError(m));
      case Done(p) =>
        pool := Some(p);
        driverCalls := [];
        return Ok(());
    }

    /** `insert`: the not-connected error while disconnected, with no call
        made; otherwise the acquire's failure message, or the outcome of
        executing the statement with the blobs bound in order: the rowid of
        the inserted row or the driver's message. */
    method Insert(query: string, blobs: Option<BlobList>) returns (r: Result<i64>)
      modifies this`driverCalls
      ensures r == InsertReply(pool, old(driverCalls), query, blobs)
      ensures driverCalls == old(driverCalls) + CallsMade(pool, old(driverCalls), Execute(Query(query, BlobsToBind(blobs))))
      ensures pool.None? ==> r == Err(DatabaseServiceError(NotConnectedMessage)) && driverCalls == old(driverCalls)
    {
      if pool.None? {
        return Err(DatabaseServiceError(NotConnectedMessage));
      }
      var p := pool.value;
      var failure := p.acquire(driverCalls);
      driverCalls := driverCalls + [Acquire];
      if failure.Some? {
        return Err(DatabaseServiceError(failure.value));
      }
      var statement := BindBlobs(query, blobs);
      var outcome := p.execute(driverCalls, statement);
      driverCalls := driverCalls + [Execute(statement)];
      match outcome
      case Failed(m) =>
        r := Err(DatabaseServiceError(m));
      case Done(res) =>
        r := Ok(res.lastInsertRowid);
    }

    /** `update`: as `insert`, but answers the number of affected rows. */
    method Update(query: string, blobs: Option<BlobList>) returns (r: Result<u64>)
      modifies this`driverCalls
      ensures r == UpdateReply(pool, old(driverCalls), query, blobs)
      ensures driverCalls == old(driverCalls) + CallsMade(pool, old(driverCalls), Execute(Query(query, BlobsToBind(blobs))))
      ensures pool.None? ==> r == Err(DatabaseServiceError(NotConnectedMessage)) && driverCalls == old(driverCalls)
    {
      if pool.None? {
        return Err(DatabaseServiceError(NotConnectedMessage));
      }
      var p := pool.value;
      var failure := p.acquire(driverCalls);
      driverCalls := driverCalls + [Acquire];
      if failure.Some? {
        return Err(DatabaseServiceError(failure.value));
      }
      var statement := BindBlobs(query, blobs);
      var outcome := p.execute(driverCalls, statement);
      driverCalls := driverCalls + [Execute(statement)];
      match outcome
      case Failed(m) =>
        r := Err(DatabaseServiceError(m));
      case Done(res) =>
        r := Ok(res.rowsAffected);
    }

    /** `delete`: executes the statement with nothing bound and answers the
        number of affected rows. */
    method Delete(query: string) returns (r: Result<u64>)
      modifies this`driverCalls
      ensures r == DeleteReply(pool, old(driverCalls), query)
      ensures driverCalls == old(driverCalls) + CallsMade(pool, old(driverCalls), Execute(Query(query, [])))
      ensures pool.None? ==> r == Err(DatabaseServiceError(NotConnectedMessage)) && driverCalls == old(driverCalls)
    {
      if pool.None? {
        return Err(DatabaseServiceError(NotConnectedMessage));
      }
      var p := pool.value;
      var failure := p.acquire(driverCalls);
      driverCalls := driverCalls + [Acquire];
      if failure.Some? {
        return Err(DatabaseServiceError(failure.value));
      }
      var outcome := p.execute(driverCalls, Query(query, []));
      driverCalls := driverCalls + [Execute(Query(query, []))];
      match outcome
      case Failed(m) =>
        r := Err(DatabaseServiceError(m));
      case Done(res) =>
        r := Ok(res.rowsAffected);
    }

    /** `select`: one new row per fetched row, in fetch order, each a
        distinct object holding one column per result column, keyed by its
        name and decoded by its type name. */
    method Select(query: string) returns (r: Result<seq<DatabaseRow>>)
      requires SelectDecodable(pool, driverCalls, query)
      modifies this`driverCalls
      ensures r.Err? <==> SelectReply(pool, old(driverCalls), query).Err?
      ensures r.Err? ==> r.error == SelectReply(pool, old(driverCalls), query).error
      ensures r.Ok? ==> |r.value| == |SelectReply(pool, old(driverCalls), query).value|
      ensures r.Ok? ==> forall i :: 0 <= i < |r.value| ==>
        fresh(r.value[i]) && r.value[i].columns == SelectReply(pool, old(driverCalls), query).value[i]
      ensures r.Ok? ==> forall i, j :: 0 <= i < j < |r.value| ==> r.value[i] != r.value[j]
      ensures driverCalls == old(driverCalls) + CallsMade(pool, old(driverCalls), Fetch(Query(query, [])))
      ensures pool.None? ==> r == Err(DatabaseServiceError(NotConnectedMessage)) && driverCalls == old(driverCalls)
    {
      if pool.None? {
        return Err(DatabaseServiceError(NotConnectedMessage));
      }
      var p := pool.value;
      var failure := p.acquire(driverCalls);
      driverCalls := driverCalls + [Acquire];
      if failure.Some? {
        return Err(DatabaseServiceError(failure.value));
      }
      var fetched := p.fetchAll(driverCalls, Query(query, []));
      driverCalls := driverCalls + [Fetch(Query(query, []))];
      if fetched.Failed? {
        return Err(DatabaseServiceError(fetched.message));
      }
      var rows := fetched.value;
      var retval: seq<DatabaseRow> := [];
      ghost var calls := driverCalls;
      for i := 0 to |rows|
        invariant driverCalls == calls
        invariant |retval| == i
        invariant forall k :: 0 <= k < i ==> fresh(retval[k]) && retval[k].columns == DecodeRow(rows[k])
        invariant forall k, l :: 0 <= k < l < i ==> retval[k] != retval[l]
      {
        var newRow := BuildRow(rows[i]);
        retval := retval + [newRow];
      }
      r := Ok(retval);
    }
  }
}
