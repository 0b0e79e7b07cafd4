/** The execution interface `DatabaseServiceTrait`: insert, update, delete and
    select. A repository holds one implementation of it; the implementations
    are the SQLite adapter and the scripted test double, so the interface is
    the closed choice between the two, and each operation answers what the
    chosen implementation answers. */
module DatabaseServiceInterface {
  import opened Common
  import opened DatabaseServiceBase
  import DatabaseServices
  import opened FakeDataServices

  datatype DbService =
    | FakeDb(fake: FakeDataService)
    | SqliteDb(sqlite: DatabaseServices.DatabaseService)

  /** The object that implements the interface. */
  function Implementation(db: DbService): set<object>
  {
    if db.FakeDb? then {db.fake} else {db.sqlite}
  }

  /** The service accepts the statement: the test double fails an assertion
      on any statement but the one it expects. */
  predicate Accepts(db: DbService, query: string)
    reads Implementation(db)
  {
    db.FakeDb? ==> query == db.fake.receivedQuery
  }

  /** The service can answer insert, update or delete: the test double has no
      id or count to give when it is scripted with rows. */
  predicate AnswersCount(db: DbService)
    reads Implementation(db)
  {
    db.FakeDb? ==> !db.fake.result.FakeOkSelect?
  }

  /** The service can answer the select: the test double must be scripted
      with rows or an error, and every row the adapter fetches must decode. */
  predicate AnswersRows(db: DbService, query: string)
    reads Implementation(db)
  {
    match db
    case FakeDb(f) => !f.result.FakeOk?
    case SqliteDb(s) => DatabaseServices.SelectDecodable(s.pool, s.driverCalls, query)
  }

  function InsertReply(db: DbService, query: string, blobs: Option<BlobList>): Result<i64>
    reads Implementation(db)
    requires AnswersCount(db)
  {
    match db
    case FakeDb(f) => InsertAnswer(f.result)
    case SqliteDb(s) => DatabaseServices.InsertReply(s.pool, s.driverCalls, query, blobs)
  }

  function UpdateReply(db: DbService, query: string, blobs: Option<BlobList>): Result<u64>
    reads Implementation(db)
    requires AnswersCount(db)
  {
    match db
    case FakeDb(f) => CountAnswer(f.result)
    case SqliteDb(s) => DatabaseServices.UpdateReply(s.pool, s.driverCalls, query, blobs)
  }

  function DeleteReply(db: DbService, query: string): Result<u64>
    reads Implementation(db)
    requires AnswersCount(db)
  {
    match db
    case FakeDb(f) => CountAnswer(f.result)
    case SqliteDb(s) => DatabaseServices.DeleteReply(s.pool, s.driverCalls, query)
  }

  /** The objects the answer to a select is read from. */
  function SelectFootprint(db: DbService): (objs: set<object>)
    reads Implementation(db)
    ensures Implementation(db) <= objs
  {
    Implementation(db) + (if db.FakeDb? then ScriptedRows(db.fake.result) else {})
  }

  /** The columns of the rows a select answers. */
  function SelectReply(db: DbService, query: string): Result<seq<map<string, DatabaseRowValue>>>
    reads Implementation(db), SelectFootprint(db)
    requires AnswersRows(db, query)
  {
    match db
    case FakeDb(f) =>
      if f.result.FakeErr? then Err(DatabaseServiceError(f.result.message)) else Ok(ColumnsOf(f.result.rows))
    case SqliteDb(s) => DatabaseServices.SelectReply(s.pool, s.driverCalls, query)
  }

  /** The adapter behind the interface, if it is the one chosen. An
      operation changes nothing but this adapter's record of the calls made
      to its pool; the test double changes nothing. */
  function Adapter(db: DbService): set<DatabaseServices.DatabaseService>
  {
    if db.SqliteDb? then {db.sqlite} else {}
  }

  /** The adapter's record once an operation that makes `call` has run: the
      acquire and the call, as far as they are made, appended to the calls
      made before. */
  function RecordAfter(db: DbService, call: DatabaseServices.DriverCall): seq<DatabaseServices.DriverCall>
    reads Implementation(db)
    requires db.SqliteDb?
  {
    db.sqlite.driverCalls + DatabaseServices.CallsMade(db.sqlite.pool, db.sqlite.driverCalls, call)
  }

  /** The call the adapter makes to execute a statement with its blobs. */
  function ExecuteCall(query: string, blobs: Option<BlobList>): DatabaseServices.DriverCall
  {
    DatabaseServices.Execute(DatabaseServices.Query(query, DatabaseServices.BlobsToBind(blobs)))
  }

  method Insert(db: DbService, query: string, blobs: Option<BlobList>) returns (r: Result<i64>)
    requires Accepts(db, query) && AnswersCount(db)
    modifies Adapter(db)`driverCalls
    ensures r == old(InsertReply(db, query, blobs))
    ensures db.SqliteDb? ==> db.sqlite.pool == old(db.sqlite.pool)
    ensures db.SqliteDb? ==> db.sqlite.driverCalls == old(RecordAfter(db, ExecuteCall(query, blobs)))
  {
    match db
    case FakeDb(f) => r := f.Insert(query, blobs);
    case SqliteDb(s) => r := s.Insert(query, blobs);
  }

  method Update(db: DbService, query: string, blobs: Option<BlobList>) returns (r: Result<u64>)
    requires Accepts(db, query) && AnswersCount(db)
    modifies Adapter(db)`driverCalls
    ensures r == old(UpdateReply(db, query, blobs))
    ensures db.SqliteDb? ==> db.sqlite.pool == old(db.sqlite.pool)
    ensures db.SqliteDb? ==> db.sqlite.driverCalls == old(RecordAfter(db, ExecuteCall(query, blobs)))
  {
    match db
    case FakeDb(f) => r := f.Update(query, blobs);
    case SqliteDb(s) => r := s.Update(query, blobs);
  }

  method Delete(db: DbService, query: string) returns (r: Result<u64>)
    requires Accepts(db, query) && AnswersCount(db)
    modifies Adapter(db)`driverCalls
    ensures r == old(DeleteReply(db, query))
    ensures db.SqliteDb? ==> db.sqlite.pool == old(db.sqlite.pool)
    ensures db.SqliteDb? ==> db.sqlite.driverCalls == old(RecordAfter(db, ExecuteCall(query, None)))
  {
    match db
    case FakeDb(f) => r := f.Delete(query);
    case SqliteDb(s) => r := s.Delete(query);
  }

  /** `select`: new, distinct rows whose columns are the answer's, in order. */
  method Select(db: DbService, query: string) returns (r: Result<seq<DatabaseRow>>)
    requires Accepts(db, query) && AnswersRows(db, query)
    modifies Adapter(db)`driverCalls
    ensures r.Err? <==> old(SelectReply(db, query)).Err?
    ensures r.Err? ==> r.error == old(SelectReply(db, query)).error
    ensures r.Ok? ==> |r.value| == |old(SelectReply(db, query)).value|
    ensures r.Ok? ==> forall i :: 0 <= i < |r.value| ==>
      fresh(r.value[i]) && r.value[i].columns == old(SelectReply(db, query)).value[i]
    ensures r.Ok? ==> forall i, j :: 0 <= i < j < |r.value| ==> r.value[i] != r.value[j]
    ensures db.SqliteDb? ==> db.sqlite.pool == old(db.sqlite.pool)
    ensures db.SqliteDb? ==> db.sqlite.driverCalls == old(RecordAfter(db, DatabaseServices.Fetch(DatabaseServices.Query(query, []))))
  {
    match db
    case FakeDb(f) => r := f.Select(query);
    case SqliteDb(s) => r := s.Select(query);
  }
}
