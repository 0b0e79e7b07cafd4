/** Client code over the adapter with concrete pools, showing that what the
    pool answers follows the calls made to it before. */
module DatabaseServiceScenarios {
  import opened Common
  import opened DatabaseServices

  /** The number of statements executed among `calls`. */
  function ExecuteCount(calls: seq<DriverCall>): nat
  {
    if calls == [] then 0
    else ExecuteCount(calls[..|calls| - 1]) + (if calls[|calls| - 1].Execute? then 1 else 0)
  }

  /** A pool over a table with an autoincrement key: each insert is given
      the rowid one past the number of statements executed before it. */
  function CountingPool(): SqlitePool
  {
    SqlitePool(
      calls => None,
      (calls, statement) =>
        var n := ExecuteCount(calls);
        Done(ExecResult(if n < 0x7FFF_FFFF then n + 1 else 0, 1)),
      (calls, statement) => Done([]))
  }

  /** A pool whose first acquire times out and whose later acquires succeed. */
  function FlakyPool(): SqlitePool
  {
    SqlitePool(
      calls => if calls == [] then Some("pool timed out") else None,
      (calls, statement) => Done(ExecResult(7, 1)),
      (calls, statement) => Done([]))
  }

  /** Two inserts of the same statement are given two different rowids. */
  method InsertsGetNewRowids() returns (first: Result<i64>, second: Result<i64>)
    ensures first == Ok(1) && second == Ok(2)
  {
    var db := new DatabaseService("items.db");
    var connected := db.Connect(Done(CountingPool()));
    var statement := "INSERT INTO item (descr) VALUES('a')";
    first := db.Insert(statement, None);
    assert db.driverCalls == [Acquire, Execute(Query(statement, []))];
    assert ExecuteCount(db.driverCalls + [Acquire]) == 1 by {
      var calls := db.driverCalls + [Acquire];
      assert calls[..|calls| - 1] == db.driverCalls;
      assert db.driverCalls[..1] == [Acquire];
      assert [Acquire][..0] == [];
    }
    second := db.Insert(statement, None);
  }

  /** An acquire failure is answered with the driver's message, and the same
      call made again succeeds. */
  method AcquireFailureIsTransient() returns (first: Result<i64>, second: Result<i64>)
    ensures first == Err(DatabaseServiceError("pool timed out"))
    ensures second == Ok(7)
  {
    var db := new DatabaseService("items.db");
    var connected := db.Connect(Done(FlakyPool()));
    first := db.Insert("INSERT INTO item (descr) VALUES('a')", None);
    second := db.Insert("INSERT INTO item (descr) VALUES('a')", None);
  }

  /** Every operation is refused while disconnected, and no call is made. */
  method DisconnectedRefusesAll(query: string) returns (i: Result<i64>, u: Result<u64>, d: Result<u64>, s: Result<seq<DatabaseServiceBase.DatabaseRow>>)
    ensures i == Err(DatabaseServiceError(NotConnectedMessage))
    ensures u == Err(DatabaseServiceError(NotConnectedMessage))
    ensures d == Err(DatabaseServiceError(NotConnectedMessage))
    ensures s == Err(DatabaseServiceError(NotConnectedMessage))
  {
    var db := new DatabaseService("items.db");
    i := db.Insert(query, None);
    u := db.Update(query, None);
    d := db.Delete(query);
    s := db.Select(query);
  }
}
