/** The repository's unit tests as client code: each wires the repository to a
    test double scripted with the exact statement text the test expects, so
    that verifying a scenario checks both that text and the answer. */
module ItemStorageScenarios {
  import opened Common
  import opened Decimal
  import opened DatabaseServiceBase
  import opened ItemModel
  import opened FakeDataServices
  import opened DatabaseServiceInterface
  import opened ItemStorage
  import DatabaseServices
  import DatabaseServiceScenarios

  /** `add_item` of a new item sends the insert the test expects and answers
      the scripted id. */
  method AddItemAnswersScriptedId(id: i64) returns (r: Result<i64>)
    ensures r == Ok(id)
  {
    var fake := new FakeDataService.Default();
    fake.receivedQuery := "INSERT INTO item (descr, amount, active, picture) VALUES('test', 1.23, true, ?1)";
    fake.result := FakeOk(id);
    var storage := new ItemStorageService(FakeDb(fake));
    var item := new Item(-1, "test", F64("1.23"), true, None);
    AddStatementOfTests();
    r := storage.AddItem(item);
  }

  /** `add_item` answers the service's error with its message. */
  method AddItemPassesError(message: string) returns (r: Result<i64>)
    ensures r.Err? && r.error.message == message
  {
    var fake := new FakeDataService("INSERT INTO item (descr, amount, active, picture) VALUES('test', 1.23, true, ?1)",
                                    FakeErr(message));
    var storage := new ItemStorageService(FakeDb(fake));
    var item := new Item(-1, "test", F64("1.23"), true, None);
    AddStatementOfTests();
    r := storage.AddItem(item);
  }

  /** The insert statement the tests expect is the one `add_item` builds for
      a new item "test", 1.23, active. */
  lemma AddStatementOfTests()
    ensures AddItemQuery("test", F64("1.23"), true)
         == "INSERT INTO item (descr, amount, active, picture) VALUES('test', 1.23, true, ?1)"
  {
  }

  /** The update statement the tests expect is the one `update_item` builds
      for item 1, "test2", 1.23, active. The literal is compared in pieces. */
  lemma UpdateStatementOfTests()
    ensures UpdateItemQuery("test2", F64("1.23"), true, 1)
         == "UPDATE item SET descr = 'test2', amount = 1.23, active = true, picture = ? WHERE id = 1"
  {
    DecimalOfOne();
    UpdateStatementHead();
    UpdateStatementTail("UPDATE item SET descr = 'test2', amount = 1.23");
    UpdateStatementWhole();
  }

  lemma DecimalOfOne()
    ensures IntToDecimal(1) == "1"
  {
    assert DigitChar(1) == '1';
  }

  lemma UpdateStatementHead()
    ensures "UPDATE item SET descr = '" + "test2" + "', amount = " + "1.23"
         == "UPDATE item SET descr = 'test2', amount = 1.23"
  {
  }

  lemma UpdateStatementTail(head: string)
    ensures head + ", active = " + "true" + ", picture = ? WHERE id = " + "1"
         == head + ", active = true, picture = ? WHERE id = 1"
  {
    assert ", active = " + "true" == ", active = true";
    assert ", picture = ? WHERE id = " + "1" == ", picture = ? WHERE id = 1";
    assert ", active = true" + ", picture = ? WHERE id = 1" == ", active = true, picture = ? WHERE id = 1";
  }

  lemma UpdateStatementWhole()
    ensures "UPDATE item SET descr = 'test2', amount = 1.23" + ", active = true, picture = ? WHERE id = 1"
         == "UPDATE item SET descr = 'test2', amount = 1.23, active = true, picture = ? WHERE id = 1"
  {
  }

  /** `update_item` answers the count of affected rows; 0, when no row
      matched, is an answer and not an error. */
  method UpdateItemAnswersCount(affected: i64) returns (r: Result<u64>)
    requires 0 <= affected
    ensures r == Ok(affected)
  {
    var fake := new FakeDataService.Default();
    fake.receivedQuery := "UPDATE item SET descr = 'test2', amount = 1.23, active = true, picture = ? WHERE id = 1";
    fake.result := FakeOk(affected);
    var storage := new ItemStorageService(FakeDb(fake));
    var item := new Item(1, "test2", F64("1.23"), true, None);
    UpdateStatementOfTests();
    r := storage.UpdateItem(item);
  }

  /** `update_item` answers the service's error with its message. */
  method UpdateItemPassesError(message: string) returns (r: Result<u64>)
    ensures r.Err? && r.error.message == message
  {
    var fake := new FakeDataService("UPDATE item SET descr = 'test2', amount = 1.23, active = true, picture = ? WHERE id = 1",
                                    FakeErr(message));
    var storage := new ItemStorageService(FakeDb(fake));
    var item := new Item(1, "test2", F64("1.23"), true, None);
    UpdateStatementOfTests();
    r := storage.UpdateItem(item);
  }

  /** `delete_item(2)` answers the count of deleted rows, 0 included. */
  method DeleteItemAnswersCount(affected: i64) returns (r: Result<u64>)
    requires 0 <= affected
    ensures r == Ok(affected)
  {
    var fake := new FakeDataService.Default();
    fake.receivedQuery := "DELETE FROM item WHERE id = 2";
    fake.result := FakeOk(affected);
    var storage := new ItemStorageService(FakeDb(fake));
    r := storage.DeleteItem(2);
  }

  /** `delete_item(1)` answers the service's error with its message. */
  method DeleteItemPassesError(message: string) returns (r: Result<u64>)
    ensures r.Err? && r.error.message == message
  {
    var fake := new FakeDataService("DELETE FROM item WHERE id = 1", FakeErr(message));
    var storage := new ItemStorageService(FakeDb(fake));
    r := storage.DeleteItem(1);
  }

  /** `get_all_items` answers the select's error with its message. */
  method GetAllItemsPassesError(message: string) returns (r: Result<seq<Item>>)
    ensures r.Err? && r.error.message == message
  {
    var fake := new FakeDataService("SELECT * FROM item", FakeErr(message));
    var storage := new ItemStorageService(FakeDb(fake));
    r := storage.GetAllItems();
  }

  /** The test's sample row: an item row with amount 1.23, active and an
      empty picture. */
  method SampleItemRow(id: i64, descr: string) returns (row: DatabaseRow)
    ensures fresh(row)
    ensures row.columns == ItemRow(ItemFields(id, descr, F64("1.23"), true, []))
  {
    row := new DatabaseRow();
    row.AddColumn("id", Integer(id));
    row.AddColumn("descr", Text(descr));
    row.AddColumn("amount", Real(F64("1.23")));
    row.AddColumn("active", Bool(true));
    row.AddColumn("picture", Blob([]));
  }

  /** `get_all_items` over two rows answers two items with the rows'
      descriptions, in row order. */
  method GetAllItemsKeepsRowOrder() returns (descrs: seq<string>)
    ensures descrs == ["Test1", "Test2"]
  {
    var first := SampleItemRow(1, "Test1");
    var second := SampleItemRow(2, "Test2");
    var fake := new FakeDataService("SELECT * FROM item", FakeOkSelect([first, second]));
    var storage := new ItemStorageService(FakeDb(fake));
    assert IsItemRow(first.columns) && IsItemRow(second.columns);
    var items := storage.GetAllItems();
    descrs := [items.value[0].GetDescr(), items.value[1].GetDescr()];
  }

  /** Over the adapter connected to a pool that numbers its inserts, adding
      the same item twice sends its insert, with its picture bound, twice
      through one connection each, and the two rows get rowids 1 and 2. */
  method AddItemTwiceOverAdapter() returns (calls: seq<DatabaseServices.DriverCall>, first: Result<i64>, second: Result<i64>)
    ensures var statement := DatabaseServices.Query(AddItemQuery("test", F64("1.23"), true), [[]]);
      calls == [DatabaseServices.Acquire, DatabaseServices.Execute(statement),
                DatabaseServices.Acquire, DatabaseServices.Execute(statement)]
    ensures first == Ok(1) && second == Ok(2)
  {
    var db := new DatabaseServices.DatabaseService("items.db");
    var connected := db.Connect(DatabaseServices.Done(DatabaseServiceScenarios.CountingPool()));
    var storage := new ItemStorageService(SqliteDb(db));
    var item := new Item(-1, "test", F64("1.23"), true, None);
    var statement := DatabaseServices.Query(AddItemQuery("test", F64("1.23"), true), [[]]);
    first := storage.AddItem(item);
    assert db.driverCalls == [DatabaseServices.Acquire, DatabaseServices.Execute(statement)];
    assert DatabaseServiceScenarios.ExecuteCount(db.driverCalls + [DatabaseServices.Acquire]) == 1 by {
      var before := db.driverCalls + [DatabaseServices.Acquire];
      assert before[..|before| - 1] == db.driverCalls;
      assert db.driverCalls[..1] == [DatabaseServices.Acquire];
      assert [DatabaseServices.Acquire][..0] == [];
    }
    second := storage.AddItem(item);
    calls := db.driverCalls;
  }
}
