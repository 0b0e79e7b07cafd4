/** The older repository that the program's entry point wires in: it stores
    only an item's description, through a service whose insert takes the
    statement text alone. Its items are two-field records. */
module RootItemStorage {
  import opened Common

  /** The two-field `Item` of this snapshot. */
  datatype Item = Item(id: i64, descr: string) {
    function GetDescr(): string
    {
      descr
    }
  }

  /** The statement `add_item` sends: the fixed opening, the description and
      the fixed closing. */
  function AddItemQuery(item: Item): (q: string)
    ensures |q| == |item.descr| + 35
    ensures q[33..33 + |item.descr|] == item.descr
  {
    var opening := "INSERT INTO item (descr) VALUES('";
    assert |opening| == 33;
    opening + item.GetDescr() + "')"
  }

  /** Only the description reaches the statement: items that differ in their
      id alone, such as an unsaved item with id -1 and a stored one, give the
      same statement. */
  lemma AddItemQueryIgnoresId(item: Item, id: i64)
    ensures AddItemQuery(item.(id := id)) == AddItemQuery(item)
  {
  }

  /** The scripted result of this snapshot's test double. */
  datatype FakeResult = FakeOk(n: i64) | FakeErr(message: string)

  /** What the script answers to `insert`. */
  function InsertAnswer(result: FakeResult): (r: Result<i64>)
    ensures result.FakeOk? <==> r.Ok?
    ensures r.Ok? ==> r.value == result.n
    ensures r.Err? ==> r.error.message == result.message
  {
    match result
    case FakeOk(x) => Ok(x)
    case FakeErr(e) => Err(DatabaseServiceError(e))
  }

  /** This snapshot's test double: it expects one statement and answers the
      scripted id or error. */
  class FakeDataService {
    var receivedQuery: string
    var result: FakeResult

    constructor(query: string, result: FakeResult)
      ensures receivedQuery == query && this.result == result
    {
      receivedQuery := query;
      this.result := result;
    }

    constructor Default()
      ensures receivedQuery == "" && result == FakeOk(0)
    {
      receivedQuery := "";
      result := FakeOk(0);
    }

    /** `insert`: the statement must be the expected one (an assertion in the
        source); answers the scripted id or the scripted message. */
    method Insert(query: string) returns (r: Result<i64>)
      requires query == receivedQuery
      ensures r == InsertAnswer(result)
    {
      match result
      case FakeOk(x) => r := Ok(x);
      case FakeErr(e) => r := Err(DatabaseServiceError(e));
    }
  }

  /** Any other implementation of this snapshot's interface, such as its
      SQLite adapter: it records each statement it receives, and its answer
      is some function of the statements received before and the current
      one. */
  class RecordingService {
    const answer: (seq<string>, string) -> Result<i64>
    var received: seq<string>

    constructor(answer: (seq<string>, string) -> Result<i64>)
      ensures this.answer == answer && received == []
    {
      this.answer := answer;
      received := [];
    }

    method Insert(query: string) returns (r: Result<i64>)
      modifies this`received
      ensures r == answer(old(received), query)
      ensures received == old(received) + [query]
    {
      r := answer(received, query);
      received := received + [query];
    }
  }

  /** This snapshot's `DatabaseServiceTrait`, as the choice between its test
      double and any other implementation. The repository only calls
      `insert`. */
  datatype RootDbService =
    | RootFake(fake: FakeDataService)
    | Recording(service: RecordingService)

  function Implementation(db: RootDbService): set<object>
  {
    if db.RootFake? then {db.fake} else {db.service}
  }

  /** The objects `insert` may change: the record of received statements. */
  function Changes(db: RootDbService): set<object>
  {
    if db.Recording? then {db.service} else {}
  }

  /** The service accepts the statement: the test double fails an assertion
      on any statement but the one it expects. */
  predicate Accepts(db: RootDbService, query: string)
    reads Implementation(db)
  {
    db.RootFake? ==> query == db.fake.receivedQuery
  }

  function InsertReply(db: RootDbService, query: string): Result<i64>
    reads Implementation(db)
  {
    match db
    case RootFake(f) => InsertAnswer(f.result)
    case Recording(s) => s.answer(s.received, query)
  }

  /** `insert` through the interface: the chosen implementation's answer;
      the recording implementation has received the statement. */
  method Insert(db: RootDbService, query: string) returns (r: Result<i64>)
    requires Accepts(db, query)
    modifies Changes(db)
    ensures r == old(InsertReply(db, query))
    ensures db.Recording? ==> db.service.received == old(db.service.received) + [query]
  {
    match db
    case RootFake(f) => r := f.Insert(query);
    case Recording(s) => r := s.Insert(query);
  }

  class ItemStorageService {
    const dbService: RootDbService

    constructor(dbService: RootDbService)
      ensures this.dbService == dbService
    {
      this.dbService := dbService;
    }

    /** `add_item`: sends the description-only insert and answers the
        service's id, or its error with the same message. */
    method AddItem(item: Item) returns (r: Result<i64>)
      requires Accepts(dbService, AddItemQuery(item))
      modifies Changes(dbService)
      ensures r == old(InsertReply(dbService, AddItemQuery(item)))
      ensures dbService.Recording? ==> dbService.service.received == old(dbService.service.received) + [AddItemQuery(item)]
    {
      r := Insert(dbService, AddItemQuery(item));
    }
  }

  /** The snapshot's tests: the unsaved item (-1, "test") is inserted with
      the statement the test expects and the scripted id is answered. */
  method AddItemAnswersScriptedId(id: i64) returns (r: Result<i64>)
    ensures r == Ok(id)
  {
    var fake := new FakeDataService.Default();
    fake.receivedQuery := "INSERT INTO item (descr) VALUES('test')";
    fake.result := FakeOk(id);
    var storage := new ItemStorageService(RootFake(fake));
    r := storage.AddItem(Item(-1, "test"));
  }

  /** The scripted error reaches the caller with its message. */
  method AddItemPassesError(message: string) returns (r: Result<i64>)
    ensures r.Err? && r.error.message == message
  {
    var fake := new FakeDataService("INSERT INTO item (descr) VALUES('test')", FakeErr(message));
    var storage := new ItemStorageService(RootFake(fake));
    r := storage.AddItem(Item(-1, "test"));
  }

  /** Over a recording implementation, two items with the same description
      send the same statement twice, and the second answer may differ from
      the first (here, a rowid one past the number of earlier statements). */
  method AddItemSendsDescrOnly() returns (sent: seq<string>, first: Result<i64>, second: Result<i64>)
    ensures sent == ["INSERT INTO item (descr) VALUES('test')", "INSERT INTO item (descr) VALUES('test')"]
    ensures first == Ok(1) && second == Ok(2)
  {
    var service := new RecordingService((before: seq<string>, query: string) =>
      if |before| < 1000 then Ok(|before| + 1) else Ok(0));
    var storage := new ItemStorageService(Recording(service));
    var statement := "INSERT INTO item (descr) VALUES('test')";
    assert AddItemQuery(Item(-1, "test")) == statement;
    AddItemQueryIgnoresId(Item(-1, "test"), 5);
    first := storage.AddItem(Item(-1, "test"));
    second := storage.AddItem(Item(5, "test"));
    sent := service.received;
    assert sent == [] + [statement] + [statement];
  }
}
