# Item storage over a typed data-access layer

This project models the data-access layer of `rust_sqlx_usage_prototype`. That is a small
Rust program that stores `item` records (id, description, amount, active flag, picture) in
SQLite through `sqlx`. The layer has these parts:

- **Row value model** (`DatabaseServiceBase`). A cell holds exactly one of five kinds:
  Integer, Text, Real, Blob or Bool. A `DatabaseRow` maps column names to cells. `add_column`
  updates the row in place, and five typed accessors each return the payload or a
  type-mismatch error with a fixed message.
- **Concrete adapter** (`DatabaseServices`). `DatabaseService` holds a file path and an
  optional pool, and starts disconnected.
  - Every operation refuses with a fixed not-connected message until `connect` succeeds.
  - Blobs are bound positionally, in the order given.
  - Every driver failure becomes a `DatabaseServiceError` that carries the driver's message.
  - `select` turns each fetched row into a new `DatabaseRow`, decoding each column by the
    type name the driver reports for it.
- **Execution interface** (`DatabaseServiceInterface`). The interface offers `insert`,
  `update`, `delete` and `select`. It has two implementations: the adapter and the
  scripted test double `FakeDataService` (`FakeDataServices`). The test double expects one
  exact statement and answers a canned id or count, canned rows, or a canned error.
- **Item entity** (`ItemModel`). `Item` is a record. Its constructor turns an absent
  picture into an empty one, and each setter overwrites one field.
- **Repository** (`ItemStorage`). `ItemStorageService` builds the exact SQL text of each
  operation from an item's fields and passes the picture as the only blob. It passes
  answers and errors through unchanged, and decodes selected rows into new items in row
  order.
- **Repository tests** (`ItemStorageScenarios`). The repository's unit tests are written
  as client methods over the scripted test double.
- **Older root repository** (`RootItemStorage`). This is the version the program's entry
  point actually wires in. Its `add_item` sends a description-only insert.

Machine integers are subset types of `int` (`i64`, `u64`, `u8`). Rust's `x as u64` on a
negative `i64` is written out as the two's-complement reinterpretation (`Common.AsU64`). The
`{}` formatting of `i64` and `bool` is defined exactly (`Decimal.IntToDecimal`,
`Common.FmtBool`). An `f64` is only ever stored, copied and printed, never computed with, so
it is represented by the text `{}` prints for it (`Common.F64`).

A Rust panic becomes a precondition of the member that would panic:
- `unwrap` on an absent column;
- `unimplemented!()` on an unknown column type or on an unscripted kind of answer;
- the test double's `assert_eq!` on an unexpected statement.

The descriptions are put into the statements between single quotes without escaping, as
the source does. The model keeps that behaviour.

## Model

| member | source | states |
|---|---|---|
| Common.FmtBool | src/data_services/item_storage_service.rs:17-20 | A flag prints as "true" exactly when it is set, and as "false" exactly when it is not. |
| Common.AsU64 | src/data_services/item_storage_service.rs:102 | `as u64` keeps a non-negative value and adds 2^64 to a negative one. |
| Decimal.NatToDecimalDenotes | src/data_services/item_storage_service.rs:26-30 | The decimal text of a number is a non-empty string of digits that denotes that number. |
| Decimal.IntToDecimal | src/data_services/item_storage_service.rs:26-30 | `{}` of an integer: for a non-negative value a non-empty string of digits denoting it; for a negative one a minus sign followed by the digits of its magnitude. |
| Decimal.TrailingIntegerOfDecimal | src/data_services/item_storage_service.rs:26-30 | An integer printed with `{}` after a separator is read back exactly from the end of the text, negative values included. |
| DatabaseServiceBase.DatabaseRow.constructor | src/data_services/database_service_base.rs:23-27 | A new row has no columns. |
| DatabaseServiceBase.DatabaseRow.AddColumn | src/data_services/database_service_base.rs:29-31 | The column is set to the value and an earlier value under that name is replaced. Every other column is unchanged. The accessor of the value's kind then returns exactly its payload, an empty blob included. |
| DatabaseServiceBase.DatabaseRow.Clone | src/data_services/database_service_base.rs:17-20 | The derived clone is a new row with the same columns. |
| DatabaseServiceBase.DatabaseRow.GetInteger | src/data_services/database_service_base.rs:33-38 | On a present column: Ok exactly when the cell is an Integer, with its payload. Otherwise Err with the message "The column <name> is not Integer type". |
| DatabaseServiceBase.DatabaseRow.GetText | src/data_services/database_service_base.rs:40-45 | As GetInteger, for Text. |
| DatabaseServiceBase.DatabaseRow.GetReal | src/data_services/database_service_base.rs:47-52 | As GetInteger, for Real. |
| DatabaseServiceBase.DatabaseRow.GetBlob | src/data_services/database_service_base.rs:54-59 | As GetInteger, for Blob. The bytes returned equal the stored bytes. |
| DatabaseServiceBase.DatabaseRow.GetBool | src/data_services/database_service_base.rs:61-66 | As GetInteger, for Bool. |
| ItemModel.Item.constructor | src/models/item.rs:11-19 | Each given field is stored, and an absent picture becomes the empty picture. |
| ItemModel.Item.SetId | src/models/item.rs:41-43 | Only the id changes, and GetId then returns the new value. |
| ItemModel.Item.SetDescr | src/models/item.rs:45-47 | Only the description changes, and GetDescr then returns the new value. |
| ItemModel.Item.SetAmount | src/models/item.rs:49-51 | Only the amount changes, and GetAmount then returns the new value. |
| ItemModel.Item.SetActive | src/models/item.rs:53-55 | Only the active flag changes, and GetActive then returns the new value. |
| ItemModel.Item.SetPicture | src/models/item.rs:57-59 | Only the picture changes, and the stored bytes equal the argument. |
| DatabaseServices.DecodeValue | src/data_services/database_service.rs:96-102 | The dispatch is INTEGER to Integer, TEXT to Text, REAL to Real, BLOB to Blob and BOOLEAN to Bool, each in both directions. The payload is the driver's decoding of the cell. Any other type name is excluded. |
| DatabaseServices.DecodeRowKeys | src/data_services/database_service.rs:93-104 | A decoded row has a column for every result column name and no other column. |
| DatabaseServices.DecodeRowValue | src/data_services/database_service.rs:95-104 | A name's column holds the value decoded from the last result column with that name. |
| DatabaseServices.BindBlobs | src/data_services/database_service.rs:44-47 | The statement keeps its text. It binds every blob in the order given, or none when no list is supplied. |
| DatabaseServices.BuildRow | src/data_services/database_service.rs:94-104 | A fetched row becomes a new `DatabaseRow` whose columns are exactly the decoded columns of that row, added in ordinal order. |
| DatabaseServices.DatabaseService.constructor | src/data_services/database_service.rs:15-20 | The path is stored and the service starts disconnected. |
| DatabaseServices.DatabaseService.Connect | src/data_services/database_service.rs:22-27 | On success the new pool is set, nothing has been asked of it yet, and Ok is returned. On failure the driver's message is returned and the pool and its call record are left as they were. |
| DatabaseServices.NotConnectedMessage | src/data_services/database_service.rs:29-31 | The fixed text every operation answers while disconnected. |
| DatabaseServices.DatabaseService.Insert | src/data_services/database_service.rs:36-52 | While disconnected: the not-connected error, and nothing is asked of any pool. Otherwise a connection is acquired, then the statement is executed with the blobs bound in order; these calls are appended to the pool's call record, and the pool's answers depend on all the calls made before. The answer is the acquire or execute failure's message, or the rowid. |
| DatabaseServices.DatabaseService.Update | src/data_services/database_service.rs:54-70 | As Insert, answering the number of affected rows. |
| DatabaseServices.DatabaseService.Delete | src/data_services/database_service.rs:72-82 | As Update, with nothing bound. |
| DatabaseServices.DatabaseService.Select | src/data_services/database_service.rs:84-108 | The not-connected, acquire or fetch error passes through unchanged. Otherwise there is one new row per fetched row, in fetch order, each holding that row's decoded columns, and no two of the rows are the same object. The acquire and the fetch are appended to the call record. |
| FakeDataServices.FakeDataService.constructor | src/data_services/item_storage_service.rs:69-74 | The expected statement and the scripted result are stored. |
| FakeDataServices.FakeDataService.Default | src/data_services/item_storage_service.rs:76-81 | The test double expects the empty statement and answers 0. |
| FakeDataServices.FakeDataService.Insert | src/data_services/item_storage_service.rs:86-95 | For the expected statement only: the scripted id, or an error with the scripted message. |
| FakeDataServices.FakeDataService.Update | src/data_services/item_storage_service.rs:97-106 | For the expected statement only: the scripted number read as `u64`, or the scripted error. |
| FakeDataServices.FakeDataService.Delete | src/data_services/item_storage_service.rs:108-115 | As Update. |
| FakeDataServices.FakeDataService.Select | src/data_services/item_storage_service.rs:117-124 | For the expected statement only: new copies of the scripted rows, in order and pairwise distinct, or the scripted error. |
| DatabaseServiceInterface.Insert | src/data_services/database_service_base.rs:71-73 | The answer is what the chosen implementation answers. Over the adapter, its pool's call record grows by exactly the acquire and the execution of the statement with the blobs bound, as far as they are made, and no other field of the adapter changes; the test double changes nothing. |
| DatabaseServiceInterface.Update | src/data_services/database_service_base.rs:74-76 | The answer is what the chosen implementation answers. Over the adapter, its pool's call record grows by exactly the acquire and the execution of the statement with the blobs bound, as far as they are made, and no other field of the adapter changes; the test double changes nothing. |
| DatabaseServiceInterface.Delete | src/data_services/database_service_base.rs:77 | The answer is what the chosen implementation answers. Over the adapter, its pool's call record grows by exactly the acquire and the execution of the statement with nothing bound, as far as they are made, and no other field of the adapter changes; the test double changes nothing. |
| DatabaseServiceInterface.Select | src/data_services/database_service_base.rs:78 | The error passes through unchanged. Otherwise the rows are new and pairwise distinct, and each holds the columns the implementation answers, in order. Over the adapter, its pool's call record grows by exactly the acquire and the fetch of the statement, as far as they are made, and no other field of the adapter changes; the test double changes nothing. |
| ItemStorage.AddItemQuery | src/data_services/item_storage_service.rs:17-21 | The insert text has the fixed 58-character opening, then the description verbatim, then the printed amount and flag, and ends with the blob placeholder ", ?1)"; its length is the sum of those parts. |
| ItemStorage.UpdateItemQuery | src/data_services/item_storage_service.rs:26-30 | The update text holds the description verbatim right after the fixed opening "UPDATE item SET descr = '". |
| ItemStorage.DeleteItemQuery | src/data_services/item_storage_service.rs:35-36 | The delete text starts with "DELETE FROM item WHERE id = " and has more after it. |
| ItemStorage.UpdateItemQueryEndsWithId | src/data_services/item_storage_service.rs:26-30 | Whatever the description and amount texts hold, an update statement ends with the decimal id of the item it was built from. Because the description is not escaped, this is a fact about the text, not about which row SQLite updates. |
| ItemStorage.DeleteItemQueryEndsWithId | src/data_services/item_storage_service.rs:35-36 | A delete statement ends with its id, so distinct ids give distinct statements. |
| ItemStorage.DecodeItem | src/data_services/item_storage_service.rs:41-45 | The decoded item's id, descr, amount, active and picture are exactly the payloads of the row's columns of those names. |
| ItemStorage.ItemOfRow | src/data_services/item_storage_service.rs:41-46 | The closure mapped over the rows builds a new item whose fields are the row's decoded item. |
| ItemStorage.DecodeItemRowRoundTrip | src/data_services/item_storage_service.rs:41-45 | Decoding the row an item is stored as gives back that item, whatever other columns the row has. |
| ItemStorage.ItemStorageService.constructor | src/data_services/item_storage_service.rs:10-14 | The repository holds the service it was given. |
| ItemStorage.ItemStorageService.AddItem | src/data_services/item_storage_service.rs:16-23 | The insert statement is built from the description, the printed amount and the flag, with the picture as the only blob. The service's answer to exactly that statement is returned unchanged, and over the adapter that statement with the picture bound is what gets executed and recorded. |
| ItemStorage.ItemStorageService.UpdateItem | src/data_services/item_storage_service.rs:25-32 | The update statement is built from the item's fields and ends with its id, with the picture as the only blob. The service's count or error for exactly that statement is returned unchanged, and over the adapter that statement with the picture bound is what gets executed and recorded. |
| ItemStorage.ItemStorageService.DeleteItem | src/data_services/item_storage_service.rs:34-37 | The statement "DELETE FROM item WHERE id = <id>" is sent: the service's count or error for it is returned unchanged, and over the adapter it is what gets executed and recorded. |
| ItemStorage.ItemStorageService.GetAllItems | src/data_services/item_storage_service.rs:39-48 | "SELECT * FROM item" is sent, and over the adapter it is what gets fetched and recorded. The select's error is returned with the same message. Otherwise there is one new item per row, in row order, built from the row's id, descr, amount, active and picture columns, and no two items are the same object. |
| ItemStorageScenarios.AddItemAnswersScriptedId | src/data_services/item_storage_service.rs:133-140 | The new item (-1, "test", 1.23, true, no picture) produces exactly the test's insert text, and the scripted id is answered. |
| ItemStorageScenarios.AddItemPassesError | src/data_services/item_storage_service.rs:142-148 | The scripted error reaches the caller with its message. |
| ItemStorageScenarios.UpdateStatementOfTests | src/data_services/item_storage_service.rs:153 | The update built for item (1, "test2", 1.23, true) is exactly the test's statement text. |
| ItemStorageScenarios.UpdateItemAnswersCount | src/data_services/item_storage_service.rs:150-166 | The scripted count is answered, and 0 affected rows is Ok(0) and not an error. |
| ItemStorageScenarios.UpdateItemPassesError | src/data_services/item_storage_service.rs:168-174 | The scripted error reaches the caller with its message. |
| ItemStorageScenarios.DeleteItemAnswersCount | src/data_services/item_storage_service.rs:176-192 | `delete_item(2)` sends "DELETE FROM item WHERE id = 2" and answers the scripted count, 0 included. |
| ItemStorageScenarios.DeleteItemPassesError | src/data_services/item_storage_service.rs:194-200 | The scripted error reaches the caller with its message. |
| ItemStorageScenarios.GetAllItemsPassesError | src/data_services/item_storage_service.rs:202-208 | The select's scripted error reaches the caller with its message. |
| ItemStorageScenarios.SampleItemRow | src/data_services/item_storage_service.rs:210-218 | The sample row is the stored form of the item (id, descr, 1.23, true, empty picture). |
| ItemStorageScenarios.GetAllItemsKeepsRowOrder | src/data_services/item_storage_service.rs:220-233 | Two scripted rows give two items, with descriptions "Test1" and "Test2" in that order. |
| ItemStorageScenarios.AddItemTwiceOverAdapter | src/data_services/item_storage_service.rs:16-23 | Over the adapter connected to a pool that numbers its inserts, adding the same item twice executes its insert with the empty picture bound twice, one acquire before each, and answers rowids 1 and 2. |
| RootItemStorage.AddItemQueryIgnoresId | src/item_storage_service.rs:14-17 | Only the description reaches the statement: items that differ only in their id give the same text. |
| RootItemStorage.AddItemQuery | src/item_storage_service.rs:15-17 | The statement is the 33-character opening, the description verbatim and the 2-character closing. |
| RootItemStorage.InsertAnswer | src/item_storage_service.rs:54-60 | The scripted result answers Ok exactly when it is an id, with that id, and otherwise an error with the scripted message. |
| RootItemStorage.FakeDataService.constructor | src/item_storage_service.rs:37-42 | The expected statement and the scripted result are stored. |
| RootItemStorage.FakeDataService.Default | src/item_storage_service.rs:44-49 | The test double expects the empty statement and answers 0. |
| RootItemStorage.FakeDataService.Insert | src/item_storage_service.rs:54-60 | For the expected statement only: the scripted id, or an error with the scripted message. |
| RootItemStorage.RecordingService.Insert | src/data_services/database_service_trait.rs:30 | An implementation other than the test double answers some function of the statements it received before and the current one, and records the statement. |
| RootItemStorage.Insert | src/data_services/database_service_trait.rs:28-34 | `insert` through the interface answers what the chosen implementation answers; a recording implementation has received exactly that statement more. |
| RootItemStorage.ItemStorageService.constructor | src/item_storage_service.rs:8-12 | The repository holds the service it was given. |
| RootItemStorage.ItemStorageService.AddItem | src/item_storage_service.rs:14-18 | The description-only insert built from the item is the statement sent (a recording implementation has received exactly it), and the service's answer to it is returned unchanged. |
| RootItemStorage.AddItemAnswersScriptedId | src/item_storage_service.rs:77-84 | The item (-1, "test") produces exactly the test's insert text, and the scripted id is answered. |
| RootItemStorage.AddItemPassesError | src/item_storage_service.rs:86-92 | The scripted error reaches the caller with its message. |
| RootItemStorage.AddItemSendsDescrOnly | src/item_storage_service.rs:14-18 | Two items with the same description and different ids send the same statement text twice, and the implementation may answer them differently. |
| DatabaseServiceScenarios.InsertsGetNewRowids | src/data_services/database_service.rs:48-51 | Over a pool that numbers its inserts, the same insert executed twice is answered with rowids 1 and 2: the pool's state follows the calls made to it. |
| DatabaseServiceScenarios.AcquireFailureIsTransient | src/data_services/database_service.rs:42-43 | A failed acquire is answered with the driver's message, and the same call made again can succeed. |
| DatabaseServiceScenarios.DisconnectedRefusesAll | src/data_services/database_service.rs:39-41 | Before `connect`, insert, update, delete and select all answer the not-connected error. |

## Left out

- The `sqlx` driver is not modelled. An open pool is given by what it answers: a possible acquire failure, and the outcome of executing or fetching a statement with its bound arguments. Each answer is an arbitrary function of every call made to the pool before it, so a pool can stand for a database whose contents change (new rowids, changed rows, a connection that fails once). The adapter keeps the record of those calls. `connect`'s driver outcome is a parameter of `Connect`. SQL itself is never interpreted.
- `async`/`await`, `async_trait` and the pool's connection sharing are left out. Every call is a sequential method.
- Floating point is left out. An `f64` is the text `{}` prints for it, so the rules by which Rust prints floats are not modelled.
- The trait object `Box<dyn DatabaseServiceTrait>` becomes a closed choice between its two implementations in this repository: the adapter and the test double. An implementation written outside the repository is not covered.
- `src/main.rs` is not modelled: environment lookup, `dotenv`, `eprintln!` and the fallback id are I/O wiring.
- `src/data_services/database_service_error.rs` and the error type in `src/data_services/database_service_trait.rs:4-26` are modelled as a datatype holding the message. Their `Display` and `Debug` print that message, and the model uses the message field in their place.
- `src/database_service.rs` is not part of this model. It is the older snapshot's SQLite adapter. In its place the older interface is a closed choice between the older test double and `RootItemStorage.RecordingService`, which records every statement it receives and answers an arbitrary function of the statements received so far.
- The older snapshot's trait, `src/data_services/database_service_trait.rs:28-34`, also declares `update` and `delete`. The older repository never calls them, so only `insert` is modelled. The older test double's `update` and `delete`, which always answer `Ok(1)`, are left out.
- `src/item.rs`, the older two-field item, is the value `RootItemStorage.Item`. It has no behaviour beyond its one getter.
- ItemModel.Item.GetId, GetDescr, GetAmount, GetActive and GetPicture are functions that read one field, so they cannot modify the item. What they return is stated through `Fields()` in the constructor and setter contracts, not in contracts of their own.
- Panics are preconditions, not modelled behaviour:
  - `unwrap` on an absent column;
  - a failed `try_get`;
  - `unimplemented!()` on an unknown column type or on an unscripted kind of answer;
  - a row without the five item columns in `get_all_items`;
  - the test doubles' `assert_eq!` on an unexpected statement.
- The references that the accessors return (`&str`, `&Vec<u8>`) are modelled as values. Copies such as `to_vec` and `to_owned` are equal values.
