/** The repository `ItemStorageService`: builds the statement text of each
    operation from an item's fields, hands it to the execution interface with
    the picture as the one blob, passes answers and errors through unchanged,
    and decodes selected rows into items. */
module ItemStorage {
  import opened Common
  import opened Decimal
  import opened DatabaseServiceBase
  import opened ItemModel
  import opened DatabaseServiceInterface
  import DatabaseServices

  /** The statement `add_item` sends. The item's id is not part of it. */
  function AddItemQuery(descr: string, amount: F64, active: bool): (q: string)
    ensures |q| == 58 + |descr| + 3 + |FmtReal(amount)| + 2 + |FmtBool(active)| + 5
    ensures q[58..58 + |descr|] == descr
    ensures q[|q| - 5..] == ", ?1)"
  {
    var opening := "INSERT INTO item (descr, amount, active, picture) VALUES('";
    assert |opening| == 58;
    opening + descr + "', " + FmtReal(amount) + ", " + FmtBool(active) + ", ?1)"
  }

  /** The statement `update_item` sends. */
  function UpdateItemQuery(descr: string, amount: F64, active: bool, id: i64): (q: string)
    ensures |q| > 25 + |descr|
    ensures q[25..25 + |descr|] == descr
  {
    var opening := "UPDATE item SET descr = '";
    assert |opening| == 25;
    opening + descr + "', amount = " + FmtReal(amount)
      + ", active = " + FmtBool(active) + ", picture = ? WHERE id = " + IntToDecimal(id)
  }

  /** The statement `delete_item` sends. */
  function DeleteItemQuery(id: i64): (q: string)
    ensures |q| > 28 && q[..28] == "DELETE FROM item WHERE id = "
  {
    var opening := "DELETE FROM item WHERE id = ";
    assert |opening| == 28;
    opening + IntToDecimal(id)
  }

  /** The statement `get_all_items` sends. */
  const SelectAllQuery := "SELECT * FROM item"

  /** An update statement ends with the decimal id of the item it was built
      from, whatever the description and amount texts hold. That is a fact
      about the text only: the description is spliced in unescaped, so one
      holding a quote (`x' WHERE id = 7 --`) changes which row the statement
      addresses. */
  lemma UpdateItemQueryEndsWithId(descr: string, amount: F64, active: bool, id: i64)
    ensures TrailingInteger(UpdateItemQuery(descr, amount, active, id)) == Some(id as int)
  {
    var prefix := "UPDATE item SET descr = '" + descr + "', amount = " + FmtReal(amount)
      + ", active = " + FmtBool(active) + ", picture = ? WHERE id = ";
    assert UpdateItemQuery(descr, amount, active, id) == prefix + IntToDecimal(id);
    TrailingIntegerOfDecimal(prefix, id);
  }

  /** A delete statement ends with the decimal id it was built from, so
      distinct ids give distinct statements. */
  lemma DeleteItemQueryEndsWithId(id: i64)
    ensures TrailingInteger(DeleteItemQuery(id)) == Some(id as int)
    ensures forall other: i64 :: other != id ==> DeleteItemQuery(other) != DeleteItemQuery(id)
  {
    forall x: i64 ensures TrailingInteger(DeleteItemQuery(x)) == Some(x as int) {
      TrailingIntegerOfDecimal("DELETE FROM item WHERE id = ", x);
    }
  }

  /** The columns `get_all_items` unwraps are present with the right kinds;
      otherwise the source panics. */
  predicate IsItemRow(columns: map<string, DatabaseRowValue>)
  {
    && "id" in columns && columns["id"].Integer?
    && "descr" in columns && columns["descr"].Text?
    && "amount" in columns && columns["amount"].Real?
    && "active" in columns && columns["active"].Bool?
    && "picture" in columns && columns["picture"].Blob?
  }

  /** The item a row decodes to: the row's five item columns hold exactly
      the item's values. */
  function DecodeItem(columns: map<string, DatabaseRowValue>): (item: ItemFields)
    requires IsItemRow(columns)
    ensures columns["id"] == Integer(item.id) && columns["descr"] == Text(item.descr)
    ensures columns["amount"] == Real(item.amount) && columns["active"] == Bool(item.active)
    ensures columns["picture"] == Blob(item.picture)
  {
    ItemFields(columns["id"].i, columns["descr"].t, columns["amount"].r,
               columns["active"].v, columns["picture"].b)
  }

  /** The row an item is stored as. */
  function ItemRow(item: ItemFields): map<string, DatabaseRowValue>
  {
    map["id" := Integer(item.id), "descr" := Text(item.descr), "amount" := Real(item.amount),
        "active" := Bool(item.active), "picture" := Blob(item.picture)]
  }

  /** Decoding the row an item is stored as gives the item back, and other
      columns in the row make no difference. */
  lemma DecodeItemRowRoundTrip(item: ItemFields, extra: map<string, DatabaseRowValue>)
    requires extra.Keys !! {"id", "descr", "amount", "active", "picture"}
    ensures IsItemRow(extra + ItemRow(item))
    ensures DecodeItem(extra + ItemRow(item)) == item
  {
  }

  /** Every row a successful select answers decodes to an item. */
  predicate SelectsItems(db: DbService)
    reads Implementation(db), SelectFootprint(db)
    requires AnswersRows(db, SelectAllQuery)
  {
    var reply := SelectReply(db, SelectAllQuery);
    reply.Ok? ==> forall i :: 0 <= i < |reply.value| ==> IsItemRow(reply.value[i])
  }

  /** The closure `get_all_items` maps over the rows: a new item from the
      row's id, descr, amount, active and picture columns. */
  method ItemOfRow(x: DatabaseRow) returns (item: Item)
    requires IsItemRow(x.columns)
    ensures fresh(item)
    ensures item.Fields() == DecodeItem(x.columns)
  {
    item := new Item(x.GetInteger("id").value, x.GetText("descr").value, x.GetReal("amount").value,
                     x.GetBool("active").value, Some(x.GetBlob("picture").value));
  }

  class ItemStorageService {
    const dbService: DbService

    /** `ItemStorageService::new`: the repository over an injected service. */
    constructor(dbService: DbService)
      ensures this.dbService == dbService
    {
      this.dbService := dbService;
    }

    /** `add_item`: inserts with the item's description, amount and active
        flag inlined and its picture as the only blob, and answers what the
        service answers. */
    method AddItem(item: Item) returns (r: Result<i64>)
      requires Accepts(dbService, AddItemQuery(item.descr, item.amount, item.active))
      requires AnswersCount(dbService)
      modifies Adapter(dbService)`driverCalls
      ensures var blobs: Option<BlobList> := Some([item.picture]);
        r == old(InsertReply(dbService, AddItemQuery(item.descr, item.amount, item.active), blobs))
      ensures var blobs: Option<BlobList> := Some([item.picture]);
        dbService.SqliteDb? ==>
          dbService.sqlite.driverCalls
          == old(RecordAfter(dbService, ExecuteCall(AddItemQuery(item.descr, item.amount, item.active), blobs)))
    {
      r := Insert(dbService, AddItemQuery(item.GetDescr(), item.GetAmount(), item.GetActive()),
                  Some([item.GetPicture()]));
    }

    /** `update_item`: updates the row with the item's id, picture as the
        only blob, and answers the service's count (0 when no row matched)
        or error. */
    method UpdateItem(updatedItem: Item) returns (r: Result<u64>)
      requires Accepts(dbService, UpdateItemQuery(updatedItem.descr, updatedItem.amount, updatedItem.active, updatedItem.id))
      requires AnswersCount(dbService)
      modifies Adapter(dbService)`driverCalls
      ensures var blobs: Option<BlobList> := Some([updatedItem.picture]);
        r == old(UpdateReply(dbService,
          UpdateItemQuery(updatedItem.descr, updatedItem.amount, updatedItem.active, updatedItem.id), blobs))
      ensures var blobs: Option<BlobList> := Some([updatedItem.picture]);
        dbService.SqliteDb? ==> dbService.sqlite.driverCalls == old(RecordAfter(dbService,
          ExecuteCall(UpdateItemQuery(updatedItem.descr, updatedItem.amount, updatedItem.active, updatedItem.id), blobs)))
    {
      r := Update(dbService,
                  UpdateItemQuery(updatedItem.GetDescr(), updatedItem.GetAmount(), updatedItem.GetActive(),
                                  updatedItem.GetId()),
                  Some([updatedItem.GetPicture()]));
    }

    /** `delete_item`: deletes the row with the id and answers the service's
        count (0 when no row matched) or error. */
    method DeleteItem(itemId: i64) returns (r: Result<u64>)
      requires Accepts(dbService, DeleteItemQuery(itemId))
      requires AnswersCount(dbService)
      modifies Adapter(dbService)`driverCalls
      ensures r == old(DeleteReply(dbService, DeleteItemQuery(itemId)))
      ensures dbService.SqliteDb? ==>
        dbService.sqlite.driverCalls == old(RecordAfter(dbService, ExecuteCall(DeleteItemQuery(itemId), None)))
    {
      r := Delete(dbService, DeleteItemQuery(itemId));
    }

    /** `get_all_items`: the select's error unchanged, or one new item per
        row, in row order, built from the row's id, descr, amount, active and
        picture columns. */
    method GetAllItems() returns (r: Result<seq<Item>>)
      requires Accepts(dbService, SelectAllQuery)
      requires AnswersRows(dbService, SelectAllQuery)
      requires SelectsItems(dbService)
      modifies Adapter(dbService)`driverCalls
      ensures old(SelectReply(dbService, SelectAllQuery)).Err? ==>
        r == Err(old(SelectReply(dbService, SelectAllQuery)).error)
      ensures old(SelectReply(dbService, SelectAllQuery)).Ok? ==>
        && r.Ok? && |r.value| == |old(SelectReply(dbService, SelectAllQuery)).value|
        && (forall i :: 0 <= i < |r.value| ==>
              fresh(r.value[i]) && r.value[i].Fields() == DecodeItem(old(SelectReply(dbService, SelectAllQuery)).value[i]))
        && (forall i, j :: 0 <= i < j < |r.value| ==> r.value[i] != r.value[j])
      ensures dbService.SqliteDb? ==>
        dbService.sqlite.driverCalls
        == old(RecordAfter(dbService, DatabaseServices.Fetch(DatabaseServices.Query(SelectAllQuery, []))))
    {
      ghost var answer := SelectReply(dbService, SelectAllQuery);
      var rows := Select(dbService, SelectAllQuery);
      if rows.Err? {
        return Err(rows.error);
      }
      ghost var reply := answer.value;
      assert forall k :: 0 <= k < |reply| ==> IsItemRow(reply[k]);
      var items: seq<Item> := [];
      for i := 0 to |rows.value|
        invariant |items| == i
        invariant forall k :: 0 <= k < |rows.value| ==> rows.value[k].columns == reply[k]
        invariant forall k :: 0 <= k < i ==> fresh(items[k]) && items[k].Fields() == DecodeItem(reply[k])
        invariant forall k, l :: 0 <= k < l < i ==> items[k] != items[l]
        modifies {}
      {
        var item := ItemOfRow(rows.value[i]);
        items := items + [item];
      }
      r := Ok(items);
    }
  }
}
