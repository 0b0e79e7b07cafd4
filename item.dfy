/** The domain entity `Item`: an identifier (-1 until persisted), a
    description, an amount, an active flag and a picture. */
module ItemModel {
  import opened Common

  /** The five fields of an item as one value. */
  datatype ItemFields = ItemFields(id: i64, descr: string, amount: F64, active: bool, picture: Blob)

  class Item {
    var id: i64
    var descr: string
    var amount: F64
    var active: bool
    var picture: Blob

    /** `Item::new`: stores each given field; an absent picture is empty. */
    constructor(id: i64, descr: string, amount: F64, active: bool, picture: Option<Blob>)
      ensures Fields() == ItemFields(id, descr, amount, active, if picture.Some? then picture.value else [])
      ensures picture.None? ==> GetPicture() == []
    {
      this.id := id;
      this.descr := descr;
      this.amount := amount;
      this.active := active;
      this.picture := if picture.Some? then picture.value else [];
    }

    /** The item's current state. */
    function Fields(): ItemFields
      reads this
    {
      ItemFields(id, descr, amount, active, picture)
    }

    function GetId(): i64
      reads this
    {
      id
    }

    function GetDescr(): string
      reads this
    {
      descr
    }

    function GetAmount(): F64
      reads this
    {
      amount
    }

    function GetActive(): bool
      reads this
    {
      active
    }

    function GetPicture(): Blob
      reads this
    {
      picture
    }

    /** `set_id`: replaces the id; the other four fields are unchanged. */
    method SetId(id: i64)
      modifies this
      ensures Fields() == old(Fields()).(id := id)
      ensures GetId() == id
    {
      this.id := id;
    }

    /** `set_descr`. */
    method SetDescr(value: string)
      modifies this
      ensures Fields() == old(Fields()).(descr := value)
      ensures GetDescr() == value
    {
      descr := value;
    }

    /** `set_amount`. */
    method SetAmount(value: F64)
      modifies this
      ensures Fields() == old(Fields()).(amount := value)
      ensures GetAmount() == value
    {
      amount := value;
    }

    /** `set_active`. */
    method SetActive(value: bool)
      modifies this
      ensures Fields() == old(Fields()).(active := value)
      ensures GetActive() == value
    {
      active := value;
    }

    /** `set_picture`: stores a copy equal to the given bytes. */
    method SetPicture(value: Blob)
      modifies this
      ensures Fields() == old(Fields()).(picture := value)
      ensures GetPicture() == value
    {
      picture := value;
    }
  }
}
