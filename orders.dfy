/** The order record: its status enumeration, the product snapshot each
    order keeps, and what the schema does to a document on creation
    (trimming, required fields, the status default and enumeration, the
    timestamps). */
module Orders {
  import opened Wrappers
  import opened Text

  datatype Status = New | Confirmed | Delivered | Canceled

  /** The stored spelling of a status. */
  function StatusName(s: Status): string {
    match s
    case New => "new"
    case Confirmed => "confirmed"
    case Delivered => "delivered"
    case Canceled => "canceled"
  }

  /** The enumeration check: a string names a status exactly when it is one
      of the four stored spellings. */
  function ParseStatus(s: string): (r: Option<Status>)
    ensures r.Some? ==> StatusName(r.value) == s
  {
    if s == "new" then Some(New)
    else if s == "confirmed" then Some(Confirmed)
    else if s == "delivered" then Some(Delivered)
    else if s == "canceled" then Some(Canceled)
    else None
  }

  lemma ParseStatusName(st: Status)
    ensures ParseStatus(StatusName(st)) == Some(st)
  {
    match st
    case New =>
    case Confirmed => assert StatusName(st) != "new";
    case Delivered => assert StatusName(st) != "new" && StatusName(st) != "confirmed";
    case Canceled =>
      assert StatusName(st) != "new" && StatusName(st) != "confirmed" && StatusName(st) != "delivered";
  }

  /** The four spellings are distinct. */
  lemma StatusNameInjective(a: Status, b: Status)
    requires StatusName(a) == StatusName(b)
    ensures a == b
  {
    ParseStatusName(a);
    ParseStatusName(b);
  }

  /** One entry of `products`: a snapshot of a cart line. */
  datatype OrderProduct = OrderProduct(
    id: string,
    name: string,
    category: string,
    volume: Option<string>,
    fragranceNotes: Option<string>,
    price: int,
    image: string,
    quantity: int)

  /** A stored order. */
  datatype Order = Order(
    id: string,
    customerName: string,
    customerPhone: string,
    customerAddress: string,
    products: seq<OrderProduct>,
    totalPrice: int,
    status: Status,
    notes: Option<string>,
    createdAt: int,
    updatedAt: int)

  /** What `Order.create` is given. */
  datatype Draft = Draft(
    customerName: string,
    customerPhone: string,
    customerAddress: string,
    products: seq<OrderProduct>,
    totalPrice: int,
    status: Option<string>,
    notes: Option<string>)

  /** Why the schema refuses a document. */
  datatype SchemaError = NameRequired | PhoneRequired | AddressRequired | StatusNotInEnum

  /** The schema applied to a draft: the trimmed string fields, the three
      contact fields required to be non-empty once trimmed, the status
      defaulting to `new` and limited to the enumeration, and both
      timestamps set to the creation time. */
  function Apply(d: Draft, id: string, now: int): (r: Result<Order, SchemaError>)
    ensures r.Success? <==>
      Trim(d.customerName) != "" && Trim(d.customerPhone) != "" && Trim(d.customerAddress) != ""
      && (d.status.None? || ParseStatus(d.status.value).Some?)
    ensures r.Success? ==>
      var o := r.value;
      && o.id == id
      && o.customerName == Trim(d.customerName)
      && o.customerPhone == Trim(d.customerPhone)
      && o.customerAddress == Trim(d.customerAddress)
      && o.products == d.products
      && o.totalPrice == d.totalPrice
      && (d.status.None? ==> o.status == New)
      && (d.status.Some? ==> StatusName(o.status) == d.status.value)
      && (d.notes.None? ==> o.notes.None?)
      && (d.notes.Some? ==> o.notes == Some(Trim(d.notes.value)))
      && o.createdAt == now && o.updatedAt == now
  {
    var name := Trim(d.customerName);
    var phone := Trim(d.customerPhone);
    var address := Trim(d.customerAddress);
    if name == "" then Failure(NameRequired)
    else if phone == "" then Failure(PhoneRequired)
    else if address == "" then Failure(AddressRequired)
    else
      var status := if d.status.None? then Some(New) else ParseStatus(d.status.value);
      if status.None? then Failure(StatusNotInEnum)
      else
        var notes := if d.notes.None? then None else Some(Trim(d.notes.value));
        Success(Order(id, name, phone, address, d.products, d.totalPrice, status.value, notes, now, now))
  }

  /** A stored order keeps the schema's trimming: applying the schema again
      to what it stored changes nothing but the identity and timestamps. */
  lemma ApplyStable(d: Draft, id: string, now: int, id2: string, now2: int)
    requires Apply(d, id, now).Success?
    ensures var o := Apply(d, id, now).value;
      Apply(Draft(o.customerName, o.customerPhone, o.customerAddress, o.products, o.totalPrice,
                  Some(StatusName(o.status)), o.notes), id2, now2)
      == Success(o.(id := id2, createdAt := now2, updatedAt := now2))
  {
    var o := Apply(d, id, now).value;
    TrimIdempotent(d.customerName);
    TrimIdempotent(d.customerPhone);
    TrimIdempotent(d.customerAddress);
    if d.notes.Some? {
      TrimIdempotent(d.notes.value);
    }
    ParseStatusName(o.status);
  }

  /** A contact field that is only white space is refused. */
  lemma BlankContactRefused(d: Draft, id: string, now: int)
    requires AllSpace(d.customerName) || AllSpace(d.customerPhone) || AllSpace(d.customerAddress)
    ensures Apply(d, id, now).Failure?
  {
    TrimEmptyIff(d.customerName);
    TrimEmptyIff(d.customerPhone);
    TrimEmptyIff(d.customerAddress);
  }

  /** The collection of stored orders. */
  class OrderStore {
    var orders: seq<Order>

    constructor ()
      ensures orders == []
    {
      orders := [];
    }

    /** `Order.create`: the schema applied, and the order appended when it
        is accepted. */
    method Create(d: Draft, id: string, now: int) returns (r: Result<Order, SchemaError>)
      modifies this
      ensures r == Apply(d, id, now)
      ensures orders == if r.Success? then old(orders) + [r.value] else old(orders)
    {
      r := Apply(d, id, now);
      if r.Success? {
        orders := orders + [r.value];
      }
    }
  }
}
