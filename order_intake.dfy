/** `POST /api/orders`: the fail-fast checks on the submitted body, then the
    order built with the contact fields and notes trimmed and the status
    forced to `new`. */
module OrderIntake {
  import opened Wrappers
  import opened Text
  import opened Orders

  /** The JSON values a body field can hold. `Missing` is an absent field
      or `null`; an object is seen through the product fields the order
      schema reads from it. */
  datatype JsValue =
    | Missing
    | Bool(b: bool)
    | Num(n: int)
    | Str(s: string)
    | List(items: seq<JsValue>)
    | Obj(fields: OrderProduct)

  /** JavaScript falsiness. */
  predicate Falsy(v: JsValue) {
    v.Missing? || v == Bool(false) || v == Num(0) || v == Str("")
  }

  /** `String(v)`: an object prints as `[object Object]`, an array as its
      elements joined by commas. */
  function JsString(v: JsValue): string
    decreases v, 1
  {
    match v
    case Missing => "undefined"
    case Bool(b) => if b then "true" else "false"
    case Num(n) => IntToString(n)
    case Str(s) => s
    case List(items) => Joined(v, 0)
    case Obj(_) => "[object Object]"
  }

  /** `join(',')` of the array's elements from `from` on; a `null` element
      contributes nothing. */
  function Joined(v: JsValue, from: nat): string
    requires v.List? && from <= |v.items|
    decreases v, 0, |v.items| - from
  {
    if from == |v.items| then ""
    else
      var e := v.items[from];
      var first := if e.Missing? then "" else JsString(e);
      if from + 1 == |v.items| then first else first + "," + Joined(v, from + 1)
  }

  /** `Number(v)`, as the `<=` comparison applies it; `None` is `NaN`. An
      array is first turned into its string. */
  function ToNumber(v: JsValue): Option<int> {
    match v
    case Missing => None
    case Bool(b) => Some(if b then 1 else 0)
    case Num(n) => Some(n)
    case Str(s) => StringToNumber(s)
    case List(_) => StringToNumber(JsString(v))
    case Obj(_) => None
  }

  /** `!v || v <= 0`: the total check's refusal. */
  predicate NotPositive(v: JsValue) {
    Falsy(v) || (ToNumber(v).Some? && ToNumber(v).value <= 0)
  }

  /** The product snapshots of an array literal of product objects. */
  function Objects(ps: seq<OrderProduct>): (r: seq<JsValue>)
    ensures |r| == |ps| && forall i :: 0 <= i < |ps| ==> r[i] == Obj(ps[i])
  {
    if ps == [] then [] else [Obj(ps[0])] + Objects(ps[1..])
  }

  datatype OrderBody = OrderBody(
    customerName: JsValue,
    customerPhone: JsValue,
    customerAddress: JsValue,
    products: JsValue,
    totalPrice: JsValue,
    notes: JsValue)

  datatype Response =
    | Created(orderId: string, message: string)   // 201
    | BadRequest(error: string)                   // 400
    | ServerError(error: string)                  // 500
  {
    function Code(): int {
      match this
      case Created(_, _) => 201
      case BadRequest(_) => 400
      case ServerError(_) => 500
    }
  }

  /** The three checks' refusals, each with its message. */
  datatype Refusal = IncompleteData | NoProducts | InvalidTotal {
    function Message(): string {
      match this
      case IncompleteData => "Incomplete data. Please enter name, phone number, and address"
      case NoProducts => "Please select at least one product"
      case InvalidTotal => "Invalid total price"
    }
  }

  const CreatedMessage := "Your order has been submitted successfully! We will contact you soon."
  const CreateFailed := "An error occurred while submitting your order. Please try again."

  /** The first check that fails, in the handler's order, or none. */
  function Check(b: OrderBody): (r: Option<Refusal>)
    ensures r == Some(IncompleteData) <==>
      Falsy(b.customerName) || Falsy(b.customerPhone) || Falsy(b.customerAddress)
    ensures r == Some(NoProducts) <==>
      !(Falsy(b.customerName) || Falsy(b.customerPhone) || Falsy(b.customerAddress))
      && (!b.products.List? || |b.products.items| == 0)
    ensures r == Some(InvalidTotal) <==>
      !(Falsy(b.customerName) || Falsy(b.customerPhone) || Falsy(b.customerAddress))
      && b.products.List? && |b.products.items| > 0
      && NotPositive(b.totalPrice)
  {
    if Falsy(b.customerName) || Falsy(b.customerPhone) || Falsy(b.customerAddress) then Some(IncompleteData)
    else if !b.products.List? || |b.products.items| == 0 then Some(NoProducts)
    else if NotPositive(b.totalPrice) then Some(InvalidTotal)
    else None
  }

  /** A body with non-empty string contact fields, a non-empty product
      list and a positive numeric total passes all three checks. */
  lemma ChecksPass(b: OrderBody)
    requires b.customerName.Str? && b.customerName.s != ""
    requires b.customerPhone.Str? && b.customerPhone.s != ""
    requires b.customerAddress.Str? && b.customerAddress.s != ""
    requires b.products.List? && |b.products.items| > 0
    requires b.totalPrice.Num? && b.totalPrice.n > 0
    ensures Check(b).None?
  {
  }

  /** `v.trim()` on a string; any other value has no `trim` and throws. */
  function TrimField(v: JsValue): Option<string> {
    if v.Str? then Some(Trim(v.s)) else None
  }

  /** `orderData.notes?.trim() || ''`; `None` when the call throws. */
  function TrimNotes(v: JsValue): (r: Option<string>)
    ensures v.Missing? ==> r == Some("")
    ensures v.Str? ==> r == Some(Trim(v.s))
    ensures r.Some? <==> v.Missing? || v.Str?
  {
    if v.Missing? then Some("") else if v.Str? then Some(Trim(v.s)) else None
  }

  /** The number the schema stores for the total: a string or a boolean
      goes through `Number`, the empty string counts as absent, and `NaN`,
      arrays and objects are refused (`None`). */
  function CastTotal(v: JsValue): Option<int> {
    match v
    case Num(n) => Some(n)
    case Bool(b) => Some(if b then 1 else 0)
    case Str(s) => if s == "" then None else StringToNumber(s)
    case _ => None
  }

  /** The subdocuments the schema stores for the products array; any
      element that is not an object makes the cast fail. */
  function ProductsOf(items: seq<JsValue>): (r: Option<seq<OrderProduct>>)
    ensures r.Some? <==> forall i :: 0 <= i < |items| ==> items[i].Obj?
    ensures r.Some? ==>
      |r.value| == |items| && forall i :: 0 <= i < |items| ==> items[i] == Obj(r.value[i])
  {
    if items == [] then Some([])
    else
      var rest := ProductsOf(items[1..]);
      if !items[0].Obj? then None
      else if rest.None? then
        assert exists i :: 1 <= i < |items| && !items[i].Obj? by {
          var j :| 0 <= j < |items[1..]| && !items[1..][j].Obj?;
          assert items[j + 1] == items[1..][j];
        }
        None
      else Some([items[0].fields] + rest.value)
  }

  /** An array of product objects is stored as exactly those products. */
  lemma ProductsOfObjects(ps: seq<OrderProduct>)
    ensures ProductsOf(Objects(ps)) == Some(ps)
  {
    var r := ProductsOf(Objects(ps));
    assert r.Some?;
    assert r.value == ps;
  }

  /** What `Order.create` is given for a body that passed the checks, or
      `None` when building it throws. */
  function DraftOf(b: OrderBody): (r: Option<Draft>)
    ensures r.Some? ==> r.value.status == Some("new") && r.value.notes.Some?
  {
    var name := TrimField(b.customerName);
    var phone := TrimField(b.customerPhone);
    var address := TrimField(b.customerAddress);
    var notes := TrimNotes(b.notes);
    var total := CastTotal(b.totalPrice);
    var products := if b.products.List? then ProductsOf(b.products.items) else None;
    if name.None? || phone.None? || address.None? || notes.None? || total.None? || products.None? then None
    else Some(Draft(name.value, phone.value, address.value, products.value, total.value, Some("new"), notes))
  }

  /** `POST`. `body` is `None` when the request body is not a JSON object;
      `connected` says whether the database connection succeeded; `id` and
      `now` are what the store assigns to a new order. */
  method Post(store: OrderStore, connected: bool, body: Option<OrderBody>, id: string, now: int)
      returns (resp: Response)
    modifies store
    ensures resp.Created? <==>
      (connected && body.Some? && Check(body.value).None?
       && DraftOf(body.value).Some? && Apply(DraftOf(body.value).value, id, now).Success?)
    ensures resp.Created? ==>
      resp.orderId == id && resp.message == CreatedMessage
      && store.orders == old(store.orders) + [Apply(DraftOf(body.value).value, id, now).value]
    ensures !resp.Created? ==> store.orders == old(store.orders)
    ensures resp.BadRequest? <==> connected && body.Some? && Check(body.value).Some?
    ensures resp.BadRequest? ==> resp.error == Check(body.value).value.Message()
    ensures resp.ServerError? ==> resp.error == CreateFailed
  {
    if !connected || body.None? {
      return ServerError(CreateFailed);
    }
    var b := body.value;
    var failed := Check(b);
    if failed.Some? {
      return BadRequest(failed.value.Message());
    }
    var draft := DraftOf(b);
    if draft.None? {
      return ServerError(CreateFailed);
    }
    var r := store.Create(draft.value, id, now);
    if r.Failure? {
      return ServerError(CreateFailed);
    }
    resp := Created(r.value.id, CreatedMessage);
  }

  /** A created order is `new` whatever status the body carried. */
  lemma CreatedIsNew(b: OrderBody, id: string, now: int)
    requires DraftOf(b).Some? && Apply(DraftOf(b).value, id, now).Success?
    ensures Apply(DraftOf(b).value, id, now).value.status == New
  {
    var o := Apply(DraftOf(b).value, id, now).value;
    StatusNameInjective(o.status, New);
  }

  /** The stored total is the submitted value as the schema casts it, not
      recomputed from the products, and the products are stored as the
      submitted objects, in order. */
  lemma CreatedKeepsTotal(b: OrderBody, id: string, now: int)
    requires DraftOf(b).Some? && Apply(DraftOf(b).value, id, now).Success?
    ensures var o := Apply(DraftOf(b).value, id, now).value;
      && CastTotal(b.totalPrice) == Some(o.totalPrice)
      && b.products.List? && |o.products| == |b.products.items|
      && forall i :: 0 <= i < |o.products| ==> b.products.items[i] == Obj(o.products[i])
  {
    DraftCarries(b);
    ApplyCarries(DraftOf(b).value, id, now);
  }

  lemma DraftCarries(b: OrderBody)
    requires DraftOf(b).Some?
    ensures CastTotal(b.totalPrice) == Some(DraftOf(b).value.totalPrice)
    ensures b.products.List? && ProductsOf(b.products.items) == Some(DraftOf(b).value.products)
  {
  }

  /** A total sent as the text of an integer is read as that integer by
      both the check and the schema: `"5"` is accepted and stored as 5,
      `"0"` and `"-5"` are refused. */
  lemma NumericTextTotal(b: OrderBody, n: int)
    requires b.totalPrice == Str(IntToString(n))
    ensures ToNumber(b.totalPrice) == Some(n) && CastTotal(b.totalPrice) == Some(n)
    ensures NotPositive(b.totalPrice) <==> n <= 0
  {
    NumberOfIntToString(n);
  }

  /** An empty array total reads as 0 and is refused. */
  lemma EmptyArrayTotalRefused()
    ensures NotPositive(List([]))
  {
    assert JsString(List([])) == "";
  }

  lemma ApplyCarries(d: Draft, id: string, now: int)
    requires Apply(d, id, now).Success?
    ensures Apply(d, id, now).value.totalPrice == d.totalPrice
    ensures Apply(d, id, now).value.products == d.products
  {
  }

  /** The contact fields and the notes are stored trimmed; absent notes are
      stored as the empty string. */
  lemma CreatedTrimmed(b: OrderBody, id: string, now: int)
    requires DraftOf(b).Some? && Apply(DraftOf(b).value, id, now).Success?
    ensures b.customerName.Str? && b.customerPhone.Str? && b.customerAddress.Str?
    ensures var o := Apply(DraftOf(b).value, id, now).value;
      && o.customerName == Trim(b.customerName.s)
      && o.customerPhone == Trim(b.customerPhone.s)
      && o.customerAddress == Trim(b.customerAddress.s)
      && o.notes == Some(if b.notes.Str? then Trim(b.notes.s) else "")
  {
    var d := DraftOf(b).value;
    TrimIdempotent(b.customerName.s);
    TrimIdempotent(b.customerPhone.s);
    TrimIdempotent(b.customerAddress.s);
    if b.notes.Str? {
      TrimIdempotent(b.notes.s);
    } else {
      assert Trim("") == "";
    }
  }

  /** A white-space-only contact field passes the emptiness check but the
      schema then refuses the trimmed empty string, so the request fails
      with a server error and nothing is stored. */
  lemma BlankNameIsServerError(b: OrderBody, id: string, now: int)
    requires b.customerName.Str? && b.customerName.s != "" && AllSpace(b.customerName.s)
    requires Check(b).None? && DraftOf(b).Some?
    ensures Apply(DraftOf(b).value, id, now).Failure?
  {
    TrimEmptyIff(b.customerName.s);
  }
}
