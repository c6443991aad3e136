/** The cart drawer: the quantity controls, and the checkout form that
    validates, sends the order and clears the cart once the order is taken. */
module CartDrawer {
  import opened Wrappers
  import opened Seqs
  import opened Cart
  import opened Orders
  import OrderIntake

  /** `handleQuantityChange(itemId, q)` as a transform of the cart lines: a
      quantity below 1 removes the line, any other is stored as given. */
  function QuantityChange(items: seq<CartItem>, itemId: string, q: int): seq<CartItem> {
    if q < 1 then RemoveLine(items, itemId) else UpdateLine(items, itemId, QuantityUpdate(q))
  }

  predicate PositiveQuantities(items: seq<CartItem>) {
    forall i :: 0 <= i < |items| ==> items[i].quantity >= 1
  }

  /** The controls never store a quantity below 1: every line keeps a
      positive quantity; the changed line drops out below 1 and otherwise
      holds the requested quantity. */
  lemma QuantityChangeKeepsPositive(items: seq<CartItem>, itemId: string, q: int)
    requires PositiveQuantities(items)
    ensures PositiveQuantities(QuantityChange(items, itemId, q))
    ensures q < 1 ==> forall i :: 0 <= i < |QuantityChange(items, itemId, q)| ==>
      QuantityChange(items, itemId, q)[i].id != itemId
    ensures q >= 1 ==> forall i :: 0 <= i < |items| && items[i].id == itemId ==>
      QuantityChange(items, itemId, q)[i].quantity == q
  {
    if q < 1 {
      Remove(items, itemId);
      FilterMembers(items, (item: CartItem) => item.id != itemId);
      var r := RemoveLine(items, itemId);
      forall i | 0 <= i < |r| ensures r[i].quantity >= 1 {
        assert r[i] in items;
      }
    } else {
      Update(items, itemId, q);
    }
  }

  /** One payload entry: the line's snapshot with `id := productId`. */
  function PayloadProduct(item: CartItem): OrderProduct {
    OrderProduct(item.productId, item.name, item.category, item.volume, item.fragranceNotes,
                 item.price, item.image, item.quantity)
  }

  function PayloadProducts(items: seq<CartItem>): (r: seq<OrderProduct>)
    ensures |r| == |items|
    ensures forall i :: 0 <= i < |items| ==> r[i] == PayloadProduct(items[i])
  {
    seq(|items|, i requires 0 <= i < |items| => PayloadProduct(items[i]))
  }

  datatype Payload = Payload(
    customerName: string,
    customerPhone: string,
    customerAddress: string,
    products: seq<OrderProduct>,
    totalPrice: int,
    notes: string)

  /** The request body the server receives for a payload. */
  function BodyOf(p: Payload): OrderIntake.OrderBody {
    OrderIntake.OrderBody(
      OrderIntake.Str(p.customerName), OrderIntake.Str(p.customerPhone), OrderIntake.Str(p.customerAddress),
      OrderIntake.List(OrderIntake.Objects(p.products)), OrderIntake.Num(p.totalPrice), OrderIntake.Str(p.notes))
  }

  /** What the `fetch` produced: it (or `res.json()`) threw, or a response
      arrived with its `ok` flag and the `error` and `message` fields of its
      body. */
  datatype FetchResult = Threw | Responded(ok: bool, error: Option<string>, message: Option<string>)

  const ContactError := "Please enter your name, phone number, and address."
  const EmptyCartError := "Please add at least one product to the cart."
  const SubmitError := "An error occurred while submitting your order."
  const SubmitSuccess := "Your order has been submitted successfully!"
  const UnexpectedError := "An unexpected error occurred. Please try again."

  /** `s || fallback` for an optional string. */
  function OrElse(s: Option<string>, fallback: string): (r: string)
    ensures s.Some? && s.value != "" ==> r == s.value
    ensures s.None? || s.value == "" ==> r == fallback
  {
    if s.Some? && s.value != "" then s.value else fallback
  }

  /** Whatever the server sends, the drawer shows a non-empty message: a
      missing or empty text falls back to the drawer's own. */
  lemma FeedbackNeverBlank(s: Option<string>)
    ensures OrElse(s, SubmitError) != "" && OrElse(s, SubmitSuccess) != ""
  {
  }

  predicate PositivePrices(items: seq<CartItem>) {
    forall i :: 0 <= i < |items| ==> items[i].price > 0 && items[i].quantity >= 1
  }

  lemma {:induction false} TotalPricePositive(items: seq<CartItem>)
    requires |items| > 0 && PositivePrices(items)
    ensures TotalPrice(items) > 0
  {
    var x := items[0];
    assert x.price * x.quantity >= x.price by {
      assert x.price * x.quantity == x.price + x.price * (x.quantity - 1);
    }
    if |items| > 1 {
      TotalPricePositive(items[1..]);
    }
  }

  /** A payload the drawer sends passes all three of the server's checks
      when every line has a positive price and quantity. */
  lemma PayloadPassesChecks(name: string, phone: string, address: string, notes: string, items: seq<CartItem>)
    requires name != "" && phone != "" && address != ""
    requires |items| > 0 && PositivePrices(items)
    ensures OrderIntake.Check(BodyOf(Payload(name, phone, address, PayloadProducts(items), TotalPrice(items), notes))).None?
  {
    TotalPricePositive(items);
    var products := PayloadProducts(items);
    var b := BodyOf(Payload(name, phone, address, products, TotalPrice(items), notes));
    OrderIntake.ChecksPass(b);
  }

  class Drawer {
    const cart: CartStore
    var customerName: string
    var customerPhone: string
    var customerAddress: string
    var notes: string
    var submitting: bool
    var successMsg: Option<string>
    var errorMsg: Option<string>

    constructor (cart: CartStore)
      ensures this.cart == cart
      ensures customerName == "" && customerPhone == "" && customerAddress == "" && notes == ""
      ensures !submitting && successMsg.None? && errorMsg.None?
    {
      this.cart := cart;
      customerName := "";
      customerPhone := "";
      customerAddress := "";
      notes := "";
      submitting := false;
      successMsg := None;
      errorMsg := None;
    }

    /** The payload built from the form and the current lines. */
    function CurrentPayload(): Payload
      reads this, cart
    {
      Payload(customerName, customerPhone, customerAddress, PayloadProducts(cart.items), cart.GetTotalPrice(), notes)
    }

    method HandleQuantityChange(itemId: string, q: int)
      modifies cart
      ensures cart.items == QuantityChange(old(cart.items), itemId, q)
      ensures cart.hydrated == old(cart.hydrated)
      ensures cart.storage == if cart.hydrated then Stored(cart.items) else old(cart.storage)
    {
      if q < 1 {
        cart.RemoveFromCart(itemId);
      } else {
        cart.UpdateCartItem(itemId, QuantityUpdate(q));
      }
    }

    /** `handleSubmit`. The raw (untrimmed) contact fields are checked
        first, then the cart; only then is the payload sent, and `result` is
        what came back. `sent` is the payload sent, if any. The form and the
        cart are cleared only when the response is ok. */
    method HandleSubmit(result: FetchResult) returns (sent: Option<Payload>)
      modifies this, cart
      ensures !submitting
      ensures old(customerName) == "" || old(customerPhone) == "" || old(customerAddress) == "" ==>
        sent.None? && errorMsg == Some(ContactError) && successMsg.None?
      ensures old(customerName) != "" && old(customerPhone) != "" && old(customerAddress) != ""
              && |old(cart.items)| == 0 ==>
        sent.None? && errorMsg == Some(EmptyCartError) && successMsg.None?
      ensures old(customerName) != "" && old(customerPhone) != "" && old(customerAddress) != ""
              && |old(cart.items)| > 0 ==>
        sent == Some(old(CurrentPayload()))
      ensures sent.Some? && result.Threw? ==> errorMsg == Some(UnexpectedError) && successMsg.None?
      ensures sent.Some? && result.Responded? && !result.ok ==>
        errorMsg == Some(OrElse(result.error, SubmitError)) && successMsg.None?
      ensures sent.Some? && result.Responded? && result.ok ==>
        && successMsg == Some(OrElse(result.message, SubmitSuccess)) && errorMsg.None?
        && customerName == "" && customerPhone == "" && customerAddress == "" && notes == ""
        && cart.items == []
        && cart.storage == if cart.hydrated then Stored([]) else old(cart.storage)
      ensures !(sent.Some? && result.Responded? && result.ok) ==>
        && customerName == old(customerName) && customerPhone == old(customerPhone)
        && customerAddress == old(customerAddress) && notes == old(notes)
        && cart.items == old(cart.items) && cart.storage == old(cart.storage)
      ensures cart.hydrated == old(cart.hydrated)
    {
      submitting := true;
      successMsg := None;
      errorMsg := None;
      sent := None;
      if customerName == "" || customerPhone == "" || customerAddress == "" {
        errorMsg := Some(ContactError);
        submitting := false;
        return;
      }
      if |cart.items| == 0 {
        errorMsg := Some(EmptyCartError);
        submitting := false;
        return;
      }
      sent := Some(CurrentPayload());
      match result {
      case Threw =>
        errorMsg := Some(UnexpectedError);
      case Responded(ok, error, message) =>
        if !ok {
          errorMsg := Some(OrElse(error, SubmitError));
        } else {
          successMsg := Some(OrElse(message, SubmitSuccess));
          customerName := "";
          customerPhone := "";
          customerAddress := "";
          notes := "";
          cart.ClearCart();
        }
      }
      submitting := false;
    }
  }
}
