/** The shopping cart of `CartContext`: a list of line items, one per
    (product, volume) pair, kept in React state and mirrored to the browser's
    local storage under the key "luxury-perfumes-cart" once the saved cart
    has been loaded. */
module Cart {
  import opened Wrappers
  import opened Text
  import opened Seqs

  const StorageKey := "luxury-perfumes-cart"

  /** `CartItem`. `volume` and `fragranceNotes` are optional. */
  datatype CartItem = CartItem(
    id: string,
    productId: string,
    name: string,
    category: string,
    volume: Option<string>,
    fragranceNotes: Option<string>,
    price: int,
    image: string,
    quantity: int)

  /** What `addToCart` is given: a cart item without `id` and `quantity`. */
  datatype Selection = Selection(
    productId: string,
    name: string,
    category: string,
    volume: Option<string>,
    fragranceNotes: Option<string>,
    price: int,
    image: string)

  /** `Partial<CartItem>`: the fields an update overwrites. */
  datatype ItemUpdate = ItemUpdate(
    id: Option<string>,
    productId: Option<string>,
    name: Option<string>,
    category: Option<string>,
    volume: Option<Option<string>>,
    fragranceNotes: Option<Option<string>>,
    price: Option<int>,
    image: Option<string>,
    quantity: Option<int>)

  /** `{ quantity: q }`. */
  function QuantityUpdate(q: int): ItemUpdate {
    ItemUpdate(None, None, None, None, None, None, None, None, Some(q))
  }

  /** The selection a line was made from. */
  function SelectionOf(item: CartItem): Selection {
    Selection(item.productId, item.name, item.category, item.volume, item.fragranceNotes, item.price, item.image)
  }

  /** A line and a selection are the same (product, volume) pair. */
  predicate SameKey(item: CartItem, sel: Selection) {
    item.productId == sel.productId && item.volume == sel.volume
  }

  /** `item.volume || "no-volume"`. */
  function VolumeTag(volume: Option<string>): string {
    match volume
    case Some(v) => if v != "" then v else "no-volume"
    case None => "no-volume"
  }

  /** The synthetic id `${productId}-${volume || "no-volume"}-${Date.now()}`;
      the clock reading is the parameter `now`. */
  function NewId(sel: Selection, now: nat): string {
    sel.productId + "-" + VolumeTag(sel.volume) + "-" + NatToString(now)
  }

  /** The line appended for a selection not yet in the cart. */
  function NewLine(sel: Selection, now: nat): (item: CartItem)
    ensures SelectionOf(item) == sel && item.quantity == 1 && SameKey(item, sel)
  {
    CartItem(NewId(sel, now), sel.productId, sel.name, sel.category, sel.volume, sel.fragranceNotes, sel.price, sel.image, 1)
  }

  /** `prev.find(...)`: the index of the first line with the selection's key. */
  function FindLine(items: seq<CartItem>, sel: Selection): (r: Option<nat>)
    ensures r.Some? ==> r.value < |items| && SameKey(items[r.value], sel)
                        && forall i :: 0 <= i < r.value ==> !SameKey(items[i], sel)
    ensures r.None? ==> forall i :: 0 <= i < |items| ==> !SameKey(items[i], sel)
  {
    if items == [] then None
    else if SameKey(items[0], sel) then Some(0)
    else
      match FindLine(items[1..], sel)
      case Some(k) => Some(k + 1)
      case None => None
  }

  /** `prev.map(i => i.id === id ? { ...i, quantity: i.quantity + 1 } : i)`. */
  function IncrementLine(items: seq<CartItem>, id: string): (r: seq<CartItem>)
    ensures |r| == |items|
  {
    seq(|items|, i requires 0 <= i < |items| =>
      if items[i].id == id then items[i].(quantity := items[i].quantity + 1) else items[i])
  }

  /** `addToCart(sel)` as a transform of the previous list. */
  function AddLine(items: seq<CartItem>, sel: Selection, now: nat): seq<CartItem> {
    match FindLine(items, sel)
    case Some(k) => IncrementLine(items, items[k].id)
    case None => items + [NewLine(sel, now)]
  }

  /** `prev.filter(item => item.id !== id)`. */
  function RemoveLine(items: seq<CartItem>, id: string): seq<CartItem> {
    Filter(items, (item: CartItem) => item.id != id)
  }

  /** `{ ...item, ...u }`. */
  function Merge(item: CartItem, u: ItemUpdate): CartItem {
    CartItem(
      u.id.GetOr(item.id), u.productId.GetOr(item.productId), u.name.GetOr(item.name),
      u.category.GetOr(item.category), u.volume.GetOr(item.volume),
      u.fragranceNotes.GetOr(item.fragranceNotes), u.price.GetOr(item.price),
      u.image.GetOr(item.image), u.quantity.GetOr(item.quantity))
  }

  /** `prev.map(item => item.id === id ? { ...item, ...u } : item)`. */
  function UpdateLine(items: seq<CartItem>, id: string, u: ItemUpdate): (r: seq<CartItem>)
    ensures |r| == |items|
  {
    seq(|items|, i requires 0 <= i < |items| => if items[i].id == id then Merge(items[i], u) else items[i])
  }

  /** `reduce((t, i) => t + i.price * i.quantity, 0)`. */
  function TotalPrice(items: seq<CartItem>): int {
    if items == [] then 0 else items[0].price * items[0].quantity + TotalPrice(items[1..])
  }

  /** `reduce((t, i) => t + i.quantity, 0)`. */
  function TotalItems(items: seq<CartItem>): int {
    if items == [] then 0 else items[0].quantity + TotalItems(items[1..])
  }

  predicate UniqueIds(items: seq<CartItem>) {
    forall i, j :: 0 <= i < j < |items| ==> items[i].id != items[j].id
  }

  /** At most one line per (product, volume) pair. */
  predicate UniqueKeys(items: seq<CartItem>) {
    forall i, j :: 0 <= i < j < |items| ==> !SameKey(items[i], SelectionOf(items[j]))
  }

  predicate HasId(items: seq<CartItem>, id: string) {
    exists i :: 0 <= i < |items| && items[i].id == id
  }

  /** Adding a selection already in the cart adds one to that line's
      quantity and changes nothing else: not its price (the new price is
      ignored), not the other lines, not the number of lines. */
  lemma AddExisting(items: seq<CartItem>, sel: Selection, now: nat, k: nat)
    requires UniqueIds(items)
    requires k < |items| && SameKey(items[k], sel)
    requires forall i :: 0 <= i < k ==> !SameKey(items[i], sel)
    ensures var r := AddLine(items, sel, now);
      && |r| == |items|
      && r[k] == items[k].(quantity := items[k].quantity + 1)
      && forall i :: 0 <= i < |items| && i != k ==> r[i] == items[i]
  {
    assert FindLine(items, sel) == Some(k);
  }

  /** Adding a selection not in the cart appends exactly one line, made from
      the selection with quantity 1. */
  lemma AddNew(items: seq<CartItem>, sel: Selection, now: nat)
    requires forall i :: 0 <= i < |items| ==> !SameKey(items[i], sel)
    ensures var r := AddLine(items, sel, now);
      && |r| == |items| + 1
      && r[..|items|] == items
      && SelectionOf(r[|items|]) == sel && r[|items|].quantity == 1
      && r[|items|].id == NewId(sel, now)
  {
    assert AddLine(items, sel, now) == items + [NewLine(sel, now)];
  }

  /** `addToCart` keeps at most one line per (product, volume) pair. */
  lemma AddKeepsUniqueKeys(items: seq<CartItem>, sel: Selection, now: nat)
    requires UniqueKeys(items)
    ensures UniqueKeys(AddLine(items, sel, now))
  {
    var r := AddLine(items, sel, now);
    match FindLine(items, sel)
    case Some(k) =>
      assert forall i :: 0 <= i < |r| ==> SelectionOf(r[i]) == SelectionOf(items[i]);
      forall i, j | 0 <= i < j < |r| ensures !SameKey(r[i], SelectionOf(r[j])) {
        assert SameKey(r[i], SelectionOf(r[j])) == SameKey(items[i], SelectionOf(items[j]));
      }
    case None =>
      forall i, j | 0 <= i < j < |r| ensures !SameKey(r[i], SelectionOf(r[j])) {
        if j == |items| {
          assert SelectionOf(r[j]) == sel;
        } else {
          assert r[i] == items[i] && r[j] == items[j];
        }
      }
  }

  /** `addToCart` keeps line ids unique when the clock reading gives an id not
      yet in the cart. */
  lemma AddKeepsUniqueIds(items: seq<CartItem>, sel: Selection, now: nat)
    requires UniqueIds(items)
    requires !HasId(items, NewId(sel, now))
    ensures UniqueIds(AddLine(items, sel, now))
  {
    var r := AddLine(items, sel, now);
    match FindLine(items, sel)
    case Some(k) =>
      assert forall i :: 0 <= i < |r| ==> r[i].id == items[i].id;
    case None =>
      forall i, j | 0 <= i < j < |r| ensures r[i].id != r[j].id {
        if j == |items| {
          assert r[i] == items[i];
        } else {
          assert r[i] == items[i] && r[j] == items[j];
        }
      }
  }

  lemma {:induction false} TotalItemsConcat(a: seq<CartItem>, b: seq<CartItem>)
    ensures TotalItems(a + b) == TotalItems(a) + TotalItems(b)
  {
    if a == [] {
      assert a + b == b;
    } else {
      assert (a + b)[1..] == a[1..] + b;
      TotalItemsConcat(a[1..], b);
    }
  }

  lemma {:induction false} TotalPriceConcat(a: seq<CartItem>, b: seq<CartItem>)
    ensures TotalPrice(a + b) == TotalPrice(a) + TotalPrice(b)
  {
    if a == [] {
      assert a + b == b;
    } else {
      assert (a + b)[1..] == a[1..] + b;
      TotalPriceConcat(a[1..], b);
    }
  }

  /** Replacing one line changes the totals by the difference of that line. */
  lemma {:induction false} TotalsOfReplace(items: seq<CartItem>, k: nat, x: CartItem)
    requires k < |items|
    ensures TotalItems(items[k := x]) == TotalItems(items) - items[k].quantity + x.quantity
    ensures TotalPrice(items[k := x]) == TotalPrice(items) - items[k].price * items[k].quantity + x.price * x.quantity
  {
    if k > 0 {
      TotalsOfReplace(items[1..], k - 1, x);
      assert items[k := x][1..] == items[1..][k - 1 := x];
    } else {
      assert items[k := x][1..] == items[1..];
    }
  }

  /** Every add puts exactly one more unit in the cart (with unique ids): the
      price total grows by the existing line's price, or by the selection's
      price for a new line. */
  lemma AddTotals(items: seq<CartItem>, sel: Selection, now: nat)
    requires UniqueIds(items)
    ensures TotalItems(AddLine(items, sel, now)) == TotalItems(items) + 1
    ensures TotalPrice(AddLine(items, sel, now)) ==
      TotalPrice(items) + match FindLine(items, sel) case Some(k) => items[k].price case None => sel.price
  {
    match FindLine(items, sel)
    case Some(k) =>
      var x := items[k].(quantity := items[k].quantity + 1);
      AddExisting(items, sel, now, k);
      assert AddLine(items, sel, now) == items[k := x];
      TotalsOfReplace(items, k, x);
    case None =>
      TotalItemsConcat(items, [NewLine(sel, now)]);
      TotalPriceConcat(items, [NewLine(sel, now)]);
  }

  /** `removeFromCart(id)` drops exactly the lines with that id and keeps
      every other line. */
  lemma Remove(items: seq<CartItem>, id: string)
    ensures forall i :: 0 <= i < |RemoveLine(items, id)| ==> RemoveLine(items, id)[i].id != id
    ensures forall i :: 0 <= i < |items| && items[i].id != id ==> items[i] in RemoveLine(items, id)
  {
    FilterMembers(items, (item: CartItem) => item.id != id);
  }

  /** Removing an id that is not in the cart changes nothing. */
  lemma RemoveAbsent(items: seq<CartItem>, id: string)
    requires !HasId(items, id)
    ensures RemoveLine(items, id) == items
  {
    FilterAll(items, (item: CartItem) => item.id != id);
  }

  /** With unique ids, removing a present id drops exactly one line: the
      lines before it and after it are kept in order. */
  lemma RemovePresent(items: seq<CartItem>, k: nat)
    requires UniqueIds(items) && k < |items|
    ensures RemoveLine(items, items[k].id) == items[..k] + items[k + 1..]
  {
    var id := items[k].id;
    var keep := (item: CartItem) => item.id != id;
    var pre, post := items[..k], items[k + 1..];
    assert items == pre + [items[k]] + post;
    forall i | 0 <= i < |pre| ensures keep(pre[i]) { assert pre[i] == items[i]; }
    forall i | 0 <= i < |post| ensures keep(post[i]) { assert post[i] == items[k + 1 + i]; }
    FilterDropsOne(pre, items[k], post, keep);
  }

  /** Removal keeps the other lines in their order. */
  lemma {:induction false} RemoveOrder(a: seq<CartItem>, b: seq<CartItem>, id: string)
    ensures RemoveLine(a + b, id) == RemoveLine(a, id) + RemoveLine(b, id)
  {
    FilterConcat(a, b, (item: CartItem) => item.id != id);
  }

  /** `updateCartItem(id, u)` merges `u` into the lines with that id and
      leaves every other line as it was; it does not clamp the quantity. */
  lemma Update(items: seq<CartItem>, id: string, q: int)
    ensures var r := UpdateLine(items, id, QuantityUpdate(q));
      && |r| == |items|
      && forall i :: 0 <= i < |items| ==>
           r[i] == if items[i].id == id then items[i].(quantity := q) else items[i]
  {
  }

  /** Both totals of the cleared, empty cart are 0. */
  lemma EmptyTotals()
    ensures TotalPrice([]) == 0 && TotalItems([]) == 0
  {
  }

  /** What local storage holds under the cart key: nothing (or the empty
      string), text that `JSON.parse` rejects, or a saved list. */
  datatype Saved = Missing | Unparsable | Stored(items: seq<CartItem>)

  /** The cart provider's state: the line list, the hydration flag, and the
      local-storage slot it loads from and saves to. */
  class CartStore {
    var items: seq<CartItem>
    var hydrated: bool
    var storage: Saved

    /** After hydration the slot always holds the current list. */
    predicate Synced()
      reads this
    {
      hydrated ==> storage == Stored(items)
    }

    /** The first render: an empty cart, not yet hydrated, nothing saved. */
    constructor (saved: Saved)
      ensures items == [] && !hydrated && storage == saved
    {
      items := [];
      hydrated := false;
      storage := saved;
    }

    /** The mount effect and the save effect it triggers: a saved list
        replaces the cart; a missing or unparsable one leaves it as it is;
        either way the cart is marked hydrated and the full list is written. */
    method Hydrate()
      modifies this
      ensures items == (if old(storage).Stored? then old(storage).items else old(items))
      ensures hydrated && storage == Stored(items)
      ensures Synced()
    {
      if storage.Stored? {
        items := storage.items;
      }
      hydrated := true;
      storage := Stored(items);
    }

    /** The save effect after a state change: it writes only once hydrated. */
    method Persist()
      modifies this
      ensures items == old(items) && hydrated == old(hydrated)
      ensures storage == if hydrated then Stored(items) else old(storage)
    {
      if hydrated {
        storage := Stored(items);
      }
    }

    method AddToCart(sel: Selection, now: nat)
      modifies this
      ensures items == AddLine(old(items), sel, now) && hydrated == old(hydrated)
      ensures storage == if hydrated then Stored(items) else old(storage)
    {
      items := AddLine(items, sel, now);
      Persist();
    }

    method RemoveFromCart(id: string)
      modifies this
      ensures items == RemoveLine(old(items), id) && hydrated == old(hydrated)
      ensures storage == if hydrated then Stored(items) else old(storage)
    {
      items := RemoveLine(items, id);
      Persist();
    }

    method UpdateCartItem(id: string, u: ItemUpdate)
      modifies this
      ensures items == UpdateLine(old(items), id, u) && hydrated == old(hydrated)
      ensures storage == if hydrated then Stored(items) else old(storage)
    {
      items := UpdateLine(items, id, u);
      Persist();
    }

    method ClearCart()
      modifies this
      ensures items == [] && hydrated == old(hydrated)
      ensures storage == if hydrated then Stored([]) else old(storage)
    {
      items := [];
      Persist();
    }

    function GetTotalPrice(): int
      reads this
    {
      TotalPrice(items)
    }

    function GetTotalItems(): int
      reads this
    {
      TotalItems(items)
    }
  }
}
