/** The earlier copy of the product details modal kept under `backup/pageA`.
    Its image list and lookup are the current modal's; it differs in that it
    only resets the volume when closed (no first-volume selection, no image
    error reset) and adds every size to the cart at the base price. */
module BackupDetails {
  import opened Wrappers
  import opened Catalog
  import opened Pricing
  import opened ProductDetails
  import Cart

  /** The backup's `volume: selectedVolume || product.volumes?.[0] || undefined`. */
  function BackupVolume(p: Product, selectedVolume: string): (r: Option<string>)
    ensures r.Some? ==> r.value != ""
    ensures selectedVolume != "" ==> r == Some(selectedVolume)
  {
    if selectedVolume != "" then Some(selectedVolume)
    else if |p.volumes| > 0 && p.volumes[0] != "" then Some(p.volumes[0])
    else None
  }

  /** The backup adds the base price whatever the size; the current modal
      charges more for a 100ml bottle of any priced catalog product. */
  lemma BackupUndercharges100ml(p: Product)
    requires Listed(p)
    ensures VolumePrice(Some("100ml"), p.price).Some?
    ensures p.price < VolumePrice(Some("100ml"), p.price).value
  {
    Price100(p.price);
    VolumeDiscounts(p.price);
  }

  class BackupModal {
    var isOpen: bool
    var product: Option<Product>
    var selectedVolume: string
    var imageErrors: set<string>

    constructor ()
      ensures !isOpen && product.None? && selectedVolume == "" && imageErrors == {}
    {
      isOpen := false;
      product := None;
      selectedVolume := "";
      imageErrors := {};
    }

    /** New props; the only effect clears the selected volume on close. */
    method Receive(products: seq<Product>, open: bool, productId: Option<string>)
      modifies this
      ensures isOpen == open && product == Lookup(products, productId)
      ensures selectedVolume == if open then old(selectedVolume) else ""
      ensures imageErrors == old(imageErrors)
    {
      isOpen := open;
      product := Lookup(products, productId);
      if !isOpen {
        selectedVolume := "";
      }
    }

    method SelectVolume(volume: string)
      modifies this
      ensures selectedVolume == (if isOpen then volume else "")
      ensures isOpen == old(isOpen) && product == old(product) && imageErrors == old(imageErrors)
    {
      selectedVolume := volume;
      if !isOpen {
        selectedVolume := "";
      }
    }

    method ImageFailed(key: string)
      modifies this
      ensures imageErrors == old(imageErrors) + {key}
      ensures isOpen == old(isOpen) && product == old(product) && selectedVolume == old(selectedVolume)
    {
      imageErrors := imageErrors + {key};
    }

    /** The backup's `handleAddToCart`: the same warning, then the product at
        its base price whatever volume is chosen. */
    method HandleAddToCart(cart: Cart.CartStore, now: nat) returns (outcome: AddOutcome)
      requires isOpen && product.Some?
      modifies cart
      ensures var p := product.value;
        if selectedVolume == "" && |p.volumes| > 0 then
          outcome == WarnSelectVolume && cart.items == old(cart.items) && cart.storage == old(cart.storage)
        else
          outcome == Added(SelectionFor(p, BackupVolume(p, selectedVolume), p.price))
          && cart.items == Cart.AddLine(old(cart.items), outcome.sel, now)
          && cart.storage == if cart.hydrated then Cart.Stored(cart.items) else old(cart.storage)
      ensures cart.hydrated == old(cart.hydrated)
    {
      var p := product.value;
      if selectedVolume == "" && |p.volumes| > 0 {
        return WarnSelectVolume;
      }
      var sel := SelectionFor(p, BackupVolume(p, selectedVolume), p.price);
      cart.AddToCart(sel, now);
      outcome := Added(sel);
    }
  }

  /** Opening the backup modal on a catalog product leaves nothing selected,
      so adding it straight away only warns, where the current modal adds the
      50ml size. */
  method OpenThenAdd(products: seq<Product>, id: string, cart: Cart.CartStore, now: nat)
      returns (outcome: AddOutcome)
    requires id != ""
    requires exists i :: 0 <= i < |products| && products[i].id == id
    requires forall i :: 0 <= i < |products| ==> Listed(products[i])
    modifies cart
    ensures outcome == WarnSelectVolume
    ensures cart.items == old(cart.items)
  {
    var modal := new BackupModal();
    modal.Receive(products, false, None);
    modal.Receive(products, true, Some(id));
    var p := modal.product.value;
    assert Listed(p);
    SizesStandard();
    outcome := modal.HandleAddToCart(cart, now);
  }
}
