/** The product details modal: volume-based pricing, the current price, the
    image list shown in the carousel, the selected-volume state and the
    add-to-cart guard. */
module ProductDetails {
  import opened Wrappers
  import opened Text
  import opened Seqs
  import opened Catalog
  import opened ImageUtils
  import opened Pricing
  import Cart

  /** A catalog product's sizes are the three standard labels. */
  lemma ListedVolume(p: Product, i: int)
    requires Listed(p) && 0 <= i < |p.volumes|
    ensures p.volumes[i] == "50ml" || p.volumes[i] == "100ml" || p.volumes[i] == "200ml"
  {
    if p.volumes == TwoSizes {
      assert i == 0 || i == 1;
    } else {
      assert i == 0 || i == 1 || i == 2;
    }
  }

  /** Every size a catalog product offers has a positive price. */
  lemma CatalogVolumesPriced(p: Product, i: int)
    requires Listed(p) && 0 <= i < |p.volumes|
    ensures VolumePrice(Some(p.volumes[i]), p.price).Some?
    ensures VolumePrice(Some(p.volumes[i]), p.price).value > 0
  {
    var v := p.volumes[i];
    ListedVolume(p, i);
    if v == "50ml" {
      Price50(p.price);
    } else if v == "100ml" {
      Price100(p.price);
      VolumeDiscounts(p.price);
    } else {
      Price200(p.price);
      VolumeDiscounts(p.price);
    }
  }

  /** The volume that prices the product: the selected one, or else the
      product's first volume, or none. */
  function VolumeToUse(p: Product, selectedVolume: string): (r: Option<string>)
    ensures selectedVolume != "" ==> r == Some(selectedVolume)
    ensures selectedVolume == "" && |p.volumes| > 0 ==> r == Some(p.volumes[0])
    ensures selectedVolume == "" && |p.volumes| == 0 ==> r == None
  {
    if selectedVolume != "" then Some(selectedVolume)
    else if |p.volumes| > 0 then Some(p.volumes[0])
    else None
  }

  /** `currentPrice`: 0 without a product. */
  function CurrentPrice(product: Option<Product>, selectedVolume: string): Option<int> {
    match product
    case None => Some(0)
    case Some(p) => VolumePrice(VolumeToUse(p, selectedVolume), p.price)
  }

  /** With nothing selected, a catalog product shows its 50ml base price;
      with a size of its own selected, the price of that size. */
  lemma CurrentPriceOfCatalogProduct(p: Product, selectedVolume: string)
    requires Listed(p)
    ensures selectedVolume == "" ==> CurrentPrice(Some(p), selectedVolume) == Some(p.price)
    ensures selectedVolume != "" ==> CurrentPrice(Some(p), selectedVolume) == VolumePrice(Some(selectedVolume), p.price)
  {
    SizesStandard();
    assert p.volumes[0] == "50ml";
    Price50(p.price);
  }

  // ----- The image list -----

  /** An image path resolved the way the card resolves it. */
  function Resolve(p: Product, path: string): string {
    GetProductImage(path, Slug(p.category), p.name)
  }

  function BaseImage(p: Product): string {
    Resolve(p, p.image)
  }

  function ResolvedExtras(p: Product): (r: seq<string>)
    ensures |r| == |p.images|
  {
    seq(|p.images|, i requires 0 <= i < |p.images| => Resolve(p, p.images[i]))
  }

  /** `xs.forEach(x => { if (!acc.includes(x)) acc.push(x) })`. */
  function AddDistinct(acc: seq<string>, xs: seq<string>): (r: seq<string>)
    ensures |acc| <= |r| && r[..|acc|] == acc
    decreases |xs|
  {
    if xs == [] then acc
    else
      var r := AddDistinct(acc, xs[..|xs| - 1]);
      if xs[|xs| - 1] in r then r else r + [xs[|xs| - 1]]
  }

  predicate NoDuplicates(s: seq<string>) {
    forall i, j :: 0 <= i < j < |s| ==> s[i] != s[j]
  }

  /** Adding distinct elements keeps a duplicate-free list duplicate-free and
      ends with exactly the elements of `acc` and `xs`. */
  lemma {:induction false} AddDistinctSpec(acc: seq<string>, xs: seq<string>)
    requires NoDuplicates(acc)
    ensures NoDuplicates(AddDistinct(acc, xs))
    ensures forall x :: x in AddDistinct(acc, xs) <==> x in acc || x in xs
    decreases |xs|
  {
    if xs != [] {
      var init := xs[..|xs| - 1];
      AddDistinctSpec(acc, init);
      assert xs == init + [xs[|xs| - 1]];
    }
  }

  /** `productImages`, before the component's early return. */
  function ImageList(p: Product): seq<string> {
    var base := BaseImage(p);
    var images :=
      if |p.images| > 0 then AddDistinct([base], ResolvedExtras(p))
      else [base, base, base, base];
    Take(images, 4)
  }

  /** The base image comes first; there are one to four images; without
      extra images the base is shown four times; with extras every image is
      the base or a resolved extra, none twice, and while there is room every
      resolved extra is shown. */
  lemma ImageListShape(p: Product)
    ensures var r := ImageList(p);
      && 1 <= |r| <= 4
      && r[0] == BaseImage(p)
      && (|p.images| == 0 ==> r == [BaseImage(p), BaseImage(p), BaseImage(p), BaseImage(p)])
      && (|p.images| > 0 ==>
            NoDuplicates(r) && (forall x :: x in r ==> x == BaseImage(p) || x in ResolvedExtras(p)))
      && (|p.images| > 0 && |AddDistinct([BaseImage(p)], ResolvedExtras(p))| <= 4 ==>
            forall x :: x in ResolvedExtras(p) ==> x in r)
  {
    var base := BaseImage(p);
    if |p.images| > 0 {
      var all := AddDistinct([base], ResolvedExtras(p));
      AddDistinctSpec([base], ResolvedExtras(p));
      var r := ImageList(p);
      assert r == all[..Min(4, |all|)];
      assert all[..1] == [base];
      forall x | x in r ensures x == base || x in ResolvedExtras(p) {
        assert x in all;
      }
    }
  }

  /** The loop that builds the list in the component. */
  method BuildImages(p: Product) returns (images: seq<string>)
    ensures images == ImageList(p)
  {
    var base := BaseImage(p);
    images := [base];
    if |p.images| > 0 {
      var extras := ResolvedExtras(p);
      var i := 0;
      while i < |p.images|
        invariant 0 <= i <= |p.images|
        invariant images == AddDistinct([base], extras[..i])
      {
        var fullPath := Resolve(p, p.images[i]);
        assert extras[..i + 1][..i] == extras[..i];
        if fullPath !in images {
          images := images + [fullPath];
        }
        i := i + 1;
      }
      assert extras[..|p.images|] == extras;
    } else {
      var i := 1;
      while i < 4
        invariant 1 <= i <= 4
        invariant images == seq(i, _ => base)
      {
        images := images + [base];
        i := i + 1;
      }
    }
    images := Take(images, 4);
  }

  /** The `imageErrors` key of the main slide at `index`. */
  function SlideKey(index: nat): string { NatToString(index) }

  /** The `imageErrors` key of the thumbnail at `index`. */
  function ThumbKey(index: nat): string { "thumb-" + NatToString(index) }

  /** A slide's and a thumbnail's failures are remembered apart. */
  lemma KeysApart(i: nat, j: nat)
    ensures SlideKey(i) != ThumbKey(j)
  {
    assert ThumbKey(j)[0] == 't';
    assert IsDigit(SlideKey(i)[0]);
  }

  /** The source an image element is given: the category fallback once its
      key has failed, the image itself otherwise (or the fallback when the
      image is empty). */
  function ShownImage(p: Product, img: string, key: string, imageErrors: set<string>): (r: string)
    ensures r != ""
    ensures key in imageErrors ==> Remote(r)
    ensures key !in imageErrors && img != "" ==> r == img
  {
    var fallback := GetProductImage("", Slug(p.category), p.name);
    var imageUrl := if img != "" then img else fallback;
    if key in imageErrors then fallback else imageUrl
  }

  // ----- The modal's state -----

  /** What `handleAddToCart` does: warn, or add that selection. */
  datatype AddOutcome = WarnSelectVolume | Added(sel: Cart.Selection)

  /** The line a product and a volume put in the cart. */
  function SelectionFor(p: Product, volume: Option<string>, price: int): Cart.Selection {
    Cart.Selection(p.id, p.name, Slug(p.category), volume, Some(p.fragranceNotes), price, p.image)
  }

  /** `volumeToUse || undefined`. */
  function OrUndefined(v: Option<string>): Option<string> {
    if v == Some("") then None else v
  }

  /** The product the modal shows for a `productId` prop: none for a
      missing or empty id, else the catalog's product with that id. */
  function Lookup(products: seq<Product>, productId: Option<string>): (r: Option<Product>)
    ensures productId.None? || productId == Some("") ==> r.None?
    ensures r.Some? ==> r.value in products && Some(r.value.id) == productId
    ensures productId.Some? && productId.value != "" && r.None? ==>
      forall i :: 0 <= i < |products| ==> products[i].id != productId.value
  {
    if productId.None? || productId.value == "" then None else FindProduct(products, productId.value)
  }

  /** The volume effect: closing clears the selection; while open on a
      product with volumes and nothing selected, the first volume is
      selected. */
  function VolumeEffect(open: bool, product: Option<Product>, selected: string): (r: string)
    ensures !open ==> r == ""
    ensures open && selected != "" ==> r == selected
    ensures open && selected == "" && product.Some? && |product.value.volumes| > 0 ==> r == product.value.volumes[0]
    ensures open && selected == "" && (product.None? || |product.value.volumes| == 0) ==> r == ""
  {
    if !open then ""
    else if product.Some? && |product.value.volumes| > 0 && selected == "" then product.value.volumes[0]
    else selected
  }

  /** Once the volume effect has run, an open modal on a catalog product
      always has a volume selected, so the add-to-cart warning cannot fire. */
  lemma EffectSelectsVolume(p: Product, selected: string)
    requires Listed(p)
    ensures VolumeEffect(true, Some(p), selected) != ""
  {
    SizesStandard();
    assert p.volumes[0] == "50ml";
  }

  /** The fallback in `currentPrice` anticipates the effect: the price shown
      before the effect selects the first size is the price shown after. */
  lemma EffectKeepsPrice(p: Product, selected: string)
    ensures CurrentPrice(Some(p), VolumeEffect(true, Some(p), selected)) == CurrentPrice(Some(p), selected)
  {
  }

  class DetailsModal {
    var isOpen: bool
    var product: Option<Product>
    var selectedVolume: string
    /** The keys of `imageErrors` set to true. */
    var imageErrors: set<string>

    constructor ()
      ensures !isOpen && product.None? && selectedVolume == "" && imageErrors == {}
    {
      isOpen := false;
      product := None;
      selectedVolume := "";
      imageErrors := {};
    }

    /** New props (`isOpen` and `productId`), followed by the two effects: a
        changed product id clears the image errors; closing resets the volume
        and the errors, and opening on a product with volumes and nothing
        selected selects its first volume. */
    method Receive(products: seq<Product>, open: bool, productId: Option<string>)
      modifies this
      ensures isOpen == open && product == Lookup(products, productId)
      ensures selectedVolume == VolumeEffect(open, product, old(selectedVolume))
      ensures imageErrors ==
        if !open || (product.Some? && (old(product).None? || old(product).value.id != product.value.id)) then {}
        else old(imageErrors)
    {
      var next := Lookup(products, productId);
      var idChanged := next.Some? && (product.None? || product.value.id != next.value.id);
      isOpen := open;
      product := next;
      if idChanged {
        imageErrors := {};
      }
      if !isOpen {
        selectedVolume := "";
        imageErrors := {};
      } else if product.Some? && |product.value.volumes| > 0 && selectedVolume == "" {
        selectedVolume := product.value.volumes[0];
      }
    }

    /** A click on a volume button; the volume effect then runs again. */
    method SelectVolume(volume: string)
      modifies this
      ensures selectedVolume == VolumeEffect(isOpen, product, volume)
      ensures isOpen == old(isOpen) && product == old(product) && imageErrors == old(imageErrors)
    {
      selectedVolume := volume;
      if !isOpen {
        selectedVolume := "";
      } else if product.Some? && |product.value.volumes| > 0 && selectedVolume == "" {
        selectedVolume := product.value.volumes[0];
      }
    }

    /** An image failed to load: its key is remembered, once. */
    method ImageFailed(key: string)
      modifies this
      ensures imageErrors == old(imageErrors) + {key}
      ensures isOpen == old(isOpen) && product == old(product) && selectedVolume == old(selectedVolume)
    {
      if key !in imageErrors {
        imageErrors := imageErrors + {key};
      }
    }

    /** `handleAddToCart`, reachable only while the modal shows a product:
        with no volume selected on a product that has volumes it only warns;
        otherwise it adds the product once, priced by `getVolumePrice`. The
        modal then asks its parent to close it. */
    method HandleAddToCart(cart: Cart.CartStore, now: nat) returns (outcome: AddOutcome)
      requires isOpen && product.Some?
      modifies cart
      ensures var p := product.value;
        if selectedVolume == "" && |p.volumes| > 0 then
          outcome == WarnSelectVolume && cart.items == old(cart.items) && cart.storage == old(cart.storage)
        else
          var volume := VolumeToUse(p, selectedVolume);
          outcome == Added(SelectionFor(p, OrUndefined(volume), VolumePrice(volume, p.price).GetOr(0)))
          && cart.items == Cart.AddLine(old(cart.items), outcome.sel, now)
          && cart.storage == if cart.hydrated then Cart.Stored(cart.items) else old(cart.storage)
      ensures cart.hydrated == old(cart.hydrated)
    {
      var p := product.value;
      if selectedVolume == "" && |p.volumes| > 0 {
        return WarnSelectVolume;
      }
      var volume := VolumeToUse(p, selectedVolume);
      var price := VolumePrice(volume, p.price).GetOr(0);
      var sel := SelectionFor(p, OrUndefined(volume), price);
      cart.AddToCart(sel, now);
      outcome := Added(sel);
    }
  }

  /** A freshly opened modal on a catalog product selects the 50ml size,
      which is added under its own label at the base price. */
  lemma FirstSizeAdded(p: Product)
    requires Listed(p)
    ensures VolumeEffect(true, Some(p), "") == "50ml"
    ensures VolumeToUse(p, "50ml") == Some("50ml") && OrUndefined(Some("50ml")) == Some("50ml")
    ensures VolumePrice(Some("50ml"), p.price) == Some(p.price)
  {
    SizesStandard();
    assert p.volumes[0] == "50ml";
    Price50(p.price);
  }

  /** Opening the modal on a catalog product and adding it straight away adds
      one 50ml bottle at the product's base price. */
  method OpenThenAdd(products: seq<Product>, id: string, cart: Cart.CartStore, now: nat)
      returns (outcome: AddOutcome)
    requires id != ""
    requires exists i :: 0 <= i < |products| && products[i].id == id
    requires forall i :: 0 <= i < |products| ==> Listed(products[i])
    modifies cart
    ensures FindProduct(products, id).Some?
    ensures outcome.Added?
    ensures outcome.sel.productId == id && outcome.sel.volume == Some("50ml")
    ensures outcome.sel.price == FindProduct(products, id).value.price
    ensures cart.items == Cart.AddLine(old(cart.items), outcome.sel, now)
  {
    var modal := new DetailsModal();
    modal.Receive(products, true, Some(id));
    assert modal.product == FindProduct(products, id);
    var p := modal.product.value;
    FirstSizeAdded(p);
    outcome := modal.HandleAddToCart(cart, now);
  }
}
