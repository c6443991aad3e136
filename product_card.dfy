/** A catalog card: its primary image, which is the modal's first slide, and
    the one-shot switch to the category fallback when that image fails. */
module ProductCard {
  import opened Text
  import opened Catalog
  import opened ImageUtils
  import ProductDetails

  /** `primaryImage`. */
  function PrimaryImage(p: Product): (r: string)
    ensures r != ""
    ensures StartsWith(p.image, ImagesDir) ==> r == p.image
    ensures !StartsWith(p.image, ImagesDir) ==> Remote(r)
  {
    GetProductImage(p.image, Slug(p.category), p.name)
  }

  /** The card shows the same image as the first slide of the modal. */
  lemma CardMatchesModal(p: Product)
    ensures |ProductDetails.ImageList(p)| >= 1
    ensures PrimaryImage(p) == ProductDetails.ImageList(p)[0]
  {
    ProductDetails.ImageListShape(p);
  }

  /** A catalog card shows the catalog's own image path. */
  lemma CatalogCardImage(p: Product)
    requires Listed(p)
    ensures PrimaryImage(p) == p.image
  {
  }

  class Card {
    var product: Product
    var imageSrc: string
    var imageError: bool

    constructor (p: Product)
      ensures product == p && imageSrc == PrimaryImage(p) && !imageError
    {
      product := p;
      imageSrc := PrimaryImage(p);
      imageError := false;
    }

    /** A new `product` prop; the reset effect runs only when the primary
        image it derives changes. */
    method Receive(p: Product)
      modifies this
      ensures product == p
      ensures PrimaryImage(p) != PrimaryImage(old(product)) ==> imageSrc == PrimaryImage(p) && !imageError
      ensures PrimaryImage(p) == PrimaryImage(old(product)) ==> imageSrc == old(imageSrc) && imageError == old(imageError)
    {
      var changed := PrimaryImage(p) != PrimaryImage(product);
      product := p;
      if changed {
        imageSrc := PrimaryImage(p);
        imageError := false;
      }
    }

    /** `handleImageError`: the first failure switches to the category
        fallback, later ones change nothing. */
    method HandleImageError()
      modifies this
      ensures product == old(product) && imageError
      ensures !old(imageError) ==> imageSrc == CategoryFallback(Slug(product.category)) && Remote(imageSrc)
      ensures old(imageError) ==> imageSrc == old(imageSrc)
    {
      if !imageError {
        imageError := true;
        imageSrc := GetProductImage("", Slug(product.category), product.name);
      }
    }
  }

  /** A second failure leaves the card on the category fallback. */
  method FailTwice(p: Product) returns (first: string, second: string)
    ensures first == second == CategoryFallback(Slug(p.category))
    ensures second != ""
    ensures StartsWith(p.image, ImagesDir) ==> second != PrimaryImage(p)
  {
    var card := new Card(p);
    card.HandleImageError();
    first := card.imageSrc;
    card.HandleImageError();
    second := card.imageSrc;
    if StartsWith(p.image, ImagesDir) {
      RemoteNotLocal(second);
    }
  }
}
