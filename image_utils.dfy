/** `getProductImage`: a local image path is used as is; anything else falls
    back to a stock photo chosen by the category. */
module ImageUtils {
  import opened Text
  import opened Catalog

  const UnsplashHost := "https://images.unsplash.com/"

  /** A stock photo, cropped to 800x1000. */
  function Unsplash(photo: string): string {
    UnsplashHost + (photo + "?w=800&h=1000&fit=crop&q=90")
  }

  const PerfumeDark := Unsplash("photo-1541643600914-78b084683601")
  const PerfumeLight := Unsplash("photo-1592945403244-b3fbafd7f539")
  const PerfumeUnisex := Unsplash("photo-1615634260167-c8cdede054de")

  /** `categoryImages`, keyed by category slug. */
  const CategoryImages: map<string, string> := map[
    "eau-de-parfum" := PerfumeDark,
    "eau-de-toilette" := PerfumeLight,
    "mens" := PerfumeDark,
    "womens" := PerfumeLight,
    "unisex" := PerfumeUnisex
  ]

  /** The fallback when no category entry applies. */
  const DefaultImage := PerfumeDark

  /** A remote stock photo, never a local path. */
  predicate Remote(url: string) {
    StartsWith(url, UnsplashHost)
  }

  /** `categoryImages[category] || default`. */
  function CategoryFallback(category: string): (r: string)
    ensures Remote(r)
    ensures category in CategoryImages ==> r == CategoryImages[category]
    ensures category !in CategoryImages ==> r == DefaultImage
  {
    if category in CategoryImages && CategoryImages[category] != "" then CategoryImages[category]
    else DefaultImage
  }

  /** The stock photo of each of the five categories. */
  lemma FallbackOfCategory(c: Category)
    ensures CategoryFallback(Slug(c)) ==
      match c
      case EauDeParfum => PerfumeDark
      case EauDeToilette => PerfumeLight
      case Mens => PerfumeDark
      case Womens => PerfumeLight
      case Unisex => PerfumeUnisex
  {
  }

  /** `getProductImage(imagePath, category, productName)`. The result is
      decided by the path and the category alone: the product name is
      accepted and ignored. */
  function GetProductImage(imagePath: string, category: string, productName: string): (r: string)
    ensures StartsWith(imagePath, ImagesDir) ==> r == imagePath
    ensures !StartsWith(imagePath, ImagesDir) ==> r == CategoryFallback(category)
    ensures r != ""
  {
    if imagePath != "" && StartsWith(imagePath, ImagesDir) then imagePath
    else CategoryFallback(category)
  }

  /** A stock photo is never mistaken for a local path. */
  lemma RemoteNotLocal(url: string)
    requires Remote(url)
    ensures !StartsWith(url, ImagesDir)
  {
    assert url[0] == UnsplashHost[0];
  }

  /** Resolving a resolved image again changes nothing. */
  lemma GetProductImageIdempotent(imagePath: string, category: string, productName: string)
    ensures GetProductImage(GetProductImage(imagePath, category, productName), category, productName)
         == GetProductImage(imagePath, category, productName)
  {
    if !StartsWith(imagePath, ImagesDir) {
      RemoteNotLocal(CategoryFallback(category));
    }
  }

  /** Every catalog product keeps its own local image. */
  lemma CatalogImagesUnchanged(i: int, name: string)
    requires 0 <= i < |Products|
    ensures GetProductImage(Products[i].image, Slug(Products[i].category), name) == Products[i].image
  {
    CatalogListed();
  }

  /** The empty path, which the error handlers pass, always gets the
      category photo. */
  lemma EmptyPathFallsBack(category: string, name: string)
    ensures GetProductImage("", category, name) == CategoryFallback(category)
  {
  }
}
