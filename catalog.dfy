/** The product catalog: the `Product` record and the constant list of 36
    perfumes, with the facts its doc comment and the rest of the storefront
    rely on (category counts, unique ids, positive prices, local images,
    volume lists that start at the 50ml base size). */
module Catalog {
  import opened Text
  import opened Seqs
  import opened Wrappers

  datatype Category = EauDeParfum | EauDeToilette | Mens | Womens | Unisex

  /** The category's identifier as the data and the URLs spell it. */
  function Slug(c: Category): string {
    match c
    case EauDeParfum => "eau-de-parfum"
    case EauDeToilette => "eau-de-toilette"
    case Mens => "mens"
    case Womens => "womens"
    case Unisex => "unisex"
  }

  /** `categoryLabels[category]`, the English section title. */
  function Label(c: Category): string {
    match c
    case EauDeParfum => "Eau de Parfum"
    case EauDeToilette => "Eau de Toilette"
    case Mens => "Men's Collection"
    case Womens => "Women's Collection"
    case Unisex => "Unisex Collection"
  }

  /** A product record. `price` is in thousandths of the display unit;
      `fragranceNotes` is "" when absent, `images` the optional extra images
      ([] when absent), `volumes` the optional volume labels. The
      `description` text is not modelled: no logic reads it. */
  datatype Product = Product(
    id: string,
    name: string,
    category: Category,
    fragranceNotes: string,
    price: int,
    image: string,
    images: seq<string>,
    volumes: seq<string>,
    featured: bool)

  /** Every catalog image lives under the site's /images/ folder. */
  const ImagesDir := "/images/"

  /** The public path of an image file under /images/. */
  function Local(file: string): string { ImagesDir + file }

  /** `products.find(p => p.id === id)`. */
  function FindProduct(products: seq<Product>, id: string): (r: Option<Product>)
    ensures r.Some? ==> r.value in products && r.value.id == id
    ensures r.None? ==> forall i :: 0 <= i < |products| ==> products[i].id != id
  {
    if products == [] then None
    else if products[0].id == id then Some(products[0])
    else FindProduct(products[1..], id)
  }

  /** The two volume lists the catalog uses. */
  const TwoSizes: seq<string> := ["50ml", "100ml"]
  const ThreeSizes: seq<string> := ["50ml", "100ml", "200ml"]

  /** The volume labels used in the catalog. */
  const StandardVolumes: seq<string> := ThreeSizes

  /** A volume list that starts with the 50ml base size and uses only the
      standard labels. */
  predicate StandardSizes(volumes: seq<string>) {
    && |volumes| > 0
    && volumes[0] == "50ml"
    && (forall i :: 0 <= i < |volumes| ==> volumes[i] in StandardVolumes)
  }

  lemma SizesStandard()
    ensures StandardSizes(TwoSizes) && StandardSizes(ThreeSizes)
  {
  }

  /** What every listed product satisfies. */
  predicate Listed(p: Product) {
    && p.name != ""
    && p.price > 0
    && StartsWith(p.image, ImagesDir)
    && p.images == []
    && (p.volumes == TwoSizes || p.volumes == ThreeSizes)
  }

  const EauDeParfumLine: seq<Product> := [
    Product("edp-1", "Elegant Noir Eau de Parfum", EauDeParfum,
      "Top: Bergamot, Black Pepper | Middle: Rose, Jasmine | Base: Sandalwood, Vanilla, Amber",
      120000, Local("perfumes/eau-de-parfum/EDP(1).jpg"), [], TwoSizes, true),
    Product("edp-2", "Royal Essence Eau de Parfum", EauDeParfum,
      "Top: Saffron, Cardamom | Middle: Rose, Oud | Base: Patchouli, Musk, Amber",
      135000, Local("perfumes/eau-de-parfum/EDP(2).jpg"), [], TwoSizes, true),
    Product("edp-3", "Velvet Rose Eau de Parfum", EauDeParfum,
      "Top: Pink Pepper, Freesia | Middle: Rose, Peony | Base: Vanilla, White Musk, Sandalwood",
      125000, Local("perfumes/eau-de-parfum/EDP(3).jpg"), [], ThreeSizes, true),
    Product("edp-4", "Midnight Bloom Eau de Parfum", EauDeParfum,
      "Top: Black Currant, Fig | Middle: Tuberose, Ylang-Ylang | Base: Tonka Bean, Labdanum",
      130000, Local("perfumes/eau-de-parfum/EDP(4).jpg"), [], TwoSizes, false),
    Product("edp-5", "Golden Hour Eau de Parfum", EauDeParfum,
      "Top: Mandarin, Neroli | Middle: Orange Blossom, Honey | Base: Vanilla, Benzoin, Vetiver",
      128000, Local("perfumes/eau-de-parfum/EDP(5).jpg"), [], ThreeSizes, true),
    Product("edp-6", "Sensual Orchid Eau de Parfum", EauDeParfum,
      "Top: Ginger, Pink Grapefruit | Middle: Orchid, Jasmine | Base: Amber, Incense, White Musk",
      132000, Local("perfumes/eau-de-parfum/EDP(6).jpg"), [], TwoSizes, false),
    Product("edp-7", "Ivory Garden Eau de Parfum", EauDeParfum,
      "Top: Lemon, Green Tea | Middle: Lily of the Valley, White Flowers | Base: Cedarwood, Musk",
      118000, Local("perfumes/eau-de-parfum/EDP(8).jpg"), [], ThreeSizes, false),
    Product("edp-8", "Dark Obsession Eau de Parfum", EauDeParfum,
      "Top: Blackberry, Saffron | Middle: Rose, Oud | Base: Leather, Patchouli, Amber",
      140000, Local("perfumes/eau-de-parfum/EDP(9).jpg"), [], TwoSizes, true)
  ]

  const EauDeToiletteLine: seq<Product> := [
    Product("edt-1", "Fresh Morning Eau de Toilette", EauDeToilette,
      "Top: Lemon, Grapefruit | Middle: Lavender, Mint | Base: Musk, Cedarwood",
      85000, Local("perfumes/eau-de-toilette/EDT(1).jpg"), [], ThreeSizes, true),
    Product("edt-2", "Ocean Breeze Eau de Toilette", EauDeToilette,
      "Top: Sea Salt, Citrus | Middle: Aquatic Notes, Seaweed | Base: Driftwood, Musk",
      90000, Local("perfumes/eau-de-toilette/EDT(2).jpg"), [], ThreeSizes, true),
    Product("edt-3", "Spring Meadow Eau de Toilette", EauDeToilette,
      "Top: Green Apple, Bergamot | Middle: Lily, Jasmine | Base: White Musk, Soft Woods",
      88000, Local("perfumes/eau-de-toilette/EDT(3).jpg"), [], ThreeSizes, false),
    Product("edt-4", "Citrus Splash Eau de Toilette", EauDeToilette,
      "Top: Orange, Lemon, Bergamot | Middle: Neroli, Jasmine | Base: Vetiver, White Musk",
      82000, Local("perfumes/eau-de-toilette/EDT(4).jpg"), [], TwoSizes, false),
    Product("edt-5", "Pure Linen Eau de Toilette", EauDeToilette,
      "Top: Aldehydes, Green Notes | Middle: Iris, Lily | Base: Clean Musk, Soft Woods",
      92000, Local("perfumes/eau-de-toilette/EDT(5).jpg"), [], ThreeSizes, true),
    Product("edt-6", "Misty Garden Eau de Toilette", EauDeToilette,
      "Top: Dewy Greens, Violet | Middle: Peony, Rose | Base: Soft Woods, White Musk",
      87000, Local("perfumes/eau-de-toilette/EDT(6).jpg"), [], TwoSizes, false)
  ]

  const MensLine: seq<Product> := [
    Product("mens-1", "Masculine Essence", Mens,
      "Top: Citrus, Spice | Middle: Leather, Tobacco | Base: Oakmoss, Patchouli",
      130000, Local("perfumes/mens/Men(1).jpg"), [], TwoSizes, true),
    Product("mens-2", "Power & Strength", Mens,
      "Top: Bergamot, Pink Pepper | Middle: Cedarwood, Leather | Base: Amber, Patchouli, Vetiver",
      135000, Local("perfumes/mens/Men(2).jpg"), [], TwoSizes, true),
    Product("mens-3", "Urban Legend", Mens,
      "Top: Grapefruit, Sage | Middle: Juniper, Coriander | Base: Sandalwood, Amberwood",
      128000, Local("perfumes/mens/Men(3).jpg"), [], ThreeSizes, false),
    Product("mens-4", "Executive Class", Mens,
      "Top: Lemon, Lavender | Middle: Geranium, Nutmeg | Base: Tonka Bean, Sandalwood",
      132000, Local("perfumes/mens/Men(4).jpg"), [], TwoSizes, true),
    Product("mens-5", "Adventure Awaits", Mens,
      "Top: Black Pepper, Cardamom | Middle: Clary Sage, Cumin | Base: Leather, Cedar, Musk",
      126000, Local("perfumes/mens/Men(5).jpg"), [], TwoSizes, false),
    Product("mens-6", "Night Vision", Mens,
      "Top: Whiskey, Clary Sage | Middle: Oud, Tobacco | Base: Leather, Patchouli, Vanilla",
      140000, Local("perfumes/mens/Men(6).jpg"), [], TwoSizes, true),
    Product("mens-7", "Blue Ocean", Mens,
      "Top: Marine Notes, Bergamot | Middle: Lavender, Jasmine | Base: Amber, Musk, Cedarwood",
      118000, Local("perfumes/mens/Men(7).jpg"), [], ThreeSizes, false),
    Product("mens-8", "Royal Crown", Mens,
      "Top: Saffron, Nutmeg | Middle: Oud, Rose | Base: Amber, Patchouli, Vanilla",
      145000, Local("perfumes/mens/Men(8).jpg"), [], TwoSizes, true)
  ]

  const WomensLine: seq<Product> := [
    Product("womens-1", "Feminine Grace", Womens,
      "Top: Pear, Freesia | Middle: Peony, Rose | Base: Vanilla, White Musk",
      125000, Local("perfumes/womens/womens(1).jpg"), [], TwoSizes, true),
    Product("womens-2", "Radiant Beauty", Womens,
      "Top: Bergamot, Pink Pepper | Middle: Jasmine, Rose | Base: Sandalwood, Vanilla",
      128000, Local("perfumes/womens/womens(2).jpg"), [], TwoSizes, true),
    Product("womens-3", "Sweet Dreams", Womens,
      "Top: Almond, Violet | Middle: Iris, Heliotrope | Base: Vanilla, Tonka Bean, Musk",
      122000, Local("perfumes/womens/womens(3).jpg"), [], ThreeSizes, false),
    Product("womens-4", "Garden Princess", Womens,
      "Top: Green Apple, Lily of the Valley | Middle: Rose, Jasmine | Base: White Musk, Soft Woods",
      120000, Local("perfumes/womens/womens(4).jpg"), [], TwoSizes, true),
    Product("womens-5", "Midnight Romance", Womens,
      "Top: Black Currant, Raspberry | Middle: Tuberose, Jasmine | Base: Amber, Patchouli, Vanilla",
      135000, Local("perfumes/womens/womens(5).jpg"), [], TwoSizes, true),
    Product("womens-6", "Sunset Glow", Womens,
      "Top: Mandarin, Peach | Middle: Orange Blossom, Tuberose | Base: Vanilla, Benzoin, Musk",
      130000, Local("perfumes/womens/womens(1).jpg"), [], ThreeSizes, false),
    Product("womens-7", "Elegant Bloom", Womens,
      "Top: Neroli, Bergamot | Middle: Rose, Ylang-Ylang | Base: Sandalwood, Vetiver, Musk",
      127000, Local("perfumes/womens/womens(2).jpg"), [], TwoSizes, false),
    Product("womens-8", "Divine Essence", Womens,
      "Top: Saffron, Bergamot | Middle: Rose, Oud | Base: Amber, Vanilla, Patchouli",
      140000, Local("perfumes/womens/womens(3).jpg"), [], TwoSizes, true)
  ]

  const UnisexLine: seq<Product> := [
    Product("unisex-1", "Universal Harmony", Unisex,
      "Top: Bergamot, Pink Pepper | Middle: Iris, Violet | Base: Sandalwood, Amber",
      115000, Local("perfumes/unisex/unisex(1).jpg"), [], ThreeSizes, true),
    Product("unisex-2", "Zen Balance", Unisex,
      "Top: Green Tea, Mint | Middle: Iris, White Flowers | Base: Cedarwood, Musk, Amber",
      112000, Local("perfumes/unisex/unisex(2).jpg"), [], ThreeSizes, true),
    Product("unisex-3", "Modern Classic", Unisex,
      "Top: Bergamot, Cardamom | Middle: Lavender, Juniper | Base: Sandalwood, Vetiver, Amber",
      118000, Local("perfumes/unisex/unisex(3).jpg"), [], TwoSizes, false),
    Product("unisex-4", "Pure Energy", Unisex,
      "Top: Citrus, Ginger | Middle: Black Pepper, Sage | Base: Cedar, Musk, Amberwood",
      110000, Local("perfumes/unisex/unisex(4).jpg"), [], ThreeSizes, false),
    Product("unisex-5", "Timeless Elegance", Unisex,
      "Top: Neroli, Bergamot | Middle: Iris, Jasmine | Base: Sandalwood, White Musk, Amber",
      120000, Local("perfumes/unisex/unisex(5).jpg"), [], TwoSizes, true),
    Product("unisex-6", "Mystic Aura", Unisex,
      "Top: Saffron, Cardamom | Middle: Oud, Rose | Base: Patchouli, Amber, Vanilla",
      128000, Local("perfumes/unisex/unisex(6).jpg"), [], TwoSizes, false)
  ]

  /** `products`, in source order. */
  const Products: seq<Product> :=
    EauDeParfumLine + EauDeToiletteLine + MensLine + WomensLine + UnisexLine

  function InCategory(s: seq<Product>, c: Category): (r: seq<Product>)
    ensures forall i :: 0 <= i < |r| ==> r[i].category == c
    ensures |r| <= |s|
  {
    Filter(s, (p: Product) => p.category == c)
  }

  lemma BlockInCategory(block: seq<Product>, c: Category, d: Category)
    requires AllIn(block, c)
    ensures InCategory(block, d) == if c == d then block else []
  {
    if c == d {
      FilterAll(block, (p: Product) => p.category == d);
    } else {
      FilterNone(block, (p: Product) => p.category == d);
    }
  }

  lemma InCategoryConcat(a: seq<Product>, b: seq<Product>, c: Category)
    ensures InCategory(a + b, c) == InCategory(a, c) + InCategory(b, c)
  {
    FilterConcat(a, b, (p: Product) => p.category == c);
  }

  // Facts about each line, one per lemma to keep each proof small.

  lemma EauDeParfumLineShape()
    ensures |EauDeParfumLine| == 8
    ensures AllIn(EauDeParfumLine, EauDeParfum)
  {
  }

  lemma EauDeParfumLineListed()
    ensures AllListed(EauDeParfumLine)
  {
  }

  lemma EauDeParfumLineKeyed()
    ensures Keyed(EauDeParfumLine, 5, 'p')
  {
  }

  lemma EauDeToiletteLineShape()
    ensures |EauDeToiletteLine| == 6
    ensures AllIn(EauDeToiletteLine, EauDeToilette)
  {
  }

  lemma EauDeToiletteLineListed()
    ensures AllListed(EauDeToiletteLine)
  {
  }

  lemma EauDeToiletteLineKeyed()
    ensures Keyed(EauDeToiletteLine, 5, 't')
  {
  }

  lemma MensLineShape()
    ensures |MensLine| == 8
    ensures AllIn(MensLine, Mens)
  {
  }

  lemma MensLineListed()
    ensures AllListed(MensLine)
  {
  }

  lemma MensLineKeyed()
    ensures Keyed(MensLine, 6, 'n')
  {
  }

  lemma WomensLineShape()
    ensures |WomensLine| == 8
    ensures AllIn(WomensLine, Womens)
  {
  }

  lemma WomensLineListed()
    ensures AllListed(WomensLine)
  {
  }

  lemma WomensLineKeyed()
    ensures Keyed(WomensLine, 8, 'm')
  {
  }

  lemma UnisexLineShape()
    ensures |UnisexLine| == 6
    ensures AllIn(UnisexLine, Unisex)
  {
  }

  lemma UnisexLineListed()
    ensures AllListed(UnisexLine)
  {
  }

  lemma UnisexLineKeyed()
    ensures Keyed(UnisexLine, 8, 'i')
  {
  }

  predicate AllIn(s: seq<Product>, c: Category) {
    forall i :: 0 <= i < |s| ==> s[i].category == c
  }

  function Pick(c: Category, edp: seq<Product>, edt: seq<Product>, men: seq<Product>, women: seq<Product>, unisex: seq<Product>): seq<Product> {
    match c
    case EauDeParfum => edp
    case EauDeToilette => edt
    case Mens => men
    case Womens => women
    case Unisex => unisex
  }

  lemma InCategoryOfFive(a: seq<Product>, b: seq<Product>, d: seq<Product>, e: seq<Product>, f: seq<Product>, c: Category)
    ensures InCategory(a + b + d + e + f, c)
         == InCategory(a, c) + InCategory(b, c) + InCategory(d, c) + InCategory(e, c) + InCategory(f, c)
  {
    InCategoryConcat(a + b + d + e, f, c);
    InCategoryConcat(a + b + d, e, c);
    InCategoryConcat(a + b, d, c);
    InCategoryConcat(a, b, c);
  }

  /** Filtering five single-category lines, concatenated in category order,
      gives back the line of the requested category. */
  lemma {:induction false} InCategoryOfLines(edp: seq<Product>, edt: seq<Product>, men: seq<Product>, women: seq<Product>, unisex: seq<Product>, c: Category)
    requires AllIn(edp, EauDeParfum) && AllIn(edt, EauDeToilette) && AllIn(men, Mens)
    requires AllIn(women, Womens) && AllIn(unisex, Unisex)
    ensures InCategory(edp + edt + men + women + unisex, c) == Pick(c, edp, edt, men, women, unisex)
  {
    InCategoryOfFive(edp, edt, men, women, unisex, c);
    BlockInCategory(edp, EauDeParfum, c);
    BlockInCategory(edt, EauDeToilette, c);
    BlockInCategory(men, Mens, c);
    BlockInCategory(women, Womens, c);
    BlockInCategory(unisex, Unisex, c);
  }

  /** The products of a category are exactly its line. */
  lemma InCategoryOfCatalog(c: Category)
    ensures InCategory(Products, c) ==
      Pick(c, EauDeParfumLine, EauDeToiletteLine, MensLine, WomensLine, UnisexLine)
  {
    EauDeParfumLineShape();
    EauDeToiletteLineShape();
    MensLineShape();
    WomensLineShape();
    UnisexLineShape();
    InCategoryOfLines(EauDeParfumLine, EauDeToiletteLine, MensLine, WomensLine, UnisexLine, c);
  }

  /** The counts the catalog's doc comment gives: 8 eau de parfum, 6 eau de
      toilette, 8 men's, 8 women's and 6 unisex products, 36 in all. */
  lemma CategoryCounts()
    ensures |Products| == 36
    ensures |InCategory(Products, EauDeParfum)| == 8
    ensures |InCategory(Products, EauDeToilette)| == 6
    ensures |InCategory(Products, Mens)| == 8
    ensures |InCategory(Products, Womens)| == 8
    ensures |InCategory(Products, Unisex)| == 6
  {
    EauDeParfumLineShape();
    EauDeToiletteLineShape();
    MensLineShape();
    WomensLineShape();
    UnisexLineShape();
    InCategoryOfCatalog(EauDeParfum);
    InCategoryOfCatalog(EauDeToilette);
    InCategoryOfCatalog(Mens);
    InCategoryOfCatalog(Womens);
    InCategoryOfCatalog(Unisex);
  }

  predicate AllListed(s: seq<Product>) {
    forall i :: 0 <= i < |s| ==> Listed(s[i])
  }

  lemma AllListedConcat(a: seq<Product>, b: seq<Product>)
    requires AllListed(a) && AllListed(b)
    ensures AllListed(a + b)
  {
    forall i | 0 <= i < |a + b| ensures Listed((a + b)[i]) {
      if i >= |a| { assert (a + b)[i] == b[i - |a|]; }
    }
  }

  /** Every product has a name, a positive price, a local image under
      /images/, no extra images, and a volume list that starts with the 50ml
      base size and uses only 50ml, 100ml and 200ml. */
  lemma CatalogListed()
    ensures AllListed(Products)
  {
    EauDeParfumLineListed();
    EauDeToiletteLineListed();
    MensLineListed();
    WomensLineListed();
    UnisexLineListed();
    var s1 := EauDeParfumLine + EauDeToiletteLine;
    var s2 := s1 + MensLine;
    var s3 := s2 + WomensLine;
    AllListedConcat(EauDeParfumLine, EauDeToiletteLine);
    AllListedConcat(s1, MensLine);
    AllListedConcat(s2, WomensLine);
    AllListedConcat(s3, UnisexLine);
  }

  predicate DistinctIds(s: seq<Product>) {
    forall i, j :: 0 <= i < j < |s| ==> s[i].id != s[j].id
  }

  /** The shape of a line's ids: `<prefix>-<n>` for its n-th product, all of
      one length `len`, with third letter `c`. */
  predicate Keyed(block: seq<Product>, len: nat, c: char) {
    && len >= 3
    && |block| <= 9
    && forall i :: 0 <= i < |block| ==>
         |block[i].id| == len && block[i].id[2] == c && block[i].id[len - 1] == DigitChar(i + 1)
  }

  lemma KeyedDistinct(block: seq<Product>, len: nat, c: char)
    requires Keyed(block, len, c)
    ensures DistinctIds(block)
  {
    forall i, j | 0 <= i < j < |block| ensures block[i].id != block[j].id {
      assert block[i].id[len - 1] != block[j].id[len - 1];
    }
  }

  /** No id of `b` has the shape of the ids in `a`. */
  predicate Apart(b: seq<Product>, len: nat, c: char) {
    forall j :: 0 <= j < |b| ==> |b[j].id| != len || (len >= 3 && b[j].id[2] != c)
  }

  lemma ApartConcat(a: seq<Product>, b: seq<Product>, len: nat, c: char)
    requires Apart(a, len, c) && Apart(b, len, c)
    ensures Apart(a + b, len, c)
  {
    forall j | 0 <= j < |a + b| ensures |(a + b)[j].id| != len || (len >= 3 && (a + b)[j].id[2] != c) {
      if j >= |a| { assert (a + b)[j] == b[j - |a|]; }
    }
  }

  lemma KeyedApart(a: seq<Product>, len: nat, c: char, len': nat, c': char)
    requires Keyed(a, len, c)
    requires len >= 3 && (len != len' || c != c')
    ensures Apart(a, len', c')
  {
  }

  lemma DistinctIdsConcat(a: seq<Product>, b: seq<Product>, len: nat, c: char)
    requires DistinctIds(a) && Keyed(b, len, c) && Apart(a, len, c)
    ensures DistinctIds(a + b)
  {
    KeyedDistinct(b, len, c);
    forall i, j | 0 <= i < j < |a + b| ensures (a + b)[i].id != (a + b)[j].id {
      if j < |a| {
        assert (a + b)[i] == a[i] && (a + b)[j] == a[j];
      } else if i >= |a| {
        assert (a + b)[i] == b[i - |a|] && (a + b)[j] == b[j - |a|];
      } else {
        assert (a + b)[i] == a[i] && (a + b)[j] == b[j - |a|];
      }
    }
  }

  /** No two products share an id. */
  lemma IdsDistinct()
    ensures DistinctIds(Products)
  {
    EauDeParfumLineKeyed();
    EauDeToiletteLineKeyed();
    MensLineKeyed();
    WomensLineKeyed();
    UnisexLineKeyed();
    KeyedDistinct(EauDeParfumLine, 5, 'p');
    var s1 := EauDeParfumLine + EauDeToiletteLine;
    var s2 := s1 + MensLine;
    var s3 := s2 + WomensLine;
    KeyedApart(EauDeParfumLine, 5, 'p', 5, 't');
    DistinctIdsConcat(EauDeParfumLine, EauDeToiletteLine, 5, 't');
    KeyedApart(EauDeParfumLine, 5, 'p', 6, 'n');
    KeyedApart(EauDeToiletteLine, 5, 't', 6, 'n');
    ApartConcat(EauDeParfumLine, EauDeToiletteLine, 6, 'n');
    DistinctIdsConcat(s1, MensLine, 6, 'n');
    KeyedApart(EauDeParfumLine, 5, 'p', 8, 'm');
    KeyedApart(EauDeToiletteLine, 5, 't', 8, 'm');
    KeyedApart(MensLine, 6, 'n', 8, 'm');
    ApartConcat(EauDeParfumLine, EauDeToiletteLine, 8, 'm');
    ApartConcat(s1, MensLine, 8, 'm');
    DistinctIdsConcat(s2, WomensLine, 8, 'm');
    KeyedApart(EauDeParfumLine, 5, 'p', 8, 'i');
    KeyedApart(EauDeToiletteLine, 5, 't', 8, 'i');
    KeyedApart(MensLine, 6, 'n', 8, 'i');
    KeyedApart(WomensLine, 8, 'm', 8, 'i');
    ApartConcat(EauDeParfumLine, EauDeToiletteLine, 8, 'i');
    ApartConcat(s1, MensLine, 8, 'i');
    ApartConcat(s2, WomensLine, 8, 'i');
    DistinctIdsConcat(s3, UnisexLine, 8, 'i');
  }
}
