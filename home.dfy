/** The storefront's home page: the search box's results, the featured
    strip, the category sections and the price guard. */
module Home {
  import opened Wrappers
  import opened Text
  import opened Seqs
  import opened Catalog

  /** A product the (trimmed, lowercased) query finds: one with a name whose
      lowercase form contains it, or whose category label's does. */
  predicate Matches(p: Product, query: string) {
    p.name != "" && (Contains(ToLower(p.name), query) || Contains(ToLower(Label(p.category)), query))
  }

  /** The name begins with the query. */
  predicate Prefixed(p: Product, query: string) {
    StartsWith(ToLower(p.name), query)
  }

  /** The sort comparator as "a may come before b": prefix matches first,
      otherwise `a.name.localeCompare(b.name, 'en')`, given as `localeLe`. */
  function Before(query: string, localeLe: (string, string) -> bool): (Product, Product) -> bool {
    (a: Product, b: Product) =>
      if Prefixed(a, query) && !Prefixed(b, query) then true
      else if !Prefixed(a, query) && Prefixed(b, query) then false
      else localeLe(a.name, b.name)
  }

  /** With a locale order that is a total preorder, so is the comparator. */
  lemma BeforeTotal(query: string, localeLe: (string, string) -> bool)
    requires TotalPreorder(localeLe)
    ensures TotalPreorder(Before(query, localeLe))
  {
    var le := Before(query, localeLe);
    forall a: Product, b: Product, c: Product | le(a, b) && le(b, c) ensures le(a, c) {
      if Prefixed(a, query) == Prefixed(b, query) && Prefixed(b, query) == Prefixed(c, query) {
        assert localeLe(a.name, b.name) && localeLe(b.name, c.name);
      }
    }
    forall a: Product, b: Product ensures le(a, b) || le(b, a) {
      assert localeLe(a.name, b.name) || localeLe(b.name, a.name);
    }
  }

  /** The lowercased, trimmed query, or `None` when `!searchQuery` or
      `!trimmedQuery` ends the search. */
  function NormalQuery(searchQuery: string): Option<string> {
    var trimmed := Trim(searchQuery);
    if searchQuery == "" || trimmed == "" then None else Some(ToLower(trimmed))
  }

  /** Only an empty or white-space-only search box ends the search early,
      and a query that goes on is not empty. */
  lemma NormalQueryBlank(searchQuery: string)
    ensures NormalQuery(searchQuery).None? <==> AllSpace(searchQuery)
    ensures NormalQuery(searchQuery).Some? ==> NormalQuery(searchQuery).value != ""
  {
    TrimEmptyIff(searchQuery);
    var trimmed := Trim(searchQuery);
    assert |ToLower(trimmed)| == |trimmed|;
  }

  /** `searchResults`. */
  function SearchResults(products: seq<Product>, searchQuery: string, localeLe: (string, string) -> bool)
      : (r: seq<Product>)
    ensures NormalQuery(searchQuery).None? ==> r == []
    ensures NormalQuery(searchQuery).Some? ==>
      multiset(r) == multiset(Filter(products, (p: Product) => Matches(p, NormalQuery(searchQuery).value)))
  {
    var query := NormalQuery(searchQuery);
    if query.None? then []
    else if products == [] then []
    else
      var filtered := Filter(products, (p: Product) => Matches(p, query.value));
      InsertionSort(filtered, Before(query.value, localeLe))
  }

  /** A query of white space only finds nothing. */
  lemma BlankQueryFindsNothing(products: seq<Product>, searchQuery: string, localeLe: (string, string) -> bool)
    requires AllSpace(searchQuery)
    ensures SearchResults(products, searchQuery, localeLe) == []
  {
    NormalQueryBlank(searchQuery);
  }

  /** Every result matches the query, and every catalog product that
      matches is among the results, as often as it is listed. */
  lemma ResultsExactly(products: seq<Product>, searchQuery: string, localeLe: (string, string) -> bool, p: Product)
    requires NormalQuery(searchQuery).Some?
    ensures var r := SearchResults(products, searchQuery, localeLe);
      var query := NormalQuery(searchQuery).value;
      && (p in r <==> p in products && Matches(p, query))
      && multiset(r)[p] == if Matches(p, query) then multiset(products)[p] else 0
  {
    var query := NormalQuery(searchQuery).value;
    var r := SearchResults(products, searchQuery, localeLe);
    FilterCount(products, (q: Product) => Matches(q, query), p);
    assert p in r <==> multiset(r)[p] > 0;
    assert p in products <==> multiset(products)[p] > 0;
  }

  /** The results are in comparator order. */
  lemma ResultsSorted(products: seq<Product>, searchQuery: string, localeLe: (string, string) -> bool)
    requires TotalPreorder(localeLe)
    requires NormalQuery(searchQuery).Some?
    ensures Sorted(SearchResults(products, searchQuery, localeLe), Before(NormalQuery(searchQuery).value, localeLe))
  {
    var query := NormalQuery(searchQuery).value;
    BeforeTotal(query, localeLe);
    if products != [] {
      InsertionSortSorted(Filter(products, (p: Product) => Matches(p, query)), Before(query, localeLe));
    }
  }

  /** Names that start with the query come before those that do not, and
      within each group the results follow the name order. */
  lemma PrefixFirst(products: seq<Product>, searchQuery: string, localeLe: (string, string) -> bool, i: nat, j: nat)
    requires TotalPreorder(localeLe)
    requires NormalQuery(searchQuery).Some?
    requires i < j < |SearchResults(products, searchQuery, localeLe)|
    ensures var r := SearchResults(products, searchQuery, localeLe);
      var query := NormalQuery(searchQuery).value;
      && (Prefixed(r[j], query) ==> Prefixed(r[i], query))
      && (Prefixed(r[i], query) == Prefixed(r[j], query) ==> localeLe(r[i].name, r[j].name))
  {
    ResultsSorted(products, searchQuery, localeLe);
    var r := SearchResults(products, searchQuery, localeLe);
    assert Before(NormalQuery(searchQuery).value, localeLe)(r[i], r[j]);
  }

  /** `products.filter(p => p.featured).slice(0, 8)`. */
  function FeaturedProducts(products: seq<Product>): seq<Product> {
    Take(Filter(products, (p: Product) => p.featured), 8)
  }

  /** The featured strip holds featured products only, in catalog order:
      the first eight of them, or all when there are fewer. */
  lemma FeaturedExactly(products: seq<Product>)
    ensures var f := FeaturedProducts(products);
      var all := Filter(products, (p: Product) => p.featured);
      && |f| == Min(8, |all|)
      && f == all[..|f|]
      && (forall i :: 0 <= i < |f| ==> f[i].featured && f[i] in products)
  {
    var all := Filter(products, (p: Product) => p.featured);
    FilterMembers(products, (p: Product) => p.featured);
    var f := FeaturedProducts(products);
    assert f == all[..|f|];
    forall i | 0 <= i < |f| ensures f[i].featured && f[i] in products {
      assert f[i] == all[i];
    }
  }

  /** The "Mysterious Nights" section: the men's products, then the unisex
      ones. */
  function Mysterious(products: seq<Product>): seq<Product> {
    InCategory(products, Mens) + InCategory(products, Unisex)
  }

  /** The category sections in page order. */
  function Sections(products: seq<Product>): seq<seq<Product>> {
    [InCategory(products, EauDeParfum), InCategory(products, EauDeToilette),
     Mysterious(products), InCategory(products, Womens)]
  }

  /** Splitting by category loses and duplicates nothing: the five category
      lists together hold each product exactly as often as the list does. */
  lemma CategoriesPartition(products: seq<Product>)
    ensures multiset(InCategory(products, EauDeParfum)) + multiset(InCategory(products, EauDeToilette))
          + multiset(InCategory(products, Mens)) + multiset(InCategory(products, Womens))
          + multiset(InCategory(products, Unisex))
         == multiset(products)
  {
    forall x: Product
      ensures (multiset(InCategory(products, EauDeParfum)) + multiset(InCategory(products, EauDeToilette))
            + multiset(InCategory(products, Mens)) + multiset(InCategory(products, Womens))
            + multiset(InCategory(products, Unisex)))[x] == multiset(products)[x]
    {
      CategoryCount(products, EauDeParfum, x);
      CategoryCount(products, EauDeToilette, x);
      CategoryCount(products, Mens, x);
      CategoryCount(products, Womens, x);
      CategoryCount(products, Unisex, x);
    }
  }

  /** A category list holds each product of that category as often as the
      list does, and no other product. */
  lemma CategoryCount(products: seq<Product>, c: Category, x: Product)
    ensures multiset(InCategory(products, c))[x] == if x.category == c then multiset(products)[x] else 0
  {
    FilterCount(products, (p: Product) => p.category == c, x);
  }

  /** So do the page's four sections, with men's and unisex merged. */
  lemma SectionsPartition(products: seq<Product>)
    ensures var s := Sections(products);
      multiset(s[0]) + multiset(s[1]) + multiset(s[2]) + multiset(s[3]) == multiset(products)
  {
    CategoriesPartition(products);
  }

  /** `formatPrice`'s guard: no price is shown for a missing or zero price;
      otherwise the amount is passed on to the currency formatter. */
  function PriceToFormat(price: Option<int>): (r: Option<int>)
    ensures r.None? <==> price.None? || price.value == 0
    ensures r.Some? ==> r.value == price.value
  {
    if price.None? || price.value == 0 then None else price
  }

  /** Every catalog price is shown, unchanged. */
  lemma CatalogPricesShown(i: nat)
    requires i < |Products|
    ensures PriceToFormat(Some(Products[i].price)) == Some(Products[i].price)
  {
    CatalogListed();
    assert Listed(Products[i]);
  }
}
