/** The older home page kept under `backup/pageA`. Its search, featured
    strip and price guard are the same code as the current page's (the
    `Home` members); only the sections differ: one per category, with the
    unisex products in a section of their own. */
module BackupHome {
  import opened Catalog
  import Home

  /** The five category sections in page order. */
  function Sections(products: seq<Product>): (r: seq<seq<Product>>)
    ensures |r| == 5
    ensures forall k, i :: 0 <= k < 5 && 0 <= i < |r[k]| ==>
      r[k][i].category == [EauDeParfum, EauDeToilette, Mens, Womens, Unisex][k]
  {
    [InCategory(products, EauDeParfum), InCategory(products, EauDeToilette),
     InCategory(products, Mens), InCategory(products, Womens), InCategory(products, Unisex)]
  }

  /** Each product is in exactly the section of its category, so the five
      sections together hold the catalog once over. */
  lemma SectionsPartition(products: seq<Product>)
    ensures var s := Sections(products);
      multiset(s[0]) + multiset(s[1]) + multiset(s[2]) + multiset(s[3]) + multiset(s[4]) == multiset(products)
  {
    Home.CategoriesPartition(products);
  }

  /** The current page's sections are the backup's with the men's and the
      unisex sections joined into one. */
  lemma SectionsMerged(products: seq<Product>)
    ensures var b := Sections(products);
      Home.Sections(products) == [b[0], b[1], b[2] + b[4], b[3]]
  {
  }
}
