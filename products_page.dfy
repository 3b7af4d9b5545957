/** The products page loader: the stored products narrowed by a search over
    name, description and category, with the query value echoed back. */
module ProductsPage {
  import opened Seqs
  import opened Text
  import opened Records

  datatype ProductsPageData = ProductsPageData(products: seq<Product>, search: string)

  /** A product matches a lower-cased term when its name, description or
      category, lower-cased, contains it. */
  predicate ProductMatches(p: Product, term: string)
  {
    Contains(Lower(p.name), term) || Contains(Lower(p.description), term)
    || Contains(Lower(p.category), term)
  }

  function Load(stored: seq<Product>, searchParam: Option<string>): (d: ProductsPageData)
    ensures d.search == (if searchParam.Some? then searchParam.value else "")
    ensures IsSubsequence(d.products, stored)
    ensures d.search == "" ==> d.products == stored
    ensures d.search != "" ==>
              (forall i :: 0 <= i < |d.products| ==> ProductMatches(d.products[i], Lower(d.search)))
              && (forall i :: 0 <= i < |stored| && ProductMatches(stored[i], Lower(d.search)) ==>
                    stored[i] in d.products)
    ensures forall x | x in stored ::
              multiset(d.products)[x] ==
                if d.search == "" || ProductMatches(x, Lower(d.search)) then multiset(stored)[x] else 0
  {
    var search := if searchParam.Some? then searchParam.value else "";
    if search != "" then
      var term := Lower(search);
      var p := x => ProductMatches(x, term);
      FilterMultiplicity(stored, p);
      ProductsPageData(Filter(stored, p), search)
    else
      SubsequenceReflexive(stored);
      ProductsPageData(stored, search)
  }
}
