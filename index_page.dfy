/**
 * src/pages/Index.tsx: the storefront's catalogue. Fetched products get their
 * category from categorizeProduct, the search box filters them, and the
 * category counts are taken over what the search leaves.
 */
module IndexPage {
  import opened Prelude
  import opened Text
  import opened ProductTypes

  /** The fetched rows with `category: categorizeProduct(product.name)` added. */
  function AssignCategories(data: seq<Product>): (r: seq<Product>)
    ensures |r| == |data|
    ensures forall i :: 0 <= i < |data| ==>
      r[i].category == Some(Categorize(data[i].name))
      && r[i].(category := data[i].category) == data[i]
  {
    seq(|data|, i requires 0 <= i < |data| => data[i].(category := Some(Categorize(data[i].name))))
  }

  /** After the fetch, a product's effective category is the one computed from its name. */
  lemma AssignedCategoryIsComputed(data: seq<Product>, i: nat)
    requires i < |data|
    ensures AssignCategories(data)[i].EffectiveCategory() == Categorize(data[i].name)
    ensures AssignCategories(data)[i].name == data[i].name
  {
  }

  predicate ProductMatches(p: Product, term: string) {
    MatchesSearch(p.name, p.category, term)
  }

  /** products.filter(...) with the search test, in list order (Discount30Page.SearchHits over Product rows). */
  function SearchHits(products: seq<Product>, term: string): (r: seq<Product>)
    ensures Sublist(r, products)
    ensures forall p :: multiset(r)[p] == if ProductMatches(p, term) then multiset(products)[p] else 0
    decreases |products|
  {
    if products == [] then []
    else
      var rest := SearchHits(Init(products), term);
      var p := Last(products);
      assert products == Init(products) + [p];
      if ProductMatches(p, term) then rest + [p] else rest
  }

  /** filteredProducts: the whole list for an empty term, otherwise the products the term finds. */
  function FilteredProducts(products: seq<Product>, searchTerm: string): seq<Product> {
    if searchTerm == "" then products else SearchHits(products, searchTerm)
  }

  /**
   * The filter keeps the list order and drops exactly the products the term
   * does not find; an empty term keeps everything.
   */
  lemma FilteredProductsSpec(products: seq<Product>, searchTerm: string)
    ensures searchTerm == "" ==> FilteredProducts(products, searchTerm) == products
    ensures Sublist(FilteredProducts(products, searchTerm), products)
    ensures forall p :: p in FilteredProducts(products, searchTerm)
                        <==> p in products && (searchTerm == "" || ProductMatches(p, searchTerm))
  {
    if searchTerm == "" {
      SublistRefl(products);
    } else {
      var r := FilteredProducts(products, searchTerm);
      forall p ensures p in r <==> p in products && ProductMatches(p, searchTerm) {
        assert p in r <==> multiset(r)[p] > 0;
        assert p in products <==> multiset(products)[p] > 0;
      }
    }
  }

  /**
   * categoryCounts over the filtered list: a category is present exactly when
   * some shown product falls in it, with the number of those products, and
   * the counts add up to the number of products shown. It mirrors
   * Discount30Page.CategoryCounts, here over the filtered Product rows.
   */
  method CategoryCounts(filteredProducts: seq<Product>) returns (counts: map<Category, nat>)
    ensures counts == TallyOf(CategoriesOf(filteredProducts))
    ensures forall c :: c in counts <==> exists i :: 0 <= i < |filteredProducts| && filteredProducts[i].EffectiveCategory() == c
    ensures forall c :: c in counts ==> counts[c] == multiset(CategoriesOf(filteredProducts))[c]
    ensures SumCounts(counts) == |filteredProducts|
  {
    var cats := CategoriesOf(filteredProducts);
    counts := Tally(cats);
    forall c ensures c in cats <==> exists i :: 0 <= i < |filteredProducts| && filteredProducts[i].EffectiveCategory() == c {
      if c in cats {
        var i :| 0 <= i < |cats| && cats[i] == c;
        assert filteredProducts[i].EffectiveCategory() == c;
      }
      if exists i :: 0 <= i < |filteredProducts| && filteredProducts[i].EffectiveCategory() == c {
        var i :| 0 <= i < |filteredProducts| && filteredProducts[i].EffectiveCategory() == c;
        assert cats[i] == c;
      }
    }
  }

  /** The page's view state: products, search term and counts, as the memos compute them. */
  method ViewState(products: seq<Product>, searchTerm: string)
    returns (shown: seq<Product>, counts: map<Category, nat>)
    ensures shown == FilteredProducts(products, searchTerm)
    ensures counts == TallyOf(CategoriesOf(shown))
    ensures SumCounts(counts) == |shown| <= |products|
  {
    shown := FilteredProducts(products, searchTerm);
    FilteredProductsSpec(products, searchTerm);
    SublistLength(shown, products);
    counts := CategoryCounts(shown);
  }
}
