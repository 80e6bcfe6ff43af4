/**
 * src/components/CategorizedProducts.tsx: the catalogue grid. Products are
 * grouped by category; with 'All' selected the groups are shown as sections
 * in a fixed category order, otherwise the selected category's group is shown
 * alone (or an empty-category card).
 */
module CategorizedProducts {
  import opened Prelude
  import opened ProductTypes

  /** The products of one category, in list order. */
  function GroupOf(products: seq<Product>, c: Category): (g: seq<Product>)
    ensures |g| <= |products|
  {
    if products == [] then []
    else
      var rest := GroupOf(Init(products), c);
      var p := Last(products);
      if p.EffectiveCategory() == c then rest + [p] else rest
  }

  /** A group keeps list order: it is an ordered sub-list of the products. */
  lemma {:induction false} GroupOfOrdered(products: seq<Product>, c: Category)
    ensures Sublist(GroupOf(products, c), products)
    decreases |products|
  {
    if products != [] {
      var ps, p := Init(products), Last(products);
      GroupOfOrdered(ps, c);
      var r := GroupOf(products, c);
      if p.EffectiveCategory() == c {
        assert Init(r) == GroupOf(ps, c) && Last(r) == p;
      } else {
        assert r == GroupOf(ps, c);
      }
    }
  }

  /** A group holds each product of its category as often as the list does, and nothing else. */
  lemma {:induction false} GroupOfCounts(products: seq<Product>, c: Category)
    ensures forall p :: multiset(GroupOf(products, c))[p]
                        == if p.EffectiveCategory() == c then multiset(products)[p] else 0
    decreases |products|
  {
    if products != [] {
      var ps, p := Init(products), Last(products);
      GroupOfCounts(ps, c);
      assert products == ps + [p];
      assert multiset(products) == multiset(ps) + multiset{p};
    }
  }

  /** A group keeps list order and holds each product of its category as often as the list does, and nothing else. */
  lemma GroupOfSpec(products: seq<Product>, c: Category)
    ensures Sublist(GroupOf(products, c), products)
    ensures forall p :: multiset(GroupOf(products, c))[p]
                        == if p.EffectiveCategory() == c then multiset(products)[p] else 0
  {
    GroupOfOrdered(products, c);
    GroupOfCounts(products, c);
  }

  /** The grouping the reduce builds: one entry per category that occurs, holding its products. */
  function Groups(products: seq<Product>): map<Category, seq<Product>> {
    map c | c in CategoriesOf(products) :: GroupOf(products, c)
  }

  /** `categorizedProducts[c] || []` */
  function Lookup(groups: map<Category, seq<Product>>, c: Category): seq<Product> {
    if c in groups then groups[c] else []
  }

  lemma {:induction false} GroupOfSnoc(products: seq<Product>, p: Product, c: Category)
    ensures GroupOf(products + [p], c) == GroupOf(products, c) + (if p.EffectiveCategory() == c then [p] else [])
  {
    assert Init(products + [p]) == products;
  }

  /** A group's size is the number of products of that category. */
  lemma {:induction false} GroupSize(products: seq<Product>, c: Category)
    ensures |GroupOf(products, c)| == multiset(CategoriesOf(products))[c]
    decreases |products|
  {
    if products != [] {
      var ps, p := Init(products), Last(products);
      GroupSize(ps, c);
      CategoriesSnoc(ps, p);
      assert products == ps + [p];
      GroupOfSnoc(ps, p, c);
      assert multiset(CategoriesOf(products)) == multiset(CategoriesOf(ps)) + multiset{p.EffectiveCategory()};
    }
  }

  lemma CategoriesSnoc(ps: seq<Product>, p: Product)
    ensures CategoriesOf(ps + [p]) == CategoriesOf(ps) + [p.EffectiveCategory()]
  {
  }

  /** A category with no products has an empty group, present or not. */
  lemma LookupGroups(products: seq<Product>, c: Category)
    ensures Lookup(Groups(products), c) == GroupOf(products, c)
  {
    if c !in CategoriesOf(products) {
      GroupSize(products, c);
    }
  }

  /**
   * The reduce: for each product, create its category's array if missing and
   * push the product onto it.
   */
  method GroupByCategory(products: seq<Product>) returns (groups: map<Category, seq<Product>>)
    ensures groups == Groups(products)
  {
    groups := map[];
    var i := 0;
    while i < |products|
      invariant 0 <= i <= |products|
      invariant groups == Groups(products[..i])
    {
      var p := products[i];
      var category := p.EffectiveCategory();
      if category !in groups {
        groups := groups[category := []];
      }
      groups := groups[category := groups[category] + [p]];
      GroupsStep(products[..i], p);
      assert products[..i + 1] == products[..i] + [p];
      i := i + 1;
    }
    assert products[..i] == products;
  }

  lemma GroupsStep(ps: seq<Product>, p: Product)
    ensures var c := p.EffectiveCategory();
      Groups(ps + [p]) == Groups(ps)[c := Lookup(Groups(ps), c) + [p]]
  {
    var c := p.EffectiveCategory();
    var l, r := Groups(ps + [p]), Groups(ps)[c := Lookup(Groups(ps), c) + [p]];
    assert l.Keys == r.Keys by {
      CategoriesSnoc(ps, p);
      assert forall k :: k in CategoriesOf(ps + [p]) <==> k in CategoriesOf(ps) || k == c;
    }
    forall k | k in l ensures l[k] == r[k] {
      GroupOfSnoc(ps, p, k);
      LookupGroups(ps, k);
    }
  }

  /**
   * Grouping puts every product in exactly one group, the one of its own
   * category, and the group sizes add up to the number of products.
   */
  lemma GroupsPartition(products: seq<Product>)
    ensures forall p, c :: p in products ==> (p in Lookup(Groups(products), c) <==> p.EffectiveCategory() == c)
    ensures SumOver(CategoryKeys, map c | c in Groups(products) :: |Groups(products)[c]|) == |products|
  {
    forall p, c | p in products ensures p in Lookup(Groups(products), c) <==> p.EffectiveCategory() == c {
      LookupGroups(products, c);
      GroupOfSpec(products, c);
      assert multiset(products)[p] > 0;
    }
    var sizes := map c | c in Groups(products) :: |Groups(products)[c]|;
    assert sizes == TallyOf(CategoriesOf(products)) by {
      forall c | c in sizes ensures sizes[c] == TallyOf(CategoriesOf(products))[c] {
        GroupSize(products, c);
      }
    }
    TallySum(CategoriesOf(products));
  }

  /** The fixed section order, Bulks first and 1 Liter last. */
  const CategoryOrder: seq<Category> :=
    [Bulks, Lollies, Kulfi, Kasata, Balls, JumboRefill, BlackForest, HalfLiters, OneLiter]

  /** A section card: the category and its products. */
  datatype Section = Section(category: Category, items: seq<Product>)

  /** categoryOrder.map(...): one section per category in order, skipping empty groups. */
  function SectionList(order: seq<Category>, groups: map<Category, seq<Product>>): seq<Section> {
    if order == [] then []
    else
      var c := Last(order);
      SectionList(Init(order), groups) + (if Lookup(groups, c) == [] then [] else [Section(c, Lookup(groups, c))])
  }

  function SectionCategories(sections: seq<Section>): seq<Category> {
    seq(|sections|, i requires 0 <= i < |sections| => sections[i].category)
  }

  function ItemTotal(sections: seq<Section>): nat {
    if sections == [] then 0 else ItemTotal(Init(sections)) + |Last(sections).items|
  }

  /** Sections come in the given order: their categories form an ordered sub-list of it. */
  lemma {:induction false} SectionListOrdered(order: seq<Category>, groups: map<Category, seq<Product>>)
    ensures Sublist(SectionCategories(SectionList(order, groups)), order)
    decreases |order|
  {
    if order != [] {
      var c := Last(order);
      var init := SectionList(Init(order), groups);
      var r := SectionList(order, groups);
      SectionListOrdered(Init(order), groups);
      if Lookup(groups, c) != [] {
        assert r == init + [Section(c, Lookup(groups, c))];
        assert SectionCategories(r) == SectionCategories(init) + [c];
        assert Init(SectionCategories(r)) == SectionCategories(init);
      } else {
        assert r == init;
        if SectionCategories(r) != [] {
          assert Sublist(SectionCategories(r), Init(order));
        }
      }
    }
  }

  /**
   * Each section holds its category's whole group and is non-empty, and a
   * category of the order gets a section exactly when its group is non-empty.
   */
  lemma {:induction false} SectionListContents(order: seq<Category>, groups: map<Category, seq<Product>>)
    ensures forall s :: s in SectionList(order, groups) ==> s.items == Lookup(groups, s.category) && s.items != []
    ensures forall c :: c in order && Lookup(groups, c) != [] ==> c in SectionCategories(SectionList(order, groups))
    decreases |order|
  {
    if order != [] {
      var c := Last(order);
      var init := SectionList(Init(order), groups);
      var r := SectionList(order, groups);
      SectionListContents(Init(order), groups);
      assert order == Init(order) + [c];
      if Lookup(groups, c) != [] {
        assert r == init + [Section(c, Lookup(groups, c))];
        assert SectionCategories(r) == SectionCategories(init) + [c];
        forall s | s in r ensures s.items == Lookup(groups, s.category) && s.items != [] {
          assert s in init || s == Section(c, Lookup(groups, c));
        }
        forall c' | c' in order && Lookup(groups, c') != [] ensures c' in SectionCategories(r) {
          assert c' in Init(order) || c' == c;
        }
      } else {
        assert r == init;
        forall c' | c' in order && Lookup(groups, c') != [] ensures c' in SectionCategories(r) {
          assert c' in Init(order);
        }
      }
    }
  }

  /**
   * Sections come in the given order, each holds its category's whole group
   * and is non-empty, and a category gets a section exactly when its group is
   * non-empty.
   */
  lemma SectionListSpec(order: seq<Category>, groups: map<Category, seq<Product>>)
    ensures Sublist(SectionCategories(SectionList(order, groups)), order)
    ensures forall s :: s in SectionList(order, groups) ==> s.items == Lookup(groups, s.category) && s.items != []
    ensures forall c :: c in order && Lookup(groups, c) != [] ==> c in SectionCategories(SectionList(order, groups))
  {
    SectionListOrdered(order, groups);
    SectionListContents(order, groups);
  }

  /** The item badges of the sections add up to the products shown. */
  lemma {:induction false} SectionListTotal(order: seq<Category>, products: seq<Product>)
    ensures ItemTotal(SectionList(order, Groups(products))) == SumOver(order, TallyOf(CategoriesOf(products)))
    decreases |order|
  {
    if order != [] {
      var c := Last(order);
      SectionListTotal(Init(order), products);
      LookupGroups(products, c);
      GroupSize(products, c);
      var cats := CategoriesOf(products);
      assert CountFor(TallyOf(cats), c) == multiset(cats)[c];
      var init := SectionList(Init(order), Groups(products));
      if Lookup(Groups(products), c) != [] {
        var r := SectionList(order, Groups(products));
        assert Init(r) == init;
        assert ItemTotal(r) == ItemTotal(init) + |Lookup(Groups(products), c)|;
      } else {
        assert SectionList(order, Groups(products)) == init;
      }
      assert |Lookup(Groups(products), c)| == CountFor(TallyOf(cats), c);
      assert SumOver(order, TallyOf(cats)) == SumOver(Init(order), TallyOf(cats)) + CountFor(TallyOf(cats), c);
    }
  }

  /** What the component renders. */
  datatype View =
    | Sections(sections: seq<Section>, showOthers: bool)  // 'All': the category sections, then "Other Products"
    | CategoryPanel(category: Category, items: seq<Product>)  // one category's products
    | EmptyCategory(category: Category)  // "No products in ..."

  /** displayProducts */
  function DisplayProducts(products: seq<Product>, groups: map<Category, seq<Product>>, selected: Selection)
    : seq<Product>
  {
    if selected.All? then products else Lookup(groups, selected.category)
  }

  /** Object.keys(categorizedProducts).some(cat => !categoryOrder.includes(cat)) */
  predicate HasUncategorized(groups: map<Category, seq<Product>>) {
    exists c :: c in groups && c !in CategoryOrder
  }

  /** The fixed order lists every category, so the "Other Products" card never shows. */
  lemma NeverUncategorized(groups: map<Category, seq<Product>>)
    ensures !HasUncategorized(groups)
  {
    CategoryKeysComplete();
    assert CategoryOrder == CategoryKeys;
  }

  /** The component's output for a product list and a selection. */
  method Render(products: seq<Product>, selected: Selection) returns (v: View)
    ensures selected.All? ==> v == Sections(SectionList(CategoryOrder, Groups(products)), false)
    ensures selected.Only? ==> v == if GroupOf(products, selected.category) == []
                                    then EmptyCategory(selected.category)
                                    else CategoryPanel(selected.category, GroupOf(products, selected.category))
  {
    var categorizedProducts := GroupByCategory(products);
    var displayProducts := DisplayProducts(products, categorizedProducts, selected);
    if selected.All? {
      NeverUncategorized(categorizedProducts);
      return Sections(SectionList(CategoryOrder, categorizedProducts), HasUncategorized(categorizedProducts));
    }
    LookupGroups(products, selected.category);
    if |displayProducts| == 0 {
      v := EmptyCategory(selected.category);
    } else {
      v := CategoryPanel(selected.category, displayProducts);
    }
  }

  /**
   * With 'All' selected every product appears in exactly one section, the
   * one of its category, and the sections' item counts add up to the number
   * of products.
   */
  lemma AllSectionsCoverProducts(products: seq<Product>)
    ensures var sections := SectionList(CategoryOrder, Groups(products));
      && ItemTotal(sections) == |products|
      && (forall p, s :: p in products && s in sections ==> (p in s.items <==> s.category == p.EffectiveCategory()))
      && (forall p :: p in products ==> p.EffectiveCategory() in SectionCategories(sections))
  {
    var sections := SectionList(CategoryOrder, Groups(products));
    assert CategoryOrder == CategoryKeys;
    SectionListTotal(CategoryOrder, products);
    TallySum(CategoriesOf(products));
    SectionListSpec(CategoryOrder, Groups(products));
    GroupsPartition(products);
    CategoryKeysComplete();
    forall p | p in products ensures p.EffectiveCategory() in SectionCategories(sections) {
      var c := p.EffectiveCategory();
      assert p in Lookup(Groups(products), c);
    }
  }
}
