/**
 * src/pages/Discount30.tsx: the 30% discount page. Its product list is
 * searched and narrowed to one category, its category counts are taken over
 * all of its products, each row shows a rounded discount badge, and an owner
 * can edit the page text and add products.
 */
module Discount30Page {
  import opened Prelude
  import opened Text
  import opened ProductTypes

  /** The fetched rows with `category: categorizeProduct(product.product_name)` added. */
  function AssignCategories(data: seq<DiscountProduct>): (r: seq<DiscountProduct>)
    ensures |r| == |data|
    ensures forall i :: 0 <= i < |data| ==>
      r[i].category == Some(Categorize(data[i].productName))
      && r[i].(category := data[i].category) == data[i]
  {
    seq(|data|, i requires 0 <= i < |data| => data[i].(category := Some(Categorize(data[i].productName))))
  }

  function CategoriesOf(products: seq<DiscountProduct>): (cats: seq<Category>)
    ensures |cats| == |products|
  {
    seq(|products|, i requires 0 <= i < |products| => products[i].EffectiveCategory())
  }

  /**
   * categoryCounts, over ALL of the page's products (not the filtered ones):
   * each present category maps to its number of products, and the counts add
   * up to products.length.
   */
  method CategoryCounts(products: seq<DiscountProduct>) returns (counts: map<Category, nat>)
    ensures counts == TallyOf(CategoriesOf(products))
    ensures forall c :: c in counts <==> exists i :: 0 <= i < |products| && products[i].EffectiveCategory() == c
    ensures forall c :: c in counts ==> counts[c] == multiset(CategoriesOf(products))[c]
    ensures SumCounts(counts) == |products|
  {
    var cats := CategoriesOf(products);
    counts := Tally(cats);
    forall c ensures c in cats <==> exists i :: 0 <= i < |products| && products[i].EffectiveCategory() == c {
      if c in cats {
        var i :| 0 <= i < |cats| && cats[i] == c;
        assert products[i].EffectiveCategory() == c;
      }
      if exists i :: 0 <= i < |products| && products[i].EffectiveCategory() == c {
        var i :| 0 <= i < |products| && products[i].EffectiveCategory() == c;
        assert cats[i] == c;
      }
    }
  }

  predicate ProductMatches(p: DiscountProduct, term: string) {
    MatchesSearch(p.productName, p.category, term)
  }

  /** The search filter, in list order. */
  function SearchHits(products: seq<DiscountProduct>, term: string): (r: seq<DiscountProduct>)
    ensures Sublist(r, products)
    ensures forall p :: multiset(r)[p] == if ProductMatches(p, term) then multiset(products)[p] else 0
    decreases |products|
  {
    if products == [] then []
    else
      var rest := SearchHits(Init(products), term);
      var p := Last(products);
      assert products == Init(products) + [p];
      if ProductMatches(p, term) then rest + [p] else rest
  }

  /** The category filter: products whose stored or computed category is c, in list order. */
  function InCategory(products: seq<DiscountProduct>, c: Category): (r: seq<DiscountProduct>)
    ensures Sublist(r, products)
    ensures forall p :: multiset(r)[p] == if p.EffectiveCategory() == c then multiset(products)[p] else 0
    decreases |products|
  {
    if products == [] then []
    else
      var rest := InCategory(Init(products), c);
      var p := Last(products);
      assert products == Init(products) + [p];
      if p.EffectiveCategory() == c then rest + [p] else rest
  }

  /** filteredProducts: the search filter when a term is typed, then the category filter unless 'All'. */
  function FilteredProducts(products: seq<DiscountProduct>, selected: Selection, searchTerm: string)
    : seq<DiscountProduct>
  {
    var filtered := if searchTerm != "" then SearchHits(products, searchTerm) else products;
    if selected.Only? then InCategory(filtered, selected.category) else filtered
  }

  /** What the page lists passes both filters. */
  predicate Shown(p: DiscountProduct, selected: Selection, searchTerm: string) {
    (searchTerm == "" || ProductMatches(p, searchTerm))
    && (selected.All? || p.EffectiveCategory() == selected.category)
  }

  /**
   * The listed products keep the page's order, and a product is listed
   * exactly when the term finds it (or no term is typed) and it lies in the
   * selected category (or 'All' is selected).
   */
  lemma FilteredProductsSpec(products: seq<DiscountProduct>, selected: Selection, searchTerm: string)
    ensures Sublist(FilteredProducts(products, selected, searchTerm), products)
    ensures forall p :: multiset(FilteredProducts(products, selected, searchTerm))[p]
                        == if Shown(p, selected, searchTerm) then multiset(products)[p] else 0
    ensures selected == All && searchTerm == "" ==> FilteredProducts(products, selected, searchTerm) == products
  {
    var filtered := if searchTerm != "" then SearchHits(products, searchTerm) else products;
    if searchTerm == "" {
      SublistRefl(products);
    }
    if selected.Only? {
      SublistTrans(InCategory(filtered, selected.category), filtered, products);
    }
  }

  /**
   * The badge: Math.round((original - discounted) / original * 100) percent.
   * The division is unguarded, so the original price must not be zero.
   */
  function DiscountPercent(originalPrice: real, discountedPrice: real): (pct: int)
    requires originalPrice != 0.0
    ensures 0.0 <= discountedPrice <= originalPrice ==> 0 <= pct <= 100
    ensures discountedPrice == originalPrice ==> pct == 0
    ensures (originalPrice - discountedPrice) / originalPrice * 100.0 - 0.5 < pct as real
            <= (originalPrice - discountedPrice) / originalPrice * 100.0 + 0.5
  {
    var ratio := (originalPrice - discountedPrice) / originalPrice;
    assert 0.0 <= discountedPrice <= originalPrice ==> 0.0 <= ratio <= 1.0 by {
      assert ratio * originalPrice == originalPrice - discountedPrice;
    }
    Round(ratio * 100.0)
  }

  lemma DiscountBadgeExample()
    ensures DiscountPercent(100.0, 70.0) == 30
  {
  }

  /** The text shown in place of an empty list: it depends only on the selection. */
  function EmptyListMessage(selected: Selection): (m: string)
    ensures selected.All? <==> m == "No products added yet"
    ensures selected.Only? ==> m == "No products found in " + CategoryName(selected.category) + " category"
  {
    match selected
    case All => "No products added yet"
    case Only(c) => "No products found in " + CategoryName(c) + " category"
  }

  // ---- the owner's editing state ----

  /** The add-product form, holding the raw input text. */
  datatype NewProduct = NewProduct(productName: string, originalPrice: string, discountedPrice: string)

  const EmptyForm := NewProduct("", "", "")

  /** The insert sent to discount_page_products (prices still as typed; parseFloat is not modelled). */
  datatype Insert = Insert(pageName: string, productName: string, originalPrice: string, discountedPrice: string)

  class DiscountPage {
    var content: string
    var editedContent: string
    var isEditing: bool
    var saving: bool
    var isAddingProduct: bool
    var newProduct: NewProduct

    /** The page as first rendered; fetchContent then supplies the text (`data?.content || ''`). */
    constructor (fetched: Option<string>)
      ensures content == fetched.GetOr("")
      ensures editedContent == "" && !isEditing && !saving && !isAddingProduct && newProduct == EmptyForm
    {
      content := fetched.GetOr("");
      editedContent := "";
      isEditing := false;
      saving := false;
      isAddingProduct := false;
      newProduct := EmptyForm;
    }

    /** handleEdit: start editing from the current text. */
    method Edit()
      modifies this
      ensures editedContent == content == old(content) && isEditing
      ensures saving == old(saving) && isAddingProduct == old(isAddingProduct) && newProduct == old(newProduct)
    {
      editedContent := content;
      isEditing := true;
    }

    /** The textarea's onChange. */
    method Type(text: string)
      modifies this`editedContent
      ensures editedContent == text
    {
      editedContent := text;
    }

    /**
     * handleSave: the update is sent with the edited text; on success the page
     * shows it and editing ends, on failure nothing changes. Either way saving
     * ends.
     */
    method Save(updateSucceeds: bool)
      modifies this
      ensures !saving
      ensures updateSucceeds ==> content == old(editedContent) && !isEditing
      ensures !updateSucceeds ==> content == old(content) && isEditing == old(isEditing)
      ensures editedContent == old(editedContent)
      ensures isAddingProduct == old(isAddingProduct) && newProduct == old(newProduct)
    {
      saving := true;
      if updateSucceeds {
        content := editedContent;
        isEditing := false;
      }
      saving := false;
    }

    /** handleCancel: editing ends and the draft is dropped; the page text is untouched. */
    method Cancel()
      modifies this
      ensures !isEditing && editedContent == ""
      ensures content == old(content) && saving == old(saving)
      ensures isAddingProduct == old(isAddingProduct) && newProduct == old(newProduct)
    {
      isEditing := false;
      editedContent := "";
    }

    /** The Add Product button, and the add panel's Cancel button. */
    method SetAdding(open: bool)
      modifies this`isAddingProduct
      ensures isAddingProduct == open
    {
      isAddingProduct := open;
    }

    /** The three inputs of the add panel. */
    method FillForm(form: NewProduct)
      modifies this`newProduct
      ensures newProduct == form
    {
      newProduct := form;
    }

    /**
     * handleAddProduct: with any field empty nothing is sent and nothing
     * changes; otherwise the insert for page '30%' is sent, and when it
     * succeeds the form is cleared and the panel closes.
     */
    method AddProduct(insertSucceeds: bool) returns (sent: Option<Insert>)
      modifies this
      ensures sent.None? <==> (old(newProduct).productName == "" || old(newProduct).originalPrice == ""
                               || old(newProduct).discountedPrice == "")
      ensures sent.Some? ==> sent.value == Insert("30%", old(newProduct).productName,
                                                  old(newProduct).originalPrice, old(newProduct).discountedPrice)
      ensures sent.Some? && insertSucceeds ==> newProduct == EmptyForm && !isAddingProduct
      ensures sent.None? || !insertSucceeds ==> newProduct == old(newProduct) && isAddingProduct == old(isAddingProduct)
      ensures content == old(content) && editedContent == old(editedContent)
      ensures isEditing == old(isEditing) && saving == old(saving)
    {
      if newProduct.productName == "" || newProduct.originalPrice == "" || newProduct.discountedPrice == "" {
        return None;
      }
      sent := Some(Insert("30%", newProduct.productName, newProduct.originalPrice, newProduct.discountedPrice));
      if insertSucceeds {
        newProduct := EmptyForm;
        isAddingProduct := false;
      }
    }
  }

  /** Edit followed by Cancel leaves the page text as it was and the draft empty. */
  method EditThenCancel(page: DiscountPage)
    modifies page
    ensures page.content == old(page.content) && !page.isEditing && page.editedContent == ""
  {
    page.Edit();
    page.Cancel();
  }

  /** Edit, type, and a successful save publish exactly the typed text. */
  method EditTypeSave(page: DiscountPage, text: string)
    modifies page
    ensures page.content == text && !page.isEditing && !page.saving
  {
    page.Edit();
    page.Type(text);
    page.Save(true);
  }
}
