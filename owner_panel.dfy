/**
 * src/pages/OwnerPanel.tsx: the owner's product management. A product form
 * is checked by a zod schema and turned into the row that is inserted or
 * updated; editing fills the form from a product; the active flag toggles.
 */
module OwnerPanel {
  import opened Prelude
  import opened Text

  /** The owner panel's own Product row. */
  datatype OwnerProduct = OwnerProduct(id: int, name: string, price: real, iconUrl: Option<string>, isActive: bool)

  /** formData: the three inputs as typed. */
  datatype Form = Form(name: string, price: string, iconUrl: string)

  const EmptyForm := Form("", "", "")

  /** The row written by a save. */
  datatype ProductData = ProductData(name: string, price: real, iconUrl: Option<string>, isActive: bool)

  /** The schema's first complaint, in field order (name, price, icon_url). */
  datatype ProductError =
    | NameRequired      // 'Product name is required'
    | NameTooLong       // 'Product name must be less than 100 characters'
    | PriceNotNumber    // parseFloat gave NaN, which z.number() refuses
    | PriceNotPositive  // 'Price must be greater than 0'
    | PriceTooHigh      // 'Price must be less than ₹100,000'
    | InvalidIconUrl    // not a URL, or not http:// or https://

  predicate HttpUrl(u: string) {
    StartsWith(u, "http://") || StartsWith(u, "https://")
  }

  /** The icon_url rule on a non-empty input: trimmed, a URL, and http or https. */
  predicate IconAccepted(iconUrl: string, urlParses: string -> bool) {
    var u := Trim(iconUrl);
    urlParses(u) && HttpUrl(u)
  }

  /**
   * productSchema.parse followed by the productData construction. The price
   * is parseFloat of the price text (None for NaN); whether zod's .url()
   * accepts a string is the parameter urlParses.
   */
  function ValidateProduct(form: Form, parsedPrice: Option<real>, urlParses: string -> bool)
    : (r: Result<ProductData, ProductError>)
    ensures r.Success? <==>
      && 1 <= |Trim(form.name)| <= 100
      && parsedPrice.Some? && 0.0 < parsedPrice.value <= 100000.0
      && (form.iconUrl == "" || IconAccepted(form.iconUrl, urlParses))
    ensures r.Success? ==>
      && r.value.name == Trim(form.name)
      && r.value.price == parsedPrice.value
      && r.value.iconUrl == (if form.iconUrl == "" then None else Some(Trim(form.iconUrl)))
      && r.value.isActive
    ensures r.Failure? && r.error.InvalidIconUrl? ==> 1 <= |Trim(form.name)| <= 100 && parsedPrice.Some?
  {
    var name := Trim(form.name);
    if |name| < 1 then Failure(NameRequired)
    else if |name| > 100 then Failure(NameTooLong)
    else if parsedPrice.None? then Failure(PriceNotNumber)
    else if parsedPrice.value <= 0.0 then Failure(PriceNotPositive)
    else if parsedPrice.value > 100000.0 then Failure(PriceTooHigh)
    else if form.iconUrl != "" && !IconAccepted(form.iconUrl, urlParses) then Failure(InvalidIconUrl)
    else
      var icon := if form.iconUrl == "" then None else Some(Trim(form.iconUrl));
      Success(ProductData(name, parsedPrice.value, icon, true))
  }

  /**
   * A stored row always has a trimmed, non-empty name of at most 100
   * characters, a price in (0, 100000], an icon that is absent or an
   * http(s) address, and is active.
   */
  lemma SavedRowSpec(form: Form, parsedPrice: Option<real>, urlParses: string -> bool)
    requires ValidateProduct(form, parsedPrice, urlParses).Success?
    ensures var d := ValidateProduct(form, parsedPrice, urlParses).value;
      && d.name != "" && |d.name| <= 100 && IsTrimmed(d.name) && Trim(d.name) == d.name
      && 0.0 < d.price <= 100000.0
      && (d.iconUrl.Some? ==> HttpUrl(d.iconUrl.value) && d.iconUrl.value != "")
      && d.isActive
  {
    TrimSpec(form.name);
    TrimIdempotent(form.name);
  }

  /** An empty icon input is stored as null; a blank but non-empty one is refused. */
  lemma IconExamples(form: Form, p: real, urlParses: string -> bool)
    requires 1 <= |Trim(form.name)| <= 100 && 0.0 < p <= 100000.0
    ensures form.iconUrl == "" ==> ValidateProduct(form, Some(p), urlParses).value.iconUrl.None?
    ensures form.iconUrl == "   " ==> ValidateProduct(form, Some(p), urlParses) == Failure(InvalidIconUrl)
  {
    if form.iconUrl == "   " {
      assert "   "[1..] == "  " && "  "[1..] == " " && " "[1..] == "";
      assert Trim(form.iconUrl) == "";
    }
  }

  /** What a successful validation sends. */
  datatype SaveRequest = Update(id: int, data: ProductData) | Insert(data: ProductData)

  /** The request for a validated row: an update of the product being edited, else an insert. */
  function SaveFor(editing: Option<OwnerProduct>, data: ProductData): (request: SaveRequest)
    ensures request.data == data
    ensures request.Update? <==> editing.Some?
    ensures request.Update? ==> request.id == editing.value.id
  {
    if editing.Some? then Update(editing.value.id, data) else Insert(data)
  }

  datatype SubmitOutcome =
    | Invalid(error: ProductError)          // "Validation Error" toast
    | Sent(request: SaveRequest, saved: bool)  // the request, and whether the backend accepted it

  /** handleToggleActive: the update sent for a product's status. */
  function ToggleActive(product: OwnerProduct): (update: (int, bool))
    ensures update.0 == product.id && update.1 == !product.isActive
  {
    (product.id, !product.isActive)
  }

  lemma ToggleTwice(product: OwnerProduct)
    ensures ToggleActive(product.(isActive := ToggleActive(product).1)).1 == product.isActive
  {
  }

  /** The product dialog's state: the form, the product being edited (if any), and whether it is open. */
  class ProductDialog {
    var formData: Form
    var editingProduct: Option<OwnerProduct>
    var dialogOpen: bool

    constructor ()
      ensures formData == EmptyForm && editingProduct.None? && !dialogOpen
    {
      formData := EmptyForm;
      editingProduct := None;
      dialogOpen := false;
    }

    /** The Add Product trigger: forget any product being edited, clear the form, open the dialog. */
    method OpenForAdd()
      modifies this
      ensures formData == EmptyForm && editingProduct.None? && dialogOpen
    {
      editingProduct := None;
      formData := EmptyForm;
      dialogOpen := true;
    }

    /**
     * handleEdit: remember the product and fill the form from it; the price
     * text is the price's toString, and a null icon becomes ''.
     */
    method Edit(product: OwnerProduct, priceText: string)
      modifies this
      ensures editingProduct == Some(product) && dialogOpen
      ensures formData == Form(product.name, priceText, product.iconUrl.GetOr(""))
    {
      editingProduct := Some(product);
      formData := Form(product.name, priceText, if product.iconUrl.Some? then product.iconUrl.value else "");
      dialogOpen := true;
    }

    /** The inputs' onChange handlers. */
    method Type(form: Form)
      modifies this`formData
      ensures formData == form
    {
      formData := form;
    }

    /** onOpenChange: closing the dialog keeps the form and the product being edited. */
    method SetOpen(open: bool)
      modifies this`dialogOpen
      ensures dialogOpen == open
    {
      dialogOpen := open;
    }

    /**
     * handleSubmit: an invalid form sends nothing and changes nothing; a valid
     * one updates the product being edited, or inserts a new one; when the
     * backend accepts it the dialog closes, the form clears and no product is
     * being edited, and when it refuses nothing changes.
     */
    method Submit(parsedPrice: Option<real>, urlParses: string -> bool, saveSucceeds: bool)
      returns (outcome: SubmitOutcome)
      modifies this
      ensures var v := ValidateProduct(old(formData), parsedPrice, urlParses);
        v.Failure? ==> outcome == Invalid(v.error)
      ensures var v := ValidateProduct(old(formData), parsedPrice, urlParses);
        v.Success? ==> outcome == Sent(SaveFor(old(editingProduct), v.value), saveSucceeds)
      ensures outcome.Sent? && outcome.saved ==> !dialogOpen && formData == EmptyForm && editingProduct.None?
      ensures !(outcome.Sent? && outcome.saved) ==>
        formData == old(formData) && editingProduct == old(editingProduct) && dialogOpen == old(dialogOpen)
    {
      var validated := ValidateProduct(formData, parsedPrice, urlParses);
      if validated.Failure? {
        return Invalid(validated.error);
      }
      var productData := validated.value;
      outcome := Sent(SaveFor(editingProduct, productData), saveSucceeds);
      if saveSucceeds {
        dialogOpen := false;
        formData := EmptyForm;
        editingProduct := None;
      }
    }
  }

  /** Editing a product and saving it unchanged sends an update of that same product. */
  method EditAndResave(dialog: ProductDialog, product: OwnerProduct, priceText: string, urlParses: string -> bool)
    returns (outcome: SubmitOutcome)
    modifies dialog
    requires 1 <= |Trim(product.name)| <= 100 && 0.0 < product.price <= 100000.0
    requires product.iconUrl.None? || product.iconUrl.value == "" || IconAccepted(product.iconUrl.value, urlParses)
    ensures outcome.Sent? && outcome.request.Update? && outcome.request.id == product.id
    ensures outcome.request.data.price == product.price && outcome.request.data.isActive
    ensures outcome.request.data.iconUrl ==
      (if product.iconUrl.None? || product.iconUrl.value == "" then None else Some(Trim(product.iconUrl.value)))
  {
    dialog.Edit(product, priceText);
    outcome := dialog.Submit(Some(product.price), urlParses, true);
  }
}
