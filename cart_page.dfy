/**
 * src/pages/Cart.tsx: the cart page. Its customer form is checked by a zod
 * schema, quantity changes are guarded, and "generate bill" runs two
 * pre-checks before handing the cart, the validated customer data and the
 * biller (derived from the signed-in user's email) to the bill composer.
 */
module CartPage {
  import opened Prelude
  import opened Text
  import opened ProductTypes
  import opened BillComposer

  // ---- customerSchema ----

  /** The characters /^[a-zA-Z\s\-'.]+$/ admits. */
  predicate NameChar(c: char) {
    IsLetter(c) || IsSpace(c) || c == '-' || c == '\'' || c == '.'
  }

  /** name: trimmed, 1 to 100 characters, only letters, whitespace, - ' and . */
  predicate ValidName(name: string) {
    var t := Trim(name);
    1 <= |t| <= 100 && forall i :: 0 <= i < |t| ==> NameChar(t[i])
  }

  /** phone: exactly ten ASCII digits, with no trimming. */
  predicate ValidPhone(phone: string) {
    |phone| == 10 && forall i :: 0 <= i < |phone| ==> IsDigit(phone[i])
  }

  /**
   * An optional field: z.string().trim().max(bound).optional().or(z.literal('')).
   * The empty string already passes the first branch, so the field is valid
   * exactly when its trimmed length is within the bound.
   */
  predicate ValidOptional(value: string, bound: nat) {
    |Trim(value)| <= bound
  }

  const AddressMax := 500
  const VehicleNoMax := 20
  const DeliveryNoteMax := 200

  /**
   * The schema's parse: the trimmed form when every field is valid (the phone
   * is passed through as typed), nothing otherwise.
   */
  function ParseCustomer(form: CustomerData): (r: Option<CustomerData>)
    ensures r.Some? <==> ValidName(form.name) && ValidPhone(form.phone)
                         && ValidOptional(form.address, AddressMax)
                         && ValidOptional(form.vehicleNo, VehicleNoMax)
                         && ValidOptional(form.deliveryNote, DeliveryNoteMax)
    ensures r.Some? ==> r.value == CustomerData(Trim(form.name), form.phone, Trim(form.address),
                                                Trim(form.vehicleNo), Trim(form.deliveryNote))
  {
    if ValidName(form.name) && ValidPhone(form.phone) && ValidOptional(form.address, AddressMax)
       && ValidOptional(form.vehicleNo, VehicleNoMax) && ValidOptional(form.deliveryNote, DeliveryNoteMax)
    then Some(CustomerData(Trim(form.name), form.phone, Trim(form.address), Trim(form.vehicleNo), Trim(form.deliveryNote)))
    else None
  }

  /**
   * What the schema lets through: a non-empty trimmed name of at most 100
   * allowed characters, a ten-digit phone, and trimmed optional fields within
   * their bounds; parsing that again changes nothing.
   */
  lemma ParsedCustomerSpec(form: CustomerData)
    requires ParseCustomer(form).Some?
    ensures var c := ParseCustomer(form).value;
      && c.name != "" && |c.name| <= 100 && IsTrimmed(c.name)
      && (forall i :: 0 <= i < |c.name| ==> NameChar(c.name[i]))
      && |c.phone| == 10
      && |c.address| <= AddressMax && |c.vehicleNo| <= VehicleNoMax && |c.deliveryNote| <= DeliveryNoteMax
      && ParseCustomer(c) == Some(c)
  {
    var c := ParseCustomer(form).value;
    assert c.name == Trim(form.name);
    TrimSpec(form.name);
    ReparseFixes(form, c);
  }

  /** The parsed (trimmed) data passes the schema again and parses to itself. */
  lemma ReparseFixes(form: CustomerData, c: CustomerData)
    requires ParseCustomer(form) == Some(c)
    ensures ParseCustomer(c) == Some(c)
  {
    TrimIdempotent(form.name);
    TrimIdempotent(form.address);
    TrimIdempotent(form.vehicleNo);
    TrimIdempotent(form.deliveryNote);
    assert ValidName(c.name);
    assert ValidOptional(c.address, AddressMax);
    assert ValidOptional(c.vehicleNo, VehicleNoMax);
    assert ValidOptional(c.deliveryNote, DeliveryNoteMax);
  }

  /** Surrounding whitespace never decides validity of a name. */
  lemma NameIgnoresSurroundingSpace(name: string)
    ensures ValidName(name) <==> ValidName(Trim(name))
  {
    TrimIdempotent(name);
  }

  lemma PhoneExamples()
    ensures ValidPhone("9133363104")
    ensures !ValidPhone(" 9133363104") && !ValidPhone("913336310")
  {
    assert " 9133363104"[0] == ' ';
  }

  lemma NameExample()
    ensures ValidName("O'Brien-Smith Jr.")
  {
    var s := "O'Brien-Smith Jr.";
    TrimFixesTrimmed(s);
    assert Trim(s) == s;
    forall i | 0 <= i < |s| ensures NameChar(s[i]) {
    }
  }

  lemma BlankNameRejected()
    ensures !ValidName("   ")
  {
    assert "   "[1..] == "  " && "  "[1..] == " " && " "[1..] == "";
    assert TrimStart("   ") == "";
  }

  // ---- quantities ----

  /** handleQuantityChange: the update that goes to the cart, if any; only quantities of at least 1 do. */
  function QuantityChange(newQuantity: int): (update: Option<int>)
    ensures update.Some? <==> newQuantity >= 1
    ensures update.Some? ==> update.value == newQuantity
  {
    if newQuantity >= 1 then Some(newQuantity) else None
  }

  /** `parseInt(e.target.value) || 1`: a failed parse (NaN) or 0 reads as 1. */
  function QuantityFromInput(parsed: Option<int>): (q: int)
    ensures parsed.None? || parsed.value == 0 ==> q == 1
    ensures parsed.Some? && parsed.value != 0 ==> q == parsed.value
  {
    if parsed.None? || parsed.value == 0 then 1 else parsed.value
  }

  /**
   * Whatever is typed or clicked, an update never sets a quantity below 1;
   * the minus button on a quantity of 1 does nothing.
   */
  lemma QuantityNeverBelowOne(parsed: Option<int>, current: int)
    ensures var u := QuantityChange(QuantityFromInput(parsed)); u.Some? ==> u.value >= 1
    ensures QuantityChange(current - 1).Some? ==> current >= 2
    ensures parsed.None? ==> QuantityChange(QuantityFromInput(parsed)) == Some(1)
  {
  }

  /** A cart row's amount is price times quantity, the same figure the bill's AMOUNT column prints. */
  function RowAmount(item: CartItem): (amount: real)
    ensures item.product.price >= 0.0 && item.quantity >= 1 ==> amount >= item.product.price
  {
    item.product.price * item.quantity as real
  }

  lemma RowAmountOnBill(index: nat, item: CartItem)
    ensures ItemRow(index, item)[4] == Plain(RowAmount(item))
    ensures ItemRow(index, item)[3] == Plain(item.product.price)
  {
  }

  // ---- billerInfo ----

  /** `s.split('@')[0]`: the text before the first '@', or all of it. */
  function BeforeAt(s: string): (r: string)
    ensures |r| <= |s| && r == s[..|r|]
    ensures '@' !in r
    ensures |r| < |s| ==> s[|r|] == '@'
  {
    if s == [] || s[0] == '@' then [] else [s[0]] + BeforeAt(s[1..])
  }

  /** `user?.email?.split('@')[0] || 'Staff'` */
  function BillerName(email: Option<string>): (name: string)
    ensures name != ""
    ensures email.Some? && BeforeAt(email.value) != "" ==> name == BeforeAt(email.value)
    ensures email.None? || BeforeAt(email.value) == "" ==> name == "Staff"
  {
    if email.Some? && BeforeAt(email.value) != "" then BeforeAt(email.value) else "Staff"
  }

  /** `user?.email || ''` */
  function BillerEmail(email: Option<string>): (e: string)
    ensures email.Some? ==> e == email.value
    ensures email.None? ==> e == ""
  {
    if email.Some? then email.value else ""
  }

  lemma BillerFromEmail()
    ensures BillerName(Some("ravi@shop.in")) == "ravi"
  {
    var e := "ravi@shop.in";
    assert e == "ravi" + "@shop.in";
    BeforeAtPrefix("ravi", "@shop.in");
  }

  /** The local part is what precedes the first '@'. */
  lemma {:induction false} BeforeAtPrefix(local: string, rest: string)
    requires '@' !in local && rest != [] && rest[0] == '@'
    ensures BeforeAt(local + rest) == local
    decreases |local|
  {
    if local != [] {
      assert (local + rest)[1..] == local[1..] + rest;
      BeforeAtPrefix(local[1..], rest);
    }
  }

  lemma BillerFallback()
    ensures BillerName(Some("@shop.in")) == "Staff"
    ensures BillerName(None) == "Staff" && BillerEmail(None) == ""
  {
  }

  // ---- generating the bill ----

  datatype BillOutcome =
    | CartEmpty                       // "Cart is empty"
    | MissingInformation              // "Missing information"
    | FormInvalid                     // the schema rejected the form; the handler never ran
    | Generated(invoice: Invoice)     // "Bill generated!"
    | GenerationFailed(message: string)  // "PDF Generation Failed" with the error's message

  /**
   * handleGenerateBill: an empty cart is refused first, then a missing name or
   * phone; otherwise the bill is composed with the biller taken from the
   * signed-in user's email. The cart total, the clock and the document's
   * behaviour are parameters.
   */
  method GenerateBill(
    cartItems: seq<CartItem>, totalAmount: real, customerData: CustomerData, userEmail: Option<string>,
    timestamp: nat, billDate: string, logoLoads: bool, saveSucceeds: bool)
    returns (outcome: BillOutcome)
    ensures |cartItems| == 0 ==> outcome == CartEmpty
    ensures |cartItems| > 0 && (customerData.name == "" || customerData.phone == "") ==> outcome == MissingInformation
    ensures |cartItems| > 0 && customerData.name != "" && customerData.phone != "" ==>
      (outcome.GenerationFailed? <==> !saveSucceeds)
      && (outcome.GenerationFailed? ==> outcome.message == SaveError)
      && (saveSucceeds ==>
            && outcome.Generated?
            && outcome.invoice.billedBy == Sanitize(Some(BillerName(userEmail)))
            && outcome.invoice.billerEmail == Sanitize(Some(BillerEmail(userEmail)))
            && outcome.invoice.totalAmount == FinalTotal(totalAmount)
            && |outcome.invoice.customerLines| >= 2
            && outcome.invoice.customerLines[0].text == "To: " + Sanitize(Some(customerData.name))
            && outcome.invoice.customerLines[1].text == "Phone: " + Sanitize(Some(customerData.phone))
            && |outcome.invoice.body| == |cartItems| + 3
            && (forall i :: 0 <= i < |cartItems| ==> outcome.invoice.body[i] == ItemRow(i, cartItems[i]))
            && outcome.invoice.body[|cartItems|] == [Text(""), Text("SUBTOTAL"), Text(""), Text(""), Fixed2(totalAmount)]
            && outcome.invoice.body[|cartItems| + 1] == [Text(""), Text("SGST @ 2.5% + CGST @ 2.5%"), Text(""),
                                                         Fixed2Pair(Gst(totalAmount), Gst(totalAmount)), Fixed2(totalAmount * 0.05)]
            && outcome.invoice.body[|cartItems| + 2] == [Text(""), Text("GRAND TOTAL"), Text(""), Text(""), Count(FinalTotal(totalAmount))])
  {
    if |cartItems| == 0 {
      return CartEmpty;
    }
    if customerData.name == "" || customerData.phone == "" {
      return MissingInformation;
    }
    var billerInfo := BillerInfo(BillerName(userEmail), BillerEmail(userEmail));
    var r := ComposeBill(cartItems, totalAmount, customerData, billerInfo, timestamp, billDate, logoLoads, saveSucceeds);
    if r.Failure? {
      return GenerationFailed(r.error);
    }
    var invoice := r.value;
    assert |invoice.customerLines| >= 2;
    assert forall i :: 0 <= i < |cartItems| ==> invoice.body[i] == ItemRow(i, cartItems[i]);
    outcome := Generated(invoice);
  }

  /**
   * The form's submit: the schema runs first and handleGenerateBill only sees
   * parsed data, so once the cart has items the "Missing information" branch
   * can never be reached from the form.
   */
  method SubmitCustomerForm(
    cartItems: seq<CartItem>, totalAmount: real, form: CustomerData, userEmail: Option<string>,
    timestamp: nat, billDate: string, logoLoads: bool, saveSucceeds: bool)
    returns (outcome: BillOutcome)
    ensures ParseCustomer(form).None? <==> outcome == FormInvalid
    ensures outcome != MissingInformation
    ensures ParseCustomer(form).Some? && |cartItems| > 0 && saveSucceeds ==> outcome.Generated?
  {
    var parsed := ParseCustomer(form);
    if parsed.None? {
      return FormInvalid;
    }
    ParsedCustomerSpec(form);
    outcome := GenerateBill(cartItems, totalAmount, parsed.value, userEmail, timestamp, billDate, logoLoads, saveSucceeds);
  }
}
