/**
 * src/utils/pdfGenerator.ts: sanitizeText and the deterministic part of
 * generateBillPDF. The jsPDF document is modelled as a description of what is
 * printed (an Invoice value): the bill number and file name, the customer
 * block with its vertical positions, the invoice table with its bold rows, the
 * totals and the biller lines.
 */
module BillComposer {
  import opened Prelude
  import opened Text
  import opened ProductTypes

  // ---- sanitizeText ----

  /** replace(/[<>]/g, ''): every angle bracket deleted, everything else kept in order. */
  function DropBrackets(s: string): (r: string)
    ensures '<' !in r && '>' !in r
  {
    if s == [] then []
    else
      var rest := DropBrackets(Init(s));
      if Last(s) == '<' || Last(s) == '>' then rest else rest + [Last(s)]
  }

  /** Only brackets are deleted: the rest keeps its order and every other character its count. */
  lemma {:induction false} DropBracketsSpec(s: string)
    ensures Sublist(DropBrackets(s), s)
    ensures forall c :: c != '<' && c != '>' ==> multiset(DropBrackets(s))[c] == multiset(s)[c]
    decreases |s|
  {
    if s != [] {
      DropBracketsSpec(Init(s));
      assert s == Init(s) + [Last(s)];
      var r := DropBrackets(s);
      if Last(s) != '<' && Last(s) != '>' {
        assert Init(r) == DropBrackets(Init(s)) && Last(r) == Last(s);
      }
    }
  }

  /** The longest allowed sanitized text. */
  const MaxTextLength := 500

  /** slice(0, 500). */
  function Truncate(s: string): (r: string)
    ensures |r| <= MaxTextLength && |r| <= |s| && r == s[..|r|]
    ensures |r| == if |s| < MaxTextLength then |s| else MaxTextLength
  {
    if |s| <= MaxTextLength then s else s[..MaxTextLength]
  }

  /**
   * sanitizeText: '' for a missing or empty value, otherwise trim, delete
   * '<' and '>', and keep the first 500 characters.
   */
  function Sanitize(text: Option<string>): string {
    if text.None? || text.value == "" then "" else Truncate(DropBrackets(Trim(text.value)))
  }

  /**
   * The sanitized text is safe and short, and it is an in-order selection of
   * the characters of the input: the first 500 characters of the trimmed
   * input with the brackets deleted.
   */
  lemma SanitizeSafe(text: Option<string>)
    ensures var r := Sanitize(text);
      '<' !in r && '>' !in r && |r| <= MaxTextLength
      && (text.Some? ==> Sublist(r, text.value))
      && (text.Some? ==> var d := DropBrackets(Trim(text.value));
                         r == d[..|r|] && |r| == if |d| < MaxTextLength then |d| else MaxTextLength)
  {
    if text.Some? && text.value != "" {
      var s := text.value;
      var d := DropBrackets(Trim(s));
      var r := Truncate(d);
      TrimSpec(s);
      DropBracketsSpec(Trim(s));
      PrefixSublist(d, |r|);
      SublistTrans(r, d, Trim(s));
      SublistTrans(r, Trim(s), s);
      SublistElements(r, d);
    }
  }

  /** A missing or empty value prints as the empty string. */
  lemma SanitizeMissing()
    ensures Sanitize(None) == "" && Sanitize(Some("")) == ""
  {
  }

  /** Text that is already trimmed, bracket-free and short enough passes through unchanged. */
  lemma {:induction false} SanitizeKeepsCleanText(s: string)
    requires IsTrimmed(s) && '<' !in s && '>' !in s && |s| <= MaxTextLength
    ensures Sanitize(Some(s)) == s
  {
    TrimFixesTrimmed(s);
    DropBracketsKeepsClean(s);
  }

  lemma {:induction false} DropBracketsKeepsClean(s: string)
    requires '<' !in s && '>' !in s
    ensures DropBrackets(s) == s
    decreases |s|
  {
    if s != [] {
      assert Last(s) in s;
      assert forall c :: c in Init(s) ==> c in s;
      DropBracketsKeepsClean(Init(s));
    }
  }

  /** Deleting brackets works piece by piece. */
  lemma {:induction false} DropBracketsAppend(a: string, b: string)
    ensures DropBrackets(a + b) == DropBrackets(a) + DropBrackets(b)
    decreases |b|
  {
    if b == [] {
      assert a + b == a;
    } else {
      assert Init(a + b) == a + Init(b);
      assert Last(a + b) == Last(b);
      DropBracketsAppend(a, Init(b));
    }
  }

  /** A tag loses its brackets: "<script>" prints as "script". */
  lemma SanitizeScriptTag()
    ensures Sanitize(Some("<script>")) == "script"
  {
    var s := "<script>";
    TrimFixesTrimmed(s);
    assert s == "<" + "script" + ">";
    DropBracketsAppend("<" + "script", ">");
    DropBracketsAppend("<", "script");
    assert DropBrackets("<") == "" && DropBrackets(">") == "";
    DropBracketsKeepsClean("script");
  }

  /** Brackets are deleted after trimming, so "< a" keeps the space it exposes. */
  lemma SanitizeBracketThenSpace()
    ensures Sanitize(Some("< a")) == " a"
  {
    var s := "< a";
    TrimFixesTrimmed(s);
    assert s == "<" + " a";
    DropBracketsAppend("<", " a");
    DropBracketsKeepsClean(" a");
  }

  lemma SanitizeLeadingSpace()
    ensures Sanitize(Some(" a")) == "a"
  {
    TrimFixesTrimmed("a");
    assert " a"[1..] == "a";
    assert Trim(" a") == "a";
    DropBracketsKeepsClean("a");
  }

  /**
   * Trimming happens before the brackets are deleted, so sanitizing twice is
   * not sanitizing once: "< a" gives " a", which sanitizes again to "a".
   */
  lemma SanitizeNotIdempotent()
    ensures exists s :: Sanitize(Some(Sanitize(Some(s)))) != Sanitize(Some(s))
  {
    SanitizeBracketThenSpace();
    SanitizeLeadingSpace();
    assert Sanitize(Some(Sanitize(Some("< a")))) != Sanitize(Some("< a"));
  }

  // ---- tax and totals ----

  /** SGST and CGST are each 2.5% of the subtotal. */
  function Gst(subtotal: real): (g: real)
    ensures g + g == subtotal * 0.05
    ensures subtotal >= 0.0 ==> 0.0 <= g <= subtotal
  {
    subtotal * 0.025
  }

  /**
   * Math.round(subtotal + sgst + cgst): the subtotal plus 5% tax, to the
   * nearest rupee, halves rounded up.
   */
  function FinalTotal(subtotal: real): (total: int)
    ensures subtotal * 1.05 - 0.5 < total as real <= subtotal * 1.05 + 0.5
    ensures subtotal >= 0.0 ==> total >= 0
  {
    Round(subtotal + Gst(subtotal) + Gst(subtotal))
  }

  /** 150 with tax is 157.5, which rounds up to 158; 1000 becomes 1050 exactly. */
  lemma FinalTotalExamples()
    ensures FinalTotal(150.0) == 158
    ensures FinalTotal(1000.0) == 1050
  {
  }

  // ---- the bill ----

  /** What generateBillPDF reads of the customer form. */
  datatype CustomerData = CustomerData(
    name: string, phone: string, address: string, vehicleNo: string, deliveryNote: string)

  /** Who generated the bill. */
  datatype BillerInfo = BillerInfo(name: string, email: string)

  /** A cell of the invoice table, with the number formatting it is printed with. */
  datatype Cell =
    | Text(text: string)           // a string cell
    | Count(count: int)            // an integer (serial number, quantity, grand total)
    | Plain(amount: real)          // `${x}`: a number in its default rendering
    | Fixed2(amount: real)         // x.toFixed(2)
    | Fixed2Pair(left: real, right: real)  // `${a.toFixed(2)} + ${b.toFixed(2)}`

  /** A line of text in the customer block and the vertical position it is printed at. */
  datatype Line = Line(text: string, y: int)

  /** An optional customer field: its printed label and its sanitized value. */
  datatype Field = Field(caption: string, value: string)

  /** The printed document. */
  datatype Invoice = Invoice(
    hasLogo: bool,
    billNo: string,
    billDate: string,
    customerLines: seq<Line>,
    tableStartY: int,
    head: seq<string>,
    body: seq<seq<Cell>>,
    boldRows: seq<bool>,
    totalAmount: int,
    billedBy: string,
    billerEmail: string,
    fileName: string)

  const TableHead: seq<string> := ["Sl.No", "PARTICULARS", "QTY", "RATE", "AMOUNT Rs. P"]

  const SaveError := "Failed to generate PDF. Please try again."

  /** `SKF${Date.now()}` */
  function BillNumber(timestamp: nat): (b: string)
    ensures StartsWith(b, "SKF")
    ensures forall i :: 3 <= i < |b| ==> IsDigit(b[i])
  {
    "SKF" + Decimal(timestamp)
  }

  /** `Sri_Karthikeya_Bill_${billNo}.pdf` */
  function FileName(billNo: string): (f: string)
    ensures StartsWith(f, "Sri_Karthikeya_Bill_")
    ensures |f| == |billNo| + 24
  {
    "Sri_Karthikeya_Bill_" + billNo + ".pdf"
  }

  /** The timestamp can be read back from the bill number, and the bill number from the file name. */
  lemma BillNumberRoundTrip(timestamp: nat)
    ensures var b := BillNumber(timestamp);
      ParseDecimal(b[3..]) == timestamp
      && FileName(b)[20..|FileName(b)| - 4] == b
  {
    var b := BillNumber(timestamp);
    assert b[3..] == Decimal(timestamp);
    DecimalRoundTrip(timestamp);
  }

  /** Bills generated at different milliseconds get different numbers and file names. */
  lemma BillNumbersDistinct(t1: nat, t2: nat)
    requires t1 != t2
    ensures BillNumber(t1) != BillNumber(t2)
    ensures FileName(BillNumber(t1)) != FileName(BillNumber(t2))
  {
    BillNumberRoundTrip(t1);
    BillNumberRoundTrip(t2);
  }

  /** The optional customer lines that get printed: one per non-empty value, in order. */
  function PrintedFields(fields: seq<Field>): seq<string> {
    if fields == [] then []
    else
      var f := Last(fields);
      PrintedFields(Init(fields)) + (if f.value != "" then [f.caption + f.value] else [])
  }

  /**
   * A field is printed exactly when its value is non-empty, and nothing else
   * is printed.
   */
  lemma {:induction false} PrintedFieldsSpec(fields: seq<Field>)
    ensures |PrintedFields(fields)| <= |fields|
    ensures forall f :: f in fields && f.value != "" ==> f.caption + f.value in PrintedFields(fields)
    ensures forall t :: t in PrintedFields(fields) ==>
              exists f :: f in fields && f.value != "" && t == f.caption + f.value
    decreases |fields|
  {
    if fields != [] {
      PrintedFieldsSpec(Init(fields));
      assert fields == Init(fields) + [Last(fields)];
    }
  }

  lemma PrintedFieldsSnoc(fields: seq<Field>, f: Field)
    ensures PrintedFields(fields + [f]) == PrintedFields(fields) + (if f.value != "" then [f.caption + f.value] else [])
  {
    assert Init(fields + [f]) == fields;
  }

  /** The item row [index + 1, name, quantity, price, price * quantity]. */
  function ItemRow(index: nat, item: CartItem): (row: seq<Cell>)
    ensures |row| == |TableHead|
  {
    [Count(index + 1), Text(item.product.name), Count(item.quantity),
     Plain(item.product.price), Plain(item.product.price * item.quantity as real)]
  }

  /** The customer block as generateBillPDF prints it, and the y position the table starts at. */
  method CustomerBlock(safeName: string, safePhone: string, safeAddress: string,
                       safeVehicleNo: string, safeDeliveryNote: string)
    returns (lines: seq<Line>, tableStartY: int)
    ensures var printed := PrintedFields([Field("Address: ", safeAddress), Field("Vehicle No: ", safeVehicleNo),
                                          Field("Delivery Note: ", safeDeliveryNote)]);
      && |lines| == 2 + |printed|
      && lines[0].text == "To: " + safeName
      && lines[1].text == "Phone: " + safePhone
      && (forall i :: 2 <= i < |lines| ==> lines[i].text == printed[i - 2])
      && (forall i :: 0 <= i < |lines| ==> lines[i].y == 83 + 7 * i)
      && tableStartY == 100 + 7 * |printed|
    ensures 100 <= tableStartY <= 121
  {
    var customerY := 83;
    lines := [Line("To: " + safeName, customerY)];
    customerY := customerY + 7;
    lines := lines + [Line("Phone: " + safePhone, customerY)];
    ghost var fields: seq<Field> := [];
    lines, customerY := PrintIfPresent(lines, customerY, fields, Field("Address: ", safeAddress));
    fields := fields + [Field("Address: ", safeAddress)];
    lines, customerY := PrintIfPresent(lines, customerY, fields, Field("Vehicle No: ", safeVehicleNo));
    fields := fields + [Field("Vehicle No: ", safeVehicleNo)];
    lines, customerY := PrintIfPresent(lines, customerY, fields, Field("Delivery Note: ", safeDeliveryNote));
    fields := fields + [Field("Delivery Note: ", safeDeliveryNote)];
    assert fields == [Field("Address: ", safeAddress), Field("Vehicle No: ", safeVehicleNo),
                      Field("Delivery Note: ", safeDeliveryNote)];
    tableStartY := customerY + 10;
    TableStartBound(lines, customerY);
  }

  /** With at most three optional lines after "To:" and "Phone:", the table starts between y = 100 and y = 121. */
  lemma TableStartBound(lines: seq<Line>, y: int)
    requires 2 <= |lines| <= 5 && y == 83 + 7 * (|lines| - 1)
    ensures 100 <= y + 10 <= 121
  {
  }

  /** `if (value) { customerY += 7; doc.text(caption + value, 20, customerY); }` */
  method PrintIfPresent(lines: seq<Line>, y: int, ghost fields: seq<Field>, f: Field)
    returns (lines': seq<Line>, y': int)
    requires Shows(lines, PrintedFields(fields), y)
    ensures Shows(lines', PrintedFields(fields + [f]), y')
    ensures lines' == lines + (if f.value != "" then [Line(f.caption + f.value, y + 7)] else [])
    ensures |lines| <= |lines'| <= |lines| + 1
  {
    lines', y' := lines, y;
    if f.value != "" {
      y' := y' + 7;
      lines' := lines' + [Line(f.caption + f.value, y')];
    }
    PrintedFieldsSnoc(fields, f);
  }

  /** The optional lines of the block so far are `printed`, 7 apart from y = 83, the last one at y. */
  ghost predicate Shows(lines: seq<Line>, printed: seq<string>, y: int) {
    && |lines| == 2 + |printed|
    && (forall i :: 2 <= i < |lines| ==> lines[i].text == printed[i - 2])
    && (forall i :: 0 <= i < |lines| ==> lines[i].y == 83 + 7 * i)
    && y == 83 + 7 * (|lines| - 1)
  }

  /**
   * The table body and its row styles: the item rows in cart order, then the
   * SUBTOTAL, SGST + CGST and GRAND TOTAL rows pushed in turn; exactly the
   * rows from index cartItems.length on are bold.
   */
  method InvoiceTable(cartItems: seq<CartItem>, totalAmount: real)
    returns (body: seq<seq<Cell>>, boldRows: seq<bool>)
    ensures var n := |cartItems|;
      && |body| == n + 3
      && (forall i :: 0 <= i < |body| ==> |body[i]| == |TableHead|)
      && (forall i :: 0 <= i < n ==> body[i] == ItemRow(i, cartItems[i]))
      && body[n] == [Text(""), Text("SUBTOTAL"), Text(""), Text(""), Fixed2(totalAmount)]
      && body[n + 1] == [Text(""), Text("SGST @ 2.5% + CGST @ 2.5%"), Text(""),
                         Fixed2Pair(Gst(totalAmount), Gst(totalAmount)), Fixed2(totalAmount * 0.05)]
      && body[n + 2] == [Text(""), Text("GRAND TOTAL"), Text(""), Text(""), Count(FinalTotal(totalAmount))]
      && |boldRows| == |body|
      && (forall i :: 0 <= i < |boldRows| ==> (boldRows[i] <==> i >= n))
  {
    var subtotal := totalAmount;
    var sgst := Gst(subtotal);
    var cgst := Gst(subtotal);
    var finalTotal := Round(subtotal + sgst + cgst);

    body := seq(|cartItems|, i requires 0 <= i < |cartItems| => ItemRow(i, cartItems[i]));
    var totalGst := sgst + cgst;
    body := body + [[Text(""), Text("SUBTOTAL"), Text(""), Text(""), Fixed2(subtotal)]];
    body := body + [[Text(""), Text("SGST @ 2.5% + CGST @ 2.5%"), Text(""), Fixed2Pair(sgst, cgst), Fixed2(totalGst)]];
    body := body + [[Text(""), Text("GRAND TOTAL"), Text(""), Text(""), Count(finalTotal)]];

    var subtotalStartIndex := |cartItems|;
    boldRows := seq(|body|, i requires 0 <= i < |body| => i >= subtotalStartIndex);
  }

  /**
   * generateBillPDF. The clock, the date text, whether the logo image loads
   * and whether the save succeeds are parameters. A logo failure only leaves
   * the logo out; a save failure is the one error.
   */
  method ComposeBill(
    cartItems: seq<CartItem>, totalAmount: real, customerData: CustomerData, billerInfo: BillerInfo,
    timestamp: nat, billDate: string, logoLoads: bool, saveSucceeds: bool)
    returns (r: Result<Invoice, string>)
    ensures r.Failure? <==> !saveSucceeds
    ensures r.Failure? ==> r.error == SaveError
    ensures r.Success? ==> var inv := r.value;
      var n := |cartItems|;
      var printed := PrintedFields([Field("Address: ", Sanitize(Some(customerData.address))),
                                    Field("Vehicle No: ", Sanitize(Some(customerData.vehicleNo))),
                                    Field("Delivery Note: ", Sanitize(Some(customerData.deliveryNote)))]);
      && inv.hasLogo == logoLoads
      && inv.billNo == BillNumber(timestamp)
      && inv.billDate == billDate
      && inv.fileName == FileName(inv.billNo)
      && |inv.customerLines| == 2 + |printed|
      && inv.customerLines[0].text == "To: " + Sanitize(Some(customerData.name))
      && inv.customerLines[1].text == "Phone: " + Sanitize(Some(customerData.phone))
      && (forall i :: 2 <= i < |inv.customerLines| ==> inv.customerLines[i].text == printed[i - 2])
      && (forall i :: 0 <= i < |inv.customerLines| ==> inv.customerLines[i].y == 83 + 7 * i)
      && inv.tableStartY == 100 + 7 * |printed|
      && inv.head == TableHead
      && |inv.body| == n + 3
      && (forall i :: 0 <= i < n ==> inv.body[i] == ItemRow(i, cartItems[i]))
      && inv.body[n] == [Text(""), Text("SUBTOTAL"), Text(""), Text(""), Fixed2(totalAmount)]
      && inv.body[n + 1] == [Text(""), Text("SGST @ 2.5% + CGST @ 2.5%"), Text(""),
                             Fixed2Pair(Gst(totalAmount), Gst(totalAmount)), Fixed2(totalAmount * 0.05)]
      && inv.body[n + 2] == [Text(""), Text("GRAND TOTAL"), Text(""), Text(""), Count(FinalTotal(totalAmount))]
      && (forall i :: 0 <= i < |inv.body| ==> |inv.body[i]| == |inv.head|)
      && |inv.boldRows| == |inv.body|
      && (forall i :: 0 <= i < |inv.boldRows| ==> (inv.boldRows[i] <==> i >= n))
      && inv.totalAmount == FinalTotal(totalAmount)
      && inv.billedBy == Sanitize(Some(billerInfo.name))
      && inv.billerEmail == Sanitize(Some(billerInfo.email))
  {
    var safeName := Sanitize(Some(customerData.name));
    var safePhone := Sanitize(Some(customerData.phone));
    var safeAddress := Sanitize(Some(customerData.address));
    var safeVehicleNo := Sanitize(Some(customerData.vehicleNo));
    var safeDeliveryNote := Sanitize(Some(customerData.deliveryNote));
    var safeBillerName := Sanitize(Some(billerInfo.name));
    var safeBillerEmail := Sanitize(Some(billerInfo.email));

    var billNo := BillNumber(timestamp);
    var lines, tableStartY := CustomerBlock(safeName, safePhone, safeAddress, safeVehicleNo, safeDeliveryNote);
    var finalTotal := FinalTotal(totalAmount);
    var body, boldRows := InvoiceTable(cartItems, totalAmount);

    if !saveSucceeds {
      return Failure(SaveError);
    }
    r := Success(Invoice(logoLoads, billNo, billDate, lines, tableStartY, TableHead, body, boldRows,
                         finalTotal, safeBillerName, safeBillerEmail, FileName(billNo)));
  }
}
