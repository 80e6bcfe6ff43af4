# CREAMY-BUBBLES storefront core, modelled in Dafny

CREAMY-BUBBLES is the React storefront of Sri Karthikeya Frozen Foods. This
project models the parts of it that decide what the shop shows and what a bill
contains:

- **The bill composer** (`src/utils/pdfGenerator.ts`). It sanitises every
  customer and biller text, then works out the 2.5 % SGST and 2.5 % CGST and
  the rounded grand total. It also lays out the customer block, where optional
  lines appear only when they are non-empty and the table start moves with
  them. The invoice table has its item rows, three summary rows and bold rows.
  The module covers the bill number and the file name as well.
- **Product categories** (`src/types/product.ts`). `categorizeProduct` is
  modelled as an ordered list of keyword rules, with the first rule that fires
  deciding. The nine `CATEGORIES` keys are kept in declaration order.
- **The catalogue views.**
  - `Index.tsx` and `Discount30.tsx`: search filtering, the category filter
    and the per-category counts.
  - `CategorizedProducts.tsx`: grouping by category, then the sections in the
    fixed category order.
  - `CategoryNavigation.tsx`: the 'All' entry followed by the nine categories,
    each with a label, a count badge and a selected flag.
- **Validation rules and small state machines.**
  - `Cart.tsx`: the customer schema, the quantity guard, the biller
    derivation, and the pre-checks before a bill is generated.
  - `OwnerPanel.tsx`: the product schema, the row that is saved, and the
    product dialog (add, edit, submit).
  - `Discount30.tsx`: the content editor (edit, type, save, cancel) and the
    add-product form with its guard.
  - `ProductCard.tsx`: the colour lookup and the quantity picker.

Modules follow the source files:

| module | source file |
|---|---|
| `Prelude` | small shared helpers |
| `Text` | shared text helpers |
| `ProductTypes` | `product.ts`, plus the counting fold shared by both catalogue pages |
| `BillComposer` | `pdfGenerator.ts` |
| `IndexPage` | `Index.tsx` |
| `Discount30Page` | `Discount30.tsx` |
| `CategorizedProducts` | `CategorizedProducts.tsx` |
| `CartPage` | `Cart.tsx` |
| `OwnerPanel` | `OwnerPanel.tsx` |
| `ProductCard` | `ProductCard.tsx` |
| `CategoryNavigation` | `CategoryNavigation.tsx` |

Pure code is written as functions and lemmas. Code that changes component
state is written as a class whose methods have `modifies` clauses:
`Discount30Page.DiscountPage`, `OwnerPanel.ProductDialog` and
`ProductCard.QuantityPicker`. The source's loops are methods with loop
invariants, each proved against a specification function:

- the counting `reduce` is `ProductTypes.Tally`;
- the grouping `reduce` is `CategorizedProducts.GroupByCategory`;
- the colour search is `ProductCard.GetColorFromName`.

Modelling conventions:

- Money is an exact `real`. `Math.round` is `floor(x + 0.5)`.
- Text is a sequence of ASCII characters. `toLowerCase` maps only A–Z, and
  `trim` removes space, tab, newline, carriage return, vertical tab and form
  feed.
- Library calls whose behaviour the code relies on but does not define become
  parameters:
  - `parseFloat`, `parseInt` and `Number.prototype.toString`;
  - the result of zod's `.url()`;
  - `Date.now()` and the locale date text;
  - whether the logo loads;
  - whether the PDF save succeeds;
  - whether the database accepts a write.

Where descriptions of the system and the code differ, the model follows the
code:

- **Sanitising is not idempotent.** `sanitizeText` trims before it deletes
  `<` and `>`, so `"< a"` becomes `" a"`, and sanitising that again gives
  `"a"`. `BillComposer.SanitizeNotIdempotent` proves this.
- **The bill total is not recomputed.** The bill takes the caller's
  `totalAmount` as its subtotal and never checks it against the item rows.
  `BillComposer.ComposeBill` does the same.
- **Customer values on the bill are the trimmed ones.** The customer schema
  runs (through the form resolver) before `handleGenerateBill`. The handler
  therefore sees the trimmed values, and its "Missing information" branch
  cannot be reached from the form (`CartPage.SubmitCustomerForm`).

## Model

| member | source | states |
|---|---|---|
| `BillComposer.DropBrackets` | src/utils/pdfGenerator.ts:24 | the result contains no `<` and no `>` |
| `BillComposer.DropBracketsSpec` | src/utils/pdfGenerator.ts:24 | deleting brackets keeps the other characters in order (ordered subsequence) and keeps every other character's count |
| `BillComposer.DropBracketsKeepsClean` | src/utils/pdfGenerator.ts:24 | text without brackets is returned unchanged |
| `BillComposer.DropBracketsAppend` | src/utils/pdfGenerator.ts:24 | the global replace works piecewise: stripping a + b equals stripping a, then b, and concatenating |
| `BillComposer.Truncate` | src/utils/pdfGenerator.ts:25 | `slice(0, 500)`: a prefix of the input, of length min(len, 500) |
| `BillComposer.Sanitize` | src/utils/pdfGenerator.ts:19-25 | sanitizeText: `''` for a missing or empty value, otherwise trim, delete `<` and `>`, and keep the first 500 characters |
| `BillComposer.SanitizeSafe` | src/utils/pdfGenerator.ts:20-25 | sanitised text has no brackets and at most 500 characters; it is an ordered subsequence of the input and exactly the first min(len, 500) characters of trim-then-strip |
| `BillComposer.SanitizeMissing` | src/utils/pdfGenerator.ts:20-21 | null, undefined and empty input give `''` |
| `BillComposer.SanitizeKeepsCleanText` | src/utils/pdfGenerator.ts:22-25 | already trimmed, bracket-free text of at most 500 characters is left as it is |
| `BillComposer.SanitizeScriptTag` | src/utils/pdfGenerator.ts:20-25 | `"<script>"` sanitises to `"script"` |
| `BillComposer.SanitizeBracketThenSpace` | src/utils/pdfGenerator.ts:22-24 | trimming happens before brackets are deleted, so `"< a"` keeps its leading space |
| `BillComposer.SanitizeLeadingSpace` | src/utils/pdfGenerator.ts:22-23 | a leading space is trimmed away |
| `BillComposer.SanitizeNotIdempotent` | src/utils/pdfGenerator.ts:20-26 | some input changes again when sanitised twice |
| `BillComposer.Gst` | src/utils/pdfGenerator.ts:110-124 | SGST = CGST, and together they are 5 % of the subtotal; each lies between 0 and the subtotal for a non-negative subtotal |
| `BillComposer.FinalTotal` | src/utils/pdfGenerator.ts:113 | the grand total is within half a rupee of subtotal × 1.05 (rounding half up) and is non-negative for a non-negative subtotal |
| `BillComposer.FinalTotalExamples` | src/utils/pdfGenerator.ts:113 | 150 → 158 (157.5 rounds up) and 1000 → 1050 |
| `BillComposer.BillNumber` | src/utils/pdfGenerator.ts:76 | a bill number is `SKF` followed only by digits |
| `BillComposer.FileName` | src/utils/pdfGenerator.ts:203 | the file name starts with `Sri_Karthikeya_Bill_` and is 24 characters longer than the bill number |
| `BillComposer.BillNumberRoundTrip` | src/utils/pdfGenerator.ts:76 | the timestamp parses back out of the bill number, and the bill number out of the file name |
| `BillComposer.BillNumbersDistinct` | src/utils/pdfGenerator.ts:76 | different timestamps give different bill numbers and different file names |
| `BillComposer.PrintedFields` | src/utils/pdfGenerator.ts:92-105 | the optional customer lines: caption and value for each non-empty field, in field order |
| `BillComposer.PrintedFieldsSpec` | src/utils/pdfGenerator.ts:92-105 | only non-empty optional fields are printed, each with its caption, and each printed line comes from a non-empty field |
| `BillComposer.PrintedFieldsSnoc` | src/utils/pdfGenerator.ts:92-105 | one more optional field adds its line exactly when its value is non-empty |
| `BillComposer.ItemRow` | src/utils/pdfGenerator.ts:115-121 | an item row has one cell per table heading |
| `BillComposer.PrintIfPresent` | src/utils/pdfGenerator.ts:92-95 | a non-empty field adds one line 7 units lower; an empty one adds nothing; the lines still show exactly the printed fields |
| `BillComposer.CustomerBlock` | src/utils/pdfGenerator.ts:87-107 | the block is "To:" and "Phone:" then the non-empty optional fields in order; line i sits at y = 83 + 7i; the table starts at 100 + 7 × (optional lines printed), so always between y = 100 and y = 121 |
| `BillComposer.InvoiceTable` | src/utils/pdfGenerator.ts:109-165 | the item rows come in cart order, then SUBTOTAL, SGST + CGST and GRAND TOTAL; a row is bold exactly when its index is at least the item count |
| `BillComposer.ComposeBill` | src/utils/pdfGenerator.ts:28-208 | the only error is a failed save, and it carries the fixed message; a failed logo only drops the logo; otherwise the invoice carries all of the above with sanitised customer and biller text |
| `ProductTypes.CategoryKeysComplete` | src/types/product.ts:34-84 | `CATEGORIES` has nine keys, every category among them, none repeated |
| `ProductTypes.KeyOccursOnce` | src/types/product.ts:34-84 | each category occurs exactly once among the keys |
| `ProductTypes.Categorize` | src/types/product.ts:87-102 | categorizeProduct: the if-chain of substring tests on the lower-cased name, `&&` binding tighter than `\|\|`, with Bulks as the final fallback |
| `ProductTypes.CategorizeFollowsRules` | src/types/product.ts:87-102 | the if-chain equals the ordered keyword rules applied to the lower-cased name with fallback Bulks |
| `ProductTypes.CategorizeIgnoresCase` | src/types/product.ts:88 | names that lower-case to the same text get the same category |
| `ProductTypes.CategorizeOfLowered` | src/types/product.ts:88 | lower-casing the name first changes nothing |
| `ProductTypes.BulkRule` | src/types/product.ts:90 | a name containing "bulk" (any case) is Bulks, whatever else it contains |
| `ProductTypes.CategorizeCupsBig` | src/types/product.ts:90 | "Cups (BIG)" is Bulks because it contains both "big" and "cup" |
| `ProductTypes.CategorizeKulfiBall` | src/types/product.ts:91-94 | "Kulfi Ball" is Kulfi: the kulfi rule comes before the ball rule |
| `ProductTypes.CategorizeBlackForestBall` | src/types/product.ts:94-96 | "black forest ball" is Balls: the ball rule comes before the black-forest rule |
| `ProductTypes.CategorizeJumboRefill` | src/types/product.ts:95 | "Jumbo Refill" is Jumbo Refill |
| `ProductTypes.CategorizeFallback` | src/types/product.ts:100-101 | a name containing no keyword falls back to Bulks |
| `ProductTypes.CategorizeChocofiest` | src/types/product.ts:100-107 | the catalogue's "Chocofiest" matches no rule and lands in Bulks |
| `ProductTypes.CategorizePunjabiKufi` | src/types/product.ts:100-112 | "Punjabi Kufi" (not "kulfi") matches no rule and lands in Bulks |
| `ProductTypes.TallyStep` | src/pages/Index.tsx:66-70 | one more product adds 1 to its category's count and leaves the other counts alone |
| `ProductTypes.TallySum` | src/pages/Index.tsx:65-71 | the counts add up to the number of products counted |
| `ProductTypes.Tally` | src/pages/Index.tsx:66-70 | the reduce loop produces the tally: the keys are exactly the categories that occur, each count is the number of occurrences, and the counts sum to the length |
| `ProductTypes.MatchesSearch` | src/pages/Index.tsx:58-61 | the search test: the lower-cased name, or the stored category's lower-cased name, includes the lower-cased term |
| `ProductTypes.EmptyTermMatches` | src/pages/Index.tsx:56 | the empty search term matches every product |
| `IndexPage.AssignCategories` | src/pages/Index.tsx:36-39 | each fetched product keeps its fields and gains `category = categorizeProduct(name)` |
| `IndexPage.AssignedCategoryIsComputed` | src/pages/Index.tsx:36-39 | after fetching, a product's effective category is the computed one |
| `IndexPage.SearchHits` | src/pages/Index.tsx:58-61 | the filter keeps products in order and keeps exactly the matching ones, each as often as it occurs |
| `IndexPage.FilteredProducts` | src/pages/Index.tsx:55-62 | filteredProducts: the whole list for an empty term, otherwise the search hits |
| `IndexPage.FilteredProductsSpec` | src/pages/Index.tsx:55-62 | an empty search shows all products; otherwise the shown products are an ordered sub-list containing exactly the products whose name or category includes the term, ignoring case |
| `IndexPage.CategoryCounts` | src/pages/Index.tsx:65-71 | the counts are the tally of the shown products' categories: a category has a count exactly when some shown product has it; the count is its number of products, and the counts sum to the number shown |
| `IndexPage.ViewState` | src/pages/Index.tsx:55-71 | the shown list is the filtered one and the counts are exactly the tally of its categories (categories without shown products are absent); their sum is the number shown, never more than the number of products |
| `Discount30Page.AssignCategories` | src/pages/Discount30.tsx:74-77 | each fetched discount product gains `category = categorizeProduct(product_name)` and is otherwise unchanged |
| `Discount30Page.CategoryCounts` | src/pages/Discount30.tsx:86-92 | counts are the tally of all the page's products' categories: keys are the categories that occur, values are occurrences, and the sum is the product count |
| `Discount30Page.SearchHits` | src/pages/Discount30.tsx:99-104 | the search filter keeps exactly the matching products, in order |
| `Discount30Page.InCategory` | src/pages/Discount30.tsx:107-112 | the category filter keeps exactly the products of that category, in order |
| `Discount30Page.FilteredProducts` | src/pages/Discount30.tsx:95-115 | filteredProducts: the search filter when a term is typed, then the category filter unless 'All' is selected |
| `Discount30Page.Shown` | src/pages/Discount30.tsx:95-115 | a product is listed when the term finds it (or no term is typed) and its stored-or-computed category is the selected one (or 'All' is selected) |
| `Discount30Page.FilteredProductsSpec` | src/pages/Discount30.tsx:95-115 | the shown list is an ordered sub-list that contains each product as often as the full list does when it passes both filters, and otherwise never; 'All' with an empty search shows everything |
| `Discount30Page.DiscountPercent` | src/pages/Discount30.tsx:383 | for any non-zero original price (negative ones included) the badge is within half a point of (original − discounted) / original × 100; it lies in 0..100 for a discounted price between 0 and the original, and is 0 when there is no discount |
| `Discount30Page.DiscountBadgeExample` | src/pages/Discount30.tsx:383 | 100 → 70 shows 30 % OFF |
| `Discount30Page.EmptyListMessage` | src/pages/Discount30.tsx:353-357 | "No products added yet" is shown exactly when the selection is 'All'; a single-category selection shows "No products found in <category name> category" |
| `Discount30Page.DiscountPage.constructor` | src/pages/Discount30.tsx:22-51 | the page starts with the fetched content (or `''`), not editing, not saving, not adding, with an empty form |
| `Discount30Page.DiscountPage.Edit` | src/pages/Discount30.tsx:117-120 | editing copies the content into the editor and turns editing on |
| `Discount30Page.DiscountPage.Type` | src/pages/Discount30.tsx:247 | typing replaces the edited text |
| `Discount30Page.DiscountPage.Save` | src/pages/Discount30.tsx:122-147 | a successful update publishes the edited text and leaves edit mode; a failed one keeps the old content and mode; saving is off afterwards either way |
| `Discount30Page.DiscountPage.Cancel` | src/pages/Discount30.tsx:149-152 | cancel leaves edit mode, clears the edited text and keeps the content |
| `Discount30Page.DiscountPage.SetAdding` | src/pages/Discount30.tsx:284 | the add button opens the product form, and the Cancel button at line 345 closes it |
| `Discount30Page.DiscountPage.FillForm` | src/pages/Discount30.tsx:317-335 | the inputs replace the form |
| `Discount30Page.DiscountPage.AddProduct` | src/pages/Discount30.tsx:154-191 | nothing is sent exactly when a field is empty; otherwise the insert is for page '30%' with the typed values; a successful insert clears and closes the form, and a refusal keeps it |
| `Discount30Page.EditThenCancel` | src/pages/Discount30.tsx:117-152 | edit followed by cancel leaves the published content as it was |
| `Discount30Page.EditTypeSave` | src/pages/Discount30.tsx:117-147 | edit, type, then a successful save publishes exactly the typed text |
| `CategorizedProducts.GroupOf` | src/components/CategorizedProducts.tsx:20-27 | the products of one category, by stored or computed category, in list order; never longer than the list |
| `CategorizedProducts.GroupOfOrdered` | src/components/CategorizedProducts.tsx:20-27 | a group is an ordered sub-list of the products |
| `CategorizedProducts.GroupOfCounts` | src/components/CategorizedProducts.tsx:20-27 | a group holds each product of its category as often as the list does, and no other product |
| `CategorizedProducts.Groups` | src/components/CategorizedProducts.tsx:20-27 | categorizedProducts: one entry per category that occurs, holding that category's group |
| `CategorizedProducts.GroupOfSpec` | src/components/CategorizedProducts.tsx:20-27 | a group is the ordered sub-list of the products of that category, each as often as in the input |
| `CategorizedProducts.GroupOfSnoc` | src/components/CategorizedProducts.tsx:22-25 | pushing a product appends it to its own category's group only |
| `CategorizedProducts.GroupSize` | src/components/CategorizedProducts.tsx:20-27 | a group's size is the number of products of that category |
| `CategorizedProducts.LookupGroups` | src/components/CategorizedProducts.tsx:30-32 | `categorizedProducts[c] \|\| []` is that category's group, and empty when it has none |
| `CategorizedProducts.GroupByCategory` | src/components/CategorizedProducts.tsx:20-27 | the reduce loop builds exactly the group map |
| `CategorizedProducts.GroupsStep` | src/components/CategorizedProducts.tsx:22-25 | one reduce step creates the group if missing and pushes the product onto it |
| `CategorizedProducts.GroupsPartition` | src/components/CategorizedProducts.tsx:20-27 | every product lies in the group of its own category and no other, and the group sizes add up to the product count |
| `CategorizedProducts.SectionList` | src/components/CategorizedProducts.tsx:36-45 | categoryOrder.map: a section per category in the given order, skipping categories whose group is empty |
| `CategorizedProducts.SectionListOrdered` | src/components/CategorizedProducts.tsx:36-45 | the sections' categories are an ordered sub-list of the category order |
| `CategorizedProducts.SectionListContents` | src/components/CategorizedProducts.tsx:36-63 | each section holds its category's whole, non-empty group, and every category with products gets a section |
| `CategorizedProducts.SectionListSpec` | src/components/CategorizedProducts.tsx:36-82 | the sections follow the category order, skip empty categories, and hold each category's whole group |
| `CategorizedProducts.SectionListTotal` | src/components/CategorizedProducts.tsx:43-63 | the section badges ("n items") add up to the counted products of the listed categories |
| `CategorizedProducts.HasUncategorized` | src/components/CategorizedProducts.tsx:84-87 | some group key is outside categoryOrder |
| `CategorizedProducts.NeverUncategorized` | src/components/CategorizedProducts.tsx:84-87 | every group key is in the category order, so the "Other Products" card never shows |
| `CategorizedProducts.DisplayProducts` | src/components/CategorizedProducts.tsx:30-32 | displayProducts: all products for 'All', otherwise `categorizedProducts[c] \|\| []` |
| `CategorizedProducts.Render` | src/components/CategorizedProducts.tsx:29-160 | 'All' renders the ordered sections; a category renders its group, or the "No products in" card when the group is empty |
| `CategorizedProducts.AllSectionsCoverProducts` | src/components/CategorizedProducts.tsx:36-82 | under 'All' every product appears in some section, and the sections hold exactly as many items as there are products |
| `CartPage.NameChar` | src/pages/Cart.tsx:24 | the characters `/^[a-zA-Z\s\-'.]+$/` admits: ASCII letters, whitespace, `-`, `'` and `.` |
| `CartPage.ValidName` | src/pages/Cart.tsx:20-24 | name rule: after trimming, 1 to 100 characters, each one a NameChar |
| `CartPage.ValidPhone` | src/pages/Cart.tsx:25-26 | phone rule: exactly ten ASCII digits, not trimmed |
| `CartPage.ValidOptional` | src/pages/Cart.tsx:27-41 | optional-field rule: the trimmed value is within the field's bound (the empty string always passes) |
| `CartPage.ParseCustomer` | src/pages/Cart.tsx:19-42 | the form passes exactly when the trimmed name is 1–100 allowed characters, the phone is 10 digits and the optional fields fit their bounds after trimming; the parsed data is the trimmed form |
| `CartPage.ParsedCustomerSpec` | src/pages/Cart.tsx:19-42 | parsed data has a non-empty trimmed name of allowed characters and a 10-digit phone, the optional fields fit within 500, 20 and 200 characters, and parsing it again returns it unchanged |
| `CartPage.NameIgnoresSurroundingSpace` | src/pages/Cart.tsx:20-24 | surrounding white space never decides whether a name is valid |
| `CartPage.PhoneExamples` | src/pages/Cart.tsx:25-26 | 10 digits pass; a leading space or 9 digits fail |
| `CartPage.NameExample` | src/pages/Cart.tsx:24 | letters, spaces, hyphens, apostrophes and periods are allowed |
| `CartPage.BlankNameRejected` | src/pages/Cart.tsx:20-22 | a name of only spaces is rejected |
| `CartPage.QuantityChange` | src/pages/Cart.tsx:69-73 | the cart is updated exactly when the new quantity is at least 1 |
| `CartPage.QuantityFromInput` | src/pages/Cart.tsx:195 | `parseInt(value) \|\| 1`: NaN and 0 read as 1, any other number as itself |
| `CartPage.QuantityNeverBelowOne` | src/pages/Cart.tsx:187-202 | no click or input sets a quantity below 1; minus at 1 does nothing; non-numeric input sets 1 |
| `CartPage.RowAmount` | src/pages/Cart.tsx:210 | a row's amount (price × quantity) is at least the price |
| `CartPage.RowAmountOnBill` | src/pages/Cart.tsx:209-210 | the cart shows the same rate and amount as the bill's RATE and AMOUNT cells |
| `CartPage.BeforeAt` | src/pages/Cart.tsx:96 | `split('@')[0]`: the longest prefix without `@` |
| `CartPage.BillerName` | src/pages/Cart.tsx:96 | the biller name is the e-mail's local part, or 'Staff' when there is no e-mail or the local part is empty; it is never empty |
| `CartPage.BillerEmail` | src/pages/Cart.tsx:97 | the biller e-mail is the user's e-mail, or `''` |
| `CartPage.BillerFromEmail` | src/pages/Cart.tsx:96 | "ravi@shop.in" is billed by "ravi" |
| `CartPage.BillerFallback` | src/pages/Cart.tsx:95-98 | "@shop.in" and no user both give 'Staff'; no user gives an empty e-mail |
| `CartPage.GenerateBill` | src/pages/Cart.tsx:75-113 | an empty cart is refused first, then a missing name or phone; otherwise the bill is composed with the derived biller, and only a failed save fails, with the composer's message; a generated bill names the sanitised customer and phone, lists every cart item as its item row in cart order, then the three summary rows, and carries the rounded total |
| `CartPage.SubmitCustomerForm` | src/pages/Cart.tsx:58-92 | an invalid form never reaches the handler, the "Missing information" branch is unreachable from the form, and a valid form with items and a working save produces a bill |
| `OwnerPanel.HttpUrl` | src/pages/OwnerPanel.tsx:26-28 | the refine: starts with `http://` or `https://` |
| `OwnerPanel.IconAccepted` | src/pages/OwnerPanel.tsx:23-30 | a non-empty icon_url passes when its trimmed form is a URL (the `.url()` parameter) and starts with http:// or https:// |
| `OwnerPanel.ValidateProduct` | src/pages/OwnerPanel.tsx:76-92 | a product passes exactly when the trimmed name has 1–100 characters, the price parses to a number in (0, 100000], and the icon is empty or a trimmed http(s) URL; the saved row has the trimmed name, that price, a null icon for `''`, and is active |
| `OwnerPanel.SavedRowSpec` | src/pages/OwnerPanel.tsx:15-31 | every saved row has a trimmed non-empty name of at most 100 characters, a price in (0, 100000], no icon or a non-empty http(s) one, and is active |
| `OwnerPanel.IconExamples` | src/pages/OwnerPanel.tsx:81-92 | an empty icon field is stored as null; a blank but non-empty one is rejected |
| `OwnerPanel.SaveFor` | src/pages/OwnerPanel.tsx:95-116 | the save updates the edited product's id when one is being edited, and inserts otherwise |
| `OwnerPanel.ToggleActive` | src/pages/OwnerPanel.tsx:188-192 | the toggle targets the product's id and sends the negation of its status |
| `OwnerPanel.ToggleTwice` | src/pages/OwnerPanel.tsx:192 | toggling twice restores the status |
| `OwnerPanel.ProductDialog.constructor` | src/pages/OwnerPanel.tsx:44-46 | the dialog starts closed, with an empty form and no product being edited |
| `OwnerPanel.ProductDialog.OpenForAdd` | src/pages/OwnerPanel.tsx:222 | Add Product forgets the edited product, clears the form and opens the dialog |
| `OwnerPanel.ProductDialog.Edit` | src/pages/OwnerPanel.tsx:151-159 | edit remembers the product, fills the form with its name, price text and icon (`''` for null), and opens the dialog |
| `OwnerPanel.ProductDialog.Type` | src/pages/OwnerPanel.tsx:237-257 | the inputs replace the form |
| `OwnerPanel.ProductDialog.SetOpen` | src/pages/OwnerPanel.tsx:220 | opening or closing the dialog changes nothing else |
| `OwnerPanel.ProductDialog.Submit` | src/pages/OwnerPanel.tsx:76-149 | an invalid form reports the first schema error and changes nothing; a valid one sends an update or an insert; success closes the dialog, clears the form and forgets the product, and a refusal changes nothing |
| `OwnerPanel.EditAndResave` | src/pages/OwnerPanel.tsx:76-159 | editing a valid product and saving it at once sends an update of that product, active (reactivated if it was not), at the same price, with its icon kept as the trimmed URL (or none when it had none or an empty one) |
| `ProductCard.FirstColor` | src/components/ProductCard.tsx:21-42 | the colour of the first palette key, in declaration order, that the lower-cased name includes; otherwise the fallback |
| `ProductCard.FirstColorIsFirstKey` | src/components/ProductCard.tsx:36-40 | the colour of the first key found in the name wins, whatever later keys occur |
| `ProductCard.FirstColorFallback` | src/components/ProductCard.tsx:41 | with no key in the name the colour is the fallback |
| `ProductCard.FirstColorInPalette` | src/components/ProductCard.tsx:21-42 | the colour is the fallback or the colour of a key that occurs in the name |
| `ProductCard.GetColorFromName` | src/components/ProductCard.tsx:21-42 | the early-return loop over the palette, applied to the lower-cased name, returns the first-key colour |
| `ProductCard.ColorIgnoresCase` | src/components/ProductCard.tsx:35 | lower-casing the name first changes nothing |
| `ProductCard.ChocolateBeforeMango` | src/components/ProductCard.tsx:22-40 | "chocolate mango" contains both keys and is chocolate brown, because chocolate is declared first |
| `ProductCard.KesarKulfiIsPink` | src/components/ProductCard.tsx:41 | a name with no key gets `#FF6B9D` |
| `ProductCard.QuantityPicker.constructor` | src/components/ProductCard.tsx:45 | the quantity starts at 1 |
| `ProductCard.QuantityPicker.Change` | src/components/ProductCard.tsx:49-53 | a new quantity of at least 1 is taken, anything else ignored; the quantity stays at least 1 |
| `ProductCard.QuantityPicker.Plus` | src/components/ProductCard.tsx:115 | plus adds one |
| `ProductCard.QuantityPicker.Minus` | src/components/ProductCard.tsx:97-98 | minus subtracts one, except at 1 where nothing changes |
| `ProductCard.QuantityPicker.Input` | src/components/ProductCard.tsx:107 | a non-number or 0 in the field sets 1; a positive number is taken; a negative one is ignored |
| `ProductCard.QuantityPicker.AddToCart` | src/components/ProductCard.tsx:55-62 | the current quantity (at least 1) goes to the cart, then the quantity resets to 1 |
| `ProductCard.PlusThenAdd` | src/components/ProductCard.tsx:45-62 | on a fresh card, minus does nothing and plus then add sends 2 |
| `CategoryNavigation.OnlyEach` | src/components/CategoryNavigation.tsx:23 | the category entries are the keys, one each, in key order |
| `CategoryNavigation.AllCategories` | src/components/CategoryNavigation.tsx:23 | allCategories: 'All' followed by the keys of CATEGORIES |
| `CategoryNavigation.AllCategoriesListsEachOnce` | src/components/CategoryNavigation.tsx:23 | there are ten entries, 'All' first then the nine categories in declaration order, and every selection is listed exactly once |
| `CategoryNavigation.EntryCount` | src/components/CategoryNavigation.tsx:33-35 | the badge: for 'All' the sum of all counts, otherwise the category's count or 0 |
| `CategoryNavigation.EntryLabel` | src/components/CategoryNavigation.tsx:56-231 | 'All' is labelled "All" exactly in the default tabs and "All Products" in the other variants; a category is labelled by its name |
| `CategoryNavigation.Entries` | src/components/CategoryNavigation.tsx:207-242 | one entry per category in allCategories order |
| `CategoryNavigation.EntriesSpec` | src/components/CategoryNavigation.tsx:207-211 | exactly one entry is selected, and the 'All' badge is the sum of the nine category badges |
| `CategoryNavigation.CategoryBadgeAtMostAll` | src/components/CategoryNavigation.tsx:33-35 | no category badge exceeds the 'All' badge |
| `CategoryNavigation.BadgesOfTally` | src/components/CategoryNavigation.tsx:33-35 | with counts from a product list, 'All' shows the list's length and each category its number of occurrences |
| `CategoryNavigation.DefaultCountsAreZero` | src/components/CategoryNavigation.tsx:19-35 | with the default `{}` every badge is 0 |
| `CategoryNavigation.CategoryNameInjective` | src/types/product.ts:1-10 | different categories have different names |
| `CategoryNavigation.LabelsDistinct` | src/components/CategoryNavigation.tsx:38-56 | the entries' labels (and React keys) are pairwise distinct in every variant |

## Left out

- jsPDF and autoTable rendering is left out: fonts, colours, column widths, the
  company header, the watermark, the totals box, the signature block and the
  `lastAutoTable.finalY` placement. These are library drawing calls. The model
  keeps the text and the y positions of the customer block and the table
  start.
- `Date.now()` and `toLocaleDateString('en-IN')` are parameters (`timestamp`,
  `billDate`). The `en-IN` grouping in `toLocaleString` for the boxed total is
  not modelled.
- Formatting numbers as text (`${price}`, `toFixed(2)`) is left out; cells hold
  the number and its intended format (`Plain`, `Fixed2`).
- IEEE-754 rounding is not modelled. Money is an exact rational, so
  `subtotal * 0.025` has no binary rounding error.
- Discount30Page.DiscountPage.AddProduct: the insert carries the typed price
  texts; the `parseFloat` conversion is a library call and is not modelled.
- Discount30Page.DiscountPercent: requires a non-zero original price. The
  source divides by it unguarded, and a zero price would show NaN or Infinity.
  Negative prices, which the number inputs accept, are modelled.
- OwnerPanel.ValidateProduct:
  - zod's `.url()` check is the parameter `urlParses`;
  - `parseFloat` is the parameter `parsedPrice`;
  - only the first error's kind is modelled, not zod's message text.
- `OwnerPanel.ProductDialog.Edit` takes `product.price.toString()` as the
  parameter `priceText`.
- The product list and `handleDelete` are left out: Supabase reads, deletes
  and refetches, and the `confirm()` dialog, are I/O. A write's outcome is a
  boolean parameter.
- Toasts, `console` output, loading spinners and `userRole` gating of the
  owner buttons are left out as presentation only.
- The cart itself (CartContext: add, update, remove, clear, total) is not part
  of this model. The cart page's actions are modelled as the update they
  request.
- Unicode is not modelled. `toLowerCase` and `trim` work on ASCII, and lengths
  count characters rather than UTF-16 units.
- The "Other Products" card's contents are not modelled.
  `CategorizedProducts.NeverUncategorized` proves the card is never shown.
- The dropdown option text `label (count)` and the category icons and
  descriptions are left out. They are display strings from `CATEGORIES` and
  carry no logic.
