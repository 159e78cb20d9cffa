# HBG Optic demo — a verified model of the store and its pages

This project models the bookkeeping core of a single-user optician's
point-of-sale demonstration:
- the store that holds the customers, products and sales (`App.tsx`);
- the pages that read and change that store: point of sale, orders and
  payments, invoices, goods receipts, customers, stock, team, suppliers,
  appointments and the dashboard (`pages/*.tsx`);
- the demonstration data the store starts from (`lib/mockData.ts`).

Each page's logic is modelled in its own Dafny module with the same name.
Shared pieces live in four modules:
- `Wrappers`: `Option` and `Result`.
- `Text`: the JavaScript string operations the pages use, such as
  `toLowerCase`, `includes`, `padStart`, `split`, `replace` and `<=` on
  strings.
- `Seqs`: the array operations the pages use on their keyed lists: `filter`,
  `find`, `map` with an id test, `reduce` sums and deletion by index.
- `Domain`: the records of `types.ts`.

How the model is built:
- Pure computations become functions, with their properties stated as
  `ensures` clauses or as lemmas.
- A React state cell that a page replaces through `setX(prev => …)` becomes
  a class with a `seq` field. Its methods' `ensures` tie the new state to
  those functions. Examples: the store, the cart, the receipt form, and the
  lists of products, staff, suppliers and appointments.
- Money is `real` and quantities are `int`.
- Random ids, the clock, `JSON.parse`, `Date` parsing and `window.confirm`
  are parameters.

Where the design description and the code disagree, the model follows the
code:
- A sale whose payments reach its total is 'Payé' even when the total is 0.
  With a zero total and no payment, the progress bar's value is `None`,
  because JavaScript computes NaN there; a negative amount over a zero total
  (−Infinity in JavaScript) is also `None`.
- `product?.brand || 'Inconnu'` also falls back on an empty brand, and the
  same holds for the model and the price.
- Customers, products and staff are added at the front of their list.
  Suppliers and appointments are added at the end.
- The invoice prints the rest as the total less the payments, without
  clamping, so an overpaid invoice shows a negative rest. The order page
  clamps its remaining amount at 0.
- The sale id counts the sales still in the list. After a deletion it can
  repeat an id that is still present (`App.SaleIdAfterDeletion`).
- Deleting a customer keeps that customer's sales.

## Model

| member | source | states |
|---|---|---|
| Text.Lower | pages/Clients.tsx:79 | lower-casing keeps the length and maps each character by the letter case folding |
| Text.ContainsIffOccurs | pages/Clients.tsx:79 | `includes` holds exactly when the term occurs at some position |
| Text.ContainsAppend | pages/Deliveries.tsx:162-163 | a term found in a part of a text is found in the whole |
| Text.ContainsEmpty | pages/Clients.tsx:78-81 | every text includes the empty term |
| Text.NatToDecimal | App.tsx:97 | `toString` of a count gives decimal digits with no leading zero |
| Text.DecimalRoundTrip | App.tsx:97 | reading back the printed digits gives the number |
| Text.PadStart | App.tsx:97 | `padStart` reaches the width with the fill character in front and keeps the text at its end |
| Text.PadStartValue | App.tsx:97 | padding with '0' keeps the decimal value |
| Text.PaddedDecimal | App.tsx:97 | a padded counter is all digits, has at least the width, reads back as the number and has no leading zero beyond the width |
| Text.PaddedDecimalInjective | App.tsx:97 | different numbers give different padded counters |
| Text.LexLeTransitive | pages/Dashboard.tsx:50 | string `<=` is transitive |
| Text.LexLeTotal | pages/Dashboard.tsx:50 | any two strings compare one way or the other |
| Text.LexLeAntisymmetric | pages/Dashboard.tsx:50 | strings `<=` both ways are equal |
| Text.BeforeFirst | pages/Dashboard.tsx:49 | `split('T')[0]` is the prefix before the first 'T', or all of the text |
| Text.RemoveAll | pages/Deliveries.tsx:154 | `replace(/-/g, '')` leaves no '-', keeps every other character that occurs, never lengthens the text, and leaves a text without '-' unchanged |
| Text.RemoveAllAppend | pages/Deliveries.tsx:154 | deleting the '-' characters distributes over concatenation, so the other characters keep their order and number |
| Text.BeforeFirstAppend | pages/Deliveries.tsx:154 | `split('T')[0]` of a 'T'-free text followed by 'T' and anything is that text |
| Text.ReplaceChar | pages/Invoices.tsx:195 | `replace(/\//g, '-')` changes every '/' and nothing else |
| Text.UnderscoreWhitespace | pages/Invoices.tsx:196 | `replace(/\s+/g, '_')` leaves no whitespace and never lengthens the text |
| Text.UnderscoreWhitespaceRun | pages/Invoices.tsx:196 | each maximal whitespace run becomes exactly one '_', with the text before it kept and the text after it treated the same way |
| Text.UnderscoreWhitespaceIdentity | pages/Invoices.tsx:196 | a text without whitespace is left unchanged |
| Seqs.Filter | pages/Clients.tsx:78-81 | `filter` keeps, in order, exactly the elements the test accepts, each with all its copies |
| Seqs.FilterKeepsAll | pages/Orders.tsx:49-61 | a filter that accepts every element returns the list itself |
| Seqs.FilterNarrower | pages/Inventory.tsx:24-29 | a narrower test lists a subsequence of what a wider test lists |
| Seqs.FilterKeepsNone | pages/Dashboard.tsx:47-52 | a filter that accepts nothing returns the empty list |
| Seqs.RemoveKey | App.tsx:108 | deleting by id keeps, in order, exactly the elements with another id |
| Seqs.RemoveKeyLength | App.tsx:108 | deleting by id removes as many elements as carry the id |
| Seqs.RemovedKeyNotFound | App.tsx:108 | after deleting an id, looking it up finds nothing |
| Seqs.SelectKey | pages/Clients.tsx:125 | selecting by id keeps, in order, exactly the elements with that id, one per occurrence |
| Seqs.MapKey | App.tsx:108 | mapping with an id test changes only the elements carrying the id, in place |
| Seqs.RemoveAt | pages/Deliveries.tsx:197 | deleting index `i` shifts the later elements down by one and leaves out-of-range indices without effect |
| Seqs.FindKey | App.tsx:89 | `find` returns nothing exactly when no element has the id, and otherwise the first one that has it |
| Seqs.FindKeyAppend | pages/Suppliers.tsx:51 | after an append, a lookup finds the earlier element with the id if there is one, and otherwise the new element |
| Seqs.SumOfAppend | pages/Orders.tsx:31 | the sum over a concatenation is the sum over its parts |
| Seqs.SumOfUpdate | pages/Deliveries.tsx:200-202 | replacing one element changes the sum by that element's difference |
| Seqs.SumOfRemoveAt | pages/Deliveries.tsx:200-202 | deleting one element takes its term off the sum |
| Seqs.SumOfPointwise | App.tsx:88-96 | lists with equal terms position by position have equal sums |
| Seqs.SumOfPermutation | pages/Clients.tsx:126-128 | reordering a list does not change its sum |
| Seqs.SumOfNonNegative | pages/Dashboard.tsx:61 | non-negative terms give a non-negative sum |
| Seqs.SumOfSubsequence | pages/Dashboard.tsx:61 | with non-negative terms, dropping elements cannot raise the sum |
| App.LoadFromStorage | App.tsx:17-27 | each stored value is used only when the entry exists, parses, and has the key; otherwise the default is used |
| App.LoadedValueIsStored | App.tsx:17-27 | a value other than the default is the parsed entry's value for that key |
| App.HexDigitValue | App.tsx:32-34 | a hex digit's value is below 16 |
| App.HexByte | App.tsx:32-34 | `parseInt(xx, 16)` of two hex digits is below 256 |
| App.HexToRgb | App.tsx:29-36 | every component is below 256, and a text that is not a six-digit hex colour gives rgb(249, 115, 22) |
| App.RgbToHex | App.tsx:29-36 | formatting a colour gives '#' and six hex digits that the pattern accepts |
| App.HexRoundTrip | App.tsx:29-36 | parsing a formatted colour gives the colour back |
| App.HexRoundTripText | App.tsx:30-35 | formatting a parsed colour gives back its digits, lower-cased, after '#' |
| App.HexToRgbIgnoresCase | App.tsx:30 | the pattern ignores case, so lower-casing does not change the colour |
| App.HashIsOptional | App.tsx:30 | the leading '#' is optional |
| App.ShortFormFallsBack | App.tsx:30 | the three-digit short form is not accepted |
| App.DefaultThemeColor | App.tsx:52 | the default primary colour parses to the fallback colour |
| App.SaleId | App.tsx:97 | the id is 'C' and at least four digits whose value is the count plus one, with no leading zero beyond four |
| App.SaleIdInjective | App.tsx:97 | different sale counts give different ids |
| App.SaleIdAfterDeletion | App.tsx:97 | with one sale left, the next id is C0002, which a remaining sale may already carry |
| App.SnapshotItem | App.tsx:88-96 | a line keeps the cart quantity; it uses the first product with the id, or 'Inconnu'/'Produit'/0 when there is none |
| App.SnapshotItems | App.tsx:88-96 | one snapshot line per cart line, in cart order |
| App.Enrich | App.tsx:98 | the stored sale carries the new id and the snapshot |
| App.EnrichKeepsData | App.tsx:98 | everything else in the stored sale is the data the sales page handed over |
| App.ReplaceSale | App.tsx:108 | the update replaces, in place, exactly the sales with the same id |
| App.ReplaceSaleFound | App.tsx:108 | after an update, looking up the id finds the new sale if the id was present |
| App.DeleteSaleFrom | App.tsx:108 | the delete keeps, in order, exactly the sales with another id, one fewer per occurrence |
| App.DeletedSaleNotFound | App.tsx:108 | after a delete, no sale has the id |
| App.Database.constructor | App.tsx:41-43 | the store starts from the three lists it is given |
| App.Database.CompleteSale | App.tsx:87-101 | the new sale is numbered after the current count and snapshotted from the current products, then put first; customers and products are unchanged |
| App.Database.UpdateSale | App.tsx:108 | the sales become the replaced list; nothing else changes |
| App.Database.DeleteSale | App.tsx:108 | the sales become the list without the id; nothing else changes |
| App.Database.DeleteCustomer | pages/Clients.tsx:102-106 | a confirmed delete removes every customer with the id, and afterwards no customer has it; without confirmation nothing changes; sales are untouched |
| App.Database.EditCustomer | pages/Clients.tsx:110-111 | the form is merged onto the customers with the id being edited; nothing else changes |
| App.Database.AddCustomer | pages/Clients.tsx:112-118 | the new customer is put first and its id finds it; sales and products are untouched |
| Orders.TotalPaid | pages/Orders.tsx:31 | the amount paid is 0 without payments and never negative when no payment is negative |
| Orders.Progress | pages/Orders.tsx:33 | progress is at most 100, at least 0 for a non-negative amount, exactly 100 once the total is reached; with a zero total it is 100 for a positive amount (Infinity clamped) and `None` otherwise (NaN or −Infinity) |
| Orders.StatusOf | pages/Orders.tsx:35-37 | 'Payé' exactly when the amount paid reaches the total, 'Avance' exactly when it is positive and below it, 'Non payé' otherwise |
| Orders.PaymentCalculations | pages/Orders.tsx:30-40 | the amount paid is the sum of the payments; the remaining amount is the unpaid part clamped at 0, and is 0 exactly when the status is 'Payé' |
| Orders.ZeroTotalIsPaid | pages/Orders.tsx:30-40 | example: a zero-total sale without payments is 'Payé', with nothing remaining and no progress value |
| Orders.AddPayment | pages/Orders.tsx:63-82 | the payment goes at the end; the earlier payments and every other field are kept |
| Orders.AddPaymentTotalPaid | pages/Orders.tsx:74-77 | a payment raises the amount paid by exactly its amount |
| Orders.PaidStaysPaid | pages/Orders.tsx:36 | a paid sale stays paid after a non-negative payment |
| Orders.AddPaymentsSum | pages/Orders.tsx:74-77 | any sequence of payments is appended in order and raises the amount paid by its sum |
| Orders.PaymentOrderIrrelevant | pages/Orders.tsx:31 | the same payments entered in any order give the same figures and status |
| Orders.TwoInstalments | pages/Orders.tsx:30-40 | example: 100 then 50 on a total of 150 leaves the sale paid with nothing remaining |
| Orders.WithStatus | pages/Orders.tsx:307 | the status edit sets the status and keeps every other field |
| Orders.WithStatusKeepsPayments | pages/Orders.tsx:307 | changing the status leaves the payment figures unchanged |
| Orders.FilteredOrders | pages/Orders.tsx:49-61 | the list keeps, in order, the sales whose id, client name or seller name contains the term and whose status is the chosen one, each with every copy it has in the input |
| Orders.UnfilteredOrders | pages/Orders.tsx:49-61 | with no term and 'Tous', every sale is listed in order |
| Sales.TotalTTC | pages/Sales.tsx:60 | the total is never negative; it is the subtotal less the discount or 0, and 0 exactly when the discount covers the subtotal |
| Sales.AddedToCart | pages/Sales.tsx:64-68 | a product already in the cart gets one more unit on its line; otherwise one unit goes on a new line at the end |
| Sales.AddedToCartSubTotal | pages/Sales.tsx:59-68 | adding raises the subtotal by exactly one unit price |
| Sales.AddedToCartDistinct | pages/Sales.tsx:65-67 | the cart never holds two lines for one product |
| Sales.RemovedFromCart | pages/Sales.tsx:248 | the bin button keeps, in order, exactly the lines of other products, removing as many lines as carry the product's id |
| Sales.RemovedFromCartSubTotal | pages/Sales.tsx:248 | removing a product takes exactly its line total off the subtotal |
| Sales.Cart.constructor | pages/Sales.tsx:38 | the cart starts empty |
| Sales.Cart.Add | pages/Sales.tsx:62-69 | an out-of-stock product is refused with the cart unchanged; otherwise the cart becomes the added-to cart; lines stay distinct |
| Sales.Cart.Remove | pages/Sales.tsx:248 | the cart becomes the cart without that product; lines stay distinct |
| Sales.CatalogueOf | pages/Sales.tsx:113 | the catalogue keeps, in order, the products of the chosen category, or all with 'Toutes', each with every copy it has in the input |
| Sales.BuildPrescription | pages/Sales.tsx:76-87 | the distance pair is present exactly unless the vision type is 'Près', the near pair exactly unless it is 'Loin'; the other fields are copied |
| Sales.PrescriptionHasAPair | pages/Sales.tsx:76-87 | every prescription has at least one pair, and 'Séparé' has both |
| Sales.InitialPayments | pages/Sales.tsx:89-94 | one payment of the advance exactly when the advance is positive |
| Sales.InitialPaymentsPaid | pages/Sales.tsx:89-94 | the new sale starts with the positive part of the advance paid |
| Sales.CartRefs | pages/Sales.tsx:110 | one product id and quantity per cart line, in cart order |
| Sales.FinishSale | pages/Sales.tsx:71-111 | refused for a missing client, then a missing seller, then an empty cart, in that order; otherwise the sale data carries the total, discount, payments, prescription, status 'En attente' and 20 % tax |
| Sales.SubTotal | pages/Sales.tsx:59 | the subtotal of an empty cart is 0 |
| Sales.SubTotalNonNegative | pages/Sales.tsx:59 | lines with non-negative prices and quantities give a non-negative subtotal |
| Sales.SnapshotMatchesCart | pages/Sales.tsx:59 | when the catalogue still holds the cart's products, the stored snapshot's total equals the cart subtotal |
| Invoices.Figures | pages/Invoices.tsx:69-73 | the rest plus the amount paid is the total, and "Net HT" less the discount is the total |
| Invoices.RemainingIsClampedRest | pages/Invoices.tsx:73 | the order page's remaining amount is the invoice's rest clamped at 0; the rest is negative exactly for an overpayment |
| Invoices.OverpaymentShowsNegativeRest | pages/Invoices.tsx:73 | example: a total of 100 paid 150 prints a rest of -50 while the order page shows 0 |
| Invoices.NetHTIsSubTotal | pages/Invoices.tsx:112 | for a sale recorded from the sales page with a discount no larger than the cart subtotal, the invoice's "Net HT" is that subtotal |
| Invoices.NetHTAfterExcessDiscount | pages/Invoices.tsx:112 | for a sale recorded from the sales page with a discount above the cart subtotal, the invoice's "Net HT" is the discount |
| Invoices.ListBalance | pages/Invoices.tsx:252-269 | 'Payé' exactly when nothing is left to pay; otherwise the positive rest |
| Invoices.ListBalanceAgreesWithOrders | pages/Invoices.tsx:269 | the list says 'Payé' exactly when the order page's status is 'Payé', and otherwise shows the same remaining amount |
| Invoices.FilteredInvoices | pages/Invoices.tsx:212-216 | the list keeps, in order, the sales whose id or client name contains the term, each with every copy it has in the input |
| Invoices.EmptySearchListsAll | pages/Invoices.tsx:212-216 | an empty search lists every sale |
| Invoices.InvoiceMatchesAreOrderMatches | pages/Invoices.tsx:215 | every invoice match is an order-page match under 'Tous' |
| Invoices.PrintFileName | pages/Invoices.tsx:193-196 | a title is set exactly when the client is known; it is `last_first_date`, with '/' in the date made '-' and each whitespace run made one '_', and it contains no whitespace |
| Invoices.PlainFileName | pages/Invoices.tsx:196 | names and date without whitespace give `last_first_date` with '/' turned into '-' |
| Invoices.ShowsDiscountLine | pages/Invoices.tsx:114 | the "Remise" line is printed only for a positive discount |
| Invoices.ShowsDistanceTable | pages/Invoices.tsx:137-139 | "Vision de Loin" is printed unless the vision type is 'Près', also without a prescription |
| Invoices.ShowsNearTable | pages/Invoices.tsx:140-142 | "Vision de Près" is printed unless the vision type is 'Loin', also without a prescription |
| Invoices.TablesMatchPrescription | pages/Invoices.tsx:137-142 | for a prescription from the sales page, each table is printed exactly when its measurements are present, and at least one is printed |
| Deliveries.RefCounter | pages/Deliveries.tsx:155 | the counter is at least five digits, reads back as the count plus one, and has no leading zero beyond the fifth digit |
| Deliveries.CompactDate | pages/Deliveries.tsx:154 | the date part has no 'T' and no '-' and is no longer than the timestamp; its value on ISO timestamps is given by CompactDateOfIso |
| Deliveries.CompactDateOfIso | pages/Deliveries.tsx:154 | a timestamp `y-m-d` followed by 'T' and a time gives `ymd` |
| Deliveries.Reference | pages/Deliveries.tsx:155 | the reference is "FF-", the counter, '-' and the date, each at its place |
| Deliveries.AutoReference | pages/Deliveries.tsx:152-155 | the suggestion is "FF-", digits reading back as the receipt count plus one (at least five, no extra leading zero), '-' and the compact date |
| Deliveries.AutoReferenceInjective | pages/Deliveries.tsx:155 | different receipt counts suggest different references on the same day |
| Deliveries.EditedItems | pages/Deliveries.tsx:177-194 | a known product fills in id, brand, model and purchase price and keeps the quantity; an unknown one changes nothing; quantity and price edits set that field only; other lines are untouched |
| Deliveries.TotalAmount | pages/Deliveries.tsx:200-202 | the receipt total is 0 without lines and never negative for lines with non-negative quantities and prices |
| Deliveries.AddItemTotal | pages/Deliveries.tsx:166-175 | a blank line does not change the total |
| Deliveries.EditItemTotal | pages/Deliveries.tsx:200-202 | an edit changes the total by that line's change |
| Deliveries.RemoveItemTotal | pages/Deliveries.tsx:196-202 | removing a line takes its amount off the total |
| Deliveries.Submission | pages/Deliveries.tsx:204-220 | `handleSubmit` refuses exactly a receipt without a supplier or without lines; otherwise the receipt carries the form, the sum of the lines and the creation time |
| Deliveries.ReceiptForm.constructor | pages/Deliveries.tsx:141-149 | the page opens on the list with an empty form dated today |
| Deliveries.ReceiptForm.Open | pages/Deliveries.tsx:348 | the create view opens with the form kept |
| Deliveries.ReceiptForm.Close | pages/Deliveries.tsx:245 | the list view returns with the form kept |
| Deliveries.ReceiptForm.SetSupplier | pages/Deliveries.tsx:274 | only the supplier changes |
| Deliveries.ReceiptForm.SetInvoiceNumber | pages/Deliveries.tsx:281 | only the reference changes |
| Deliveries.ReceiptForm.SetDate | pages/Deliveries.tsx:285 | only the date changes |
| Deliveries.ReceiptForm.SuggestReference | pages/Deliveries.tsx:151-158 | a reference is suggested only in the create view and only while the reference is empty |
| Deliveries.ReceiptForm.AddItem | pages/Deliveries.tsx:166-175 | one blank line is appended |
| Deliveries.ReceiptForm.UpdateItem | pages/Deliveries.tsx:177-194 | the lines become the edited lines; the copy-and-assign is proved equal to that function |
| Deliveries.ReceiptForm.RemoveItem | pages/Deliveries.tsx:196-198 | the lines lose that index |
| Deliveries.ReceiptForm.Submit | pages/Deliveries.tsx:204-233 | returns the submission; on success the page goes back to the list with a cleared form, on refusal nothing changes |
| Deliveries.FilteredDeliveries | pages/Deliveries.tsx:160-164 | the list keeps, in order, the receipts whose "reference supplier" text contains the term, each with every copy it has in the input |
| Deliveries.MatchOnReferenceOrName | pages/Deliveries.tsx:162-163 | a term found in the reference or in the supplier's name finds the receipt |
| Clients.FilteredClients | pages/Clients.tsx:78-81 | the list keeps, in order, the customers whose full name, case-insensitively, or phone contains the term, each with every copy it has in the input |
| Clients.EmptySearchListsAll | pages/Clients.tsx:78-81 | an empty search lists every customer |
| Clients.MergeCustomer | pages/Clients.tsx:111 | every field the form holds replaces the record's; the others are kept |
| Clients.MergeCustomerLaws | pages/Clients.tsx:91-95 | submitting a form loaded from a record gives that record, except that the customer's notes and photo stay when the record has none; an empty form keeps the customer; merging twice equals merging once |
| Clients.NewCustomer | pages/Clients.tsx:113-117 | the new customer carries the form's fields, the fresh id and the creation time, with no photo |
| Clients.EditedCustomers | pages/Clients.tsx:111 | the edit merges onto the customers with the id, in place, and leaves the rest |
| Clients.AddedCustomerFound | pages/Clients.tsx:118 | after an add, the new id finds the new customer and every other id finds what it found before |
| Clients.Insert | pages/Clients.tsx:126 | inserting adds exactly the one sale to the elements |
| Clients.InsertKeepsOrder | pages/Clients.tsx:126 | inserting into a newest-first list keeps it newest first |
| Clients.SortNewestFirst | pages/Clients.tsx:124-126 | the sorted sales are a permutation of the client's sales, newest first |
| Clients.ClientStatsOf | pages/Clients.tsx:123-134 | exactly the client's sales, newest first; the visit count is their number and the amount spent their total; the last visit is the first entry's date and the first visit the last entry's, both present exactly when there are sales, and they bound every sale's time |
| Inventory.FilteredProducts | pages/Inventory.tsx:24-29 | the list keeps, in order, the products whose "brand model reference" contains the term and that meet the tab's stock condition, each with every copy it has in the input |
| Inventory.TabsNested | pages/Inventory.tsx:26-28 | the alert and stock-out tabs share no product, and each lists a subsequence of the first tab |
| Inventory.NegativeQuantityInNoAlertTab | pages/Inventory.tsx:26-27 | a negative quantity appears on neither the alert nor the stock-out tab |
| Inventory.IsLow | pages/Inventory.tsx:114 | the red highlight test `quantity <= min_stock`, related to the tabs by HighlightCoversAlerts |
| Inventory.HighlightCoversAlerts | pages/Inventory.tsx:114 | the red highlight covers every alert and, for a non-negative minimum, every stock-out; beyond the alert tab it lights only quantities at or below 0 |
| Inventory.MergeProduct | pages/Inventory.tsx:55 | every field the form holds replaces the product's; the others are kept |
| Inventory.MergeProductLaws | pages/Inventory.tsx:40-44 | submitting the loaded form unchanged keeps the product; changing the quantity changes nothing else |
| Inventory.DefaultDraft | pages/Inventory.tsx:31-38 | the add form is an empty 'Vue' frame (MONTURE), quantity 0, minimum 5, with the first supplier or none |
| Inventory.NewProduct | pages/Inventory.tsx:57-60 | the new product carries the form's fields and the fresh id |
| Inventory.NewDefaultProductIsOut | pages/Inventory.tsx:31-38 | a product added from the untouched form is out of stock and highlighted |
| Inventory.Stock.constructor | pages/Inventory.tsx:7-9 | the stock holds the list it is given |
| Inventory.Stock.Delete | pages/Inventory.tsx:46-50 | a confirmed delete removes exactly the products with the id; without confirmation nothing changes |
| Inventory.Stock.Edit | pages/Inventory.tsx:55 | the form is merged onto the products with the id, in place; the others are kept |
| Inventory.Stock.Add | pages/Inventory.tsx:56-61 | the new product is put first and its id finds it |
| Team.FilteredStaff | pages/Team.tsx:50-55 | the list keeps, in order, the members whose full name or e-mail contains the term, case-insensitively, and whose role is the chosen one, each with every copy it has in the input |
| Team.RoleFilterNarrows | pages/Team.tsx:53 | with no term and 'Tous' the whole team is listed; a role lists a subsequence, all of that role |
| Team.MergeMember | pages/Team.tsx:87 | every field the form holds replaces the member's; the others are kept |
| Team.MergeMemberLaws | pages/Team.tsx:72-76 | submitting the loaded form unchanged keeps the member; deactivating changes only the status |
| Team.DefaultDraft | pages/Team.tsx:57-70 | the add form is an active 'Vendeur' with salary 0, hired on today's date part |
| Team.NewMember | pages/Team.tsx:89-92 | the new member carries the form's fields and the fresh id |
| Team.NewDefaultMemberIsSeller | pages/Team.tsx:59-68 | a member added from the untouched form is listed under 'Vendeur' |
| Team.Roster.constructor | pages/Team.tsx:20-23 | the roster holds the list it is given |
| Team.Roster.Delete | pages/Team.tsx:78-82 | a confirmed delete removes exactly the members with the id; without confirmation nothing changes |
| Team.Roster.Edit | pages/Team.tsx:87 | the form is merged onto the members with the id, in place; the others are kept |
| Team.Roster.Add | pages/Team.tsx:89-93 | the new member is put first and its id finds it |
| Suppliers.FilteredSuppliers | pages/Suppliers.tsx:21 | the list keeps, in order, the suppliers whose name contains the term, case-insensitively, each with every copy it has in the input |
| Suppliers.SearchByNameOnly | pages/Suppliers.tsx:21 | suppliers with the same name are listed or hidden together; an empty search lists all |
| Suppliers.MergeSupplier | pages/Suppliers.tsx:44 | every field the form holds replaces the supplier's; the others are kept |
| Suppliers.MergeSupplierLaws | pages/Suppliers.tsx:29-33 | submitting the loaded form unchanged keeps the supplier; renaming changes only the name |
| Suppliers.NewSupplier | pages/Suppliers.tsx:46-50 | the new supplier carries the form's fields, the fresh id and the creation time |
| Suppliers.Directory.constructor | pages/Suppliers.tsx:7-10 | the directory holds the list it is given |
| Suppliers.Directory.Delete | pages/Suppliers.tsx:35-39 | a confirmed delete removes exactly the suppliers with the id; without confirmation nothing changes |
| Suppliers.Directory.Edit | pages/Suppliers.tsx:44 | the form is merged onto the suppliers with the id, in place; the others are kept |
| Suppliers.Directory.Add | pages/Suppliers.tsx:46-51 | the new supplier goes last; its id finds it unless an earlier supplier has that id |
| Appointments.Hours | pages/Appointments.tsx:23 | eleven slots 8 to 18, ascending, exactly the hours from 8 to 18 |
| Appointments.Take | pages/Appointments.tsx:18 | `slice(0, n)` is the first n characters, or all of a shorter text |
| Appointments.DefaultForm | pages/Appointments.tsx:25-34 | the add form names the first customer (or ''), the current time to the minute, 'Planifié' and empty notes |
| Appointments.EditForm | pages/Appointments.tsx:36-43 | the edit form is the appointment with its date normalised to the minute |
| Appointments.MergeAppointment | pages/Appointments.tsx:54 | every field the form holds replaces the appointment's; the others are kept |
| Appointments.EditFormRoundTrip | pages/Appointments.tsx:36-43 | submitting the loaded form unchanged changes only the date, to its normalised form |
| Appointments.NewAppointment | pages/Appointments.tsx:56-60 | the new appointment carries the form, the fresh id and the employee 'current-user-id' |
| Appointments.NewDefaultAppointment | pages/Appointments.tsx:26-32 | from the untouched form: the first customer, 'Planifié', notes '' and the current user |
| Appointments.Agenda.constructor | pages/Appointments.tsx:7-11 | the agenda holds the list it is given |
| Appointments.Agenda.Delete | pages/Appointments.tsx:45-49 | a confirmed delete removes exactly the appointments with the id; without confirmation nothing changes |
| Appointments.Agenda.Edit | pages/Appointments.tsx:54 | the form is merged onto the appointments with the id, in place; the others are kept |
| Appointments.Agenda.Add | pages/Appointments.tsx:56-61 | the new appointment goes last; its id finds it unless an earlier one has that id |
| Dashboard.FilteredSales | pages/Dashboard.tsx:47-52 | the sales whose creation date lies between the bounds, inclusive, compared as text, kept in order, each with every copy it has in the input |
| Dashboard.FilteredCustomers | pages/Dashboard.tsx:54-59 | the customers created within the bounds by the same rule, kept in order, each with every copy it has in the input |
| Dashboard.TotalRevenue | pages/Dashboard.tsx:61 | the kept sales' totals added up, whatever their status; bounded by RevenueBounds and monotone in the range by WiderRange |
| Dashboard.RevenueBounds | pages/Dashboard.tsx:61 | with non-negative totals the revenue lies between 0 and the total over all sales |
| Dashboard.InvertedRangeIsEmpty | pages/Dashboard.tsx:50 | a start after the end keeps no sale and no customer, and the revenue is 0 |
| Dashboard.OneDayRange | pages/Dashboard.tsx:50 | a one-day range keeps exactly the records of that day |
| Dashboard.WiderRange | pages/Dashboard.tsx:47-61 | a wider range keeps every sale the narrower keeps, in order, and with non-negative totals its revenue is no smaller |
| MockData.FirstLaunch | App.tsx:43 | with nothing stored, the sales are the demonstration sales |
| MockData.MockPaymentStates | lib/mockData.ts:20-43 | sale s1 is paid; sale s2 is an advance with 120 remaining and progress 100/220 |
| MockData.MockStockAlerts | lib/mockData.ts:9-13 | only the Oakley frame is on the alert tab, and nothing is out of stock |
| MockData.MockOctoberSales | lib/mockData.ts:20-43 | from 2023-10-01 to 2023-10-31 the dashboard keeps both demonstration sales |
| MockData.MockOctoberRevenue | pages/Dashboard.tsx:61 | from 2023-10-01 to 2023-10-31 the revenue of the demonstration data is 370 |
| MockData.MockNextSaleId | App.tsx:97 | the first sale completed on the demonstration data gets C0003 |

## Left out

- Persistence: writing the store to `localStorage` on every change, and `JSON.stringify`, are effects and are not modelled. Loading is modelled; `JSON.parse` is a parameter.
- The theme effect that writes a `<style>` element into the page is not modelled. Only the colour parsing it uses is.
- Rendering, navigation between pages, modals and alerts are not modelled. The Settings page, the sidebar and the header are also left out.
- Printing is left out: the timers, `window.print`, and restoring the document title. The invoice's file name is modelled.
- The goods-receipt print title is left out, because it is the same kind of text replacement as the invoice's.
- Receipt deletion and storage are left out, because they are handled by a parent component that `App.tsx` does not contain.
- The monthly revenue chart and the appointment-per-hour grouping are left out, because they depend on `Date` calendar arithmetic and time zones.
- Random ids (`Math.random().toString(36)`) and the current time are parameters; their freshness is not modelled.
- `window.confirm` is a boolean parameter.
- Number inputs are not modelled: `Number(...)`, `parseInt` and `parseFloat` on typed text, NaN, and fractional quantities. Quantities are integers and amounts exact reals. `toFixed` display rounding is also left out.
- `Orders.Progress`: with a zero total, a positive amount paid gives Infinity, which `Math.min` clamps to 100, and the model returns 100 as well. A negative amount paid gives −Infinity and no payment gives NaN; the model returns `None` for both, since neither is a real number.
- `Text.Lower`: does not model full Unicode case folding, only A-Z and the Latin-1 capitals.
- `Text.LexLeTransitive`: strings are compared by code point, while JavaScript compares UTF-16 code units; the two differ only beyond the Basic Multilingual Plane.
- `Clients.SortNewestFirst`: stability for equal times holds by construction but is not stated; invalid dates (NaN times) are not modelled, because `timeOf` returns an integer.
- `Deliveries.ReceiptForm.UpdateItem`: requires an index of an existing line, as the page only calls it from a rendered line.
- Add forms are taken as complete records. The pages always fill every field before an add, so a missing field is never needed. Appointments are the exception: `Appointments.NewAppointment` takes a missing customer or date as '', a missing status as 'Planifié', and keeps missing notes as `None`.
- Browser form validation is not modelled. Each form is modelled by its submit handler only. The browser checks `required` inputs and `type="email"` formats before it calls the handler, and the model does not. So `Deliveries.Submission` accepts an empty date, and `Clients.NewCustomer` and `Suppliers.NewSupplier` accept empty names, although the page never submits such forms (pages/Deliveries.tsx:274-285, pages/Clients.tsx:225-239, pages/Inventory.tsx:152-156, pages/Team.tsx:198-241, pages/Suppliers.tsx:111-123, pages/Appointments.tsx:173-186).
- `Sales.FinishSale`: uses one timestamp for the advance payment and for the sale's creation, and one value for the discount (the page's `|| 0` for a missing discount does not arise, because the value is always set).
- The demonstration appointments are left out, because their dates are computed from the current time.
