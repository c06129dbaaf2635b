# Order form pricing and submission, in Dafny

A model of the client-side controller of the café's order page
(`order-script.js`): the menu check boxes with their add-ons and prices, the
running order summary (subtotal, 8.5% tax, total), the pickup/delivery
toggle that makes the address fields required, the submit handler that
refuses an empty order and otherwise builds the order record, and the
completion step that resets the form and hands the email content to the
notification sink.

Modules, one per stage of the script's flow:

- `Format` (format.dfy): `toFixed(2)` as the ECMAScript algorithm applied to
  an exact amount, and `Array.prototype.join`.
- `Selection` (selection.dfy): menu items and add-ons as values; what a click
  on an item or an add-on does to them, including the cascade that clears an
  unchecked item's add-ons.
- `OrderSummary` (summary.dfy): the subtotal as a recursive specification,
  tax and total, and `ComputeSummary`, the nested running-sum loop of
  `updateOrderSummary`, proved against it.
- `OrderRecord` (record.dfy): the filter of checked items, the per-item
  lines (description with add-on annotations, price with add-ons) built by
  the loops of the submit handler, and the `reduce` that recomputes the
  subtotal from those lines.
- `EmailPayload` (payload.dfy): the `orderData` and `emailContent` objects
  as functions.
- `OrderPage` (page.dfy): class `OrderForm`, the live page state, with one
  method per event handler; `Complete` is the body of the 2-second timer.

Prices are exact `real` values; a missing `data-price` is `None` and counts
as 0. Where the intended behaviour differs from the script, the model
follows the script:

- After a completed order the form is reset but `updateOrderSummary` is not
  called, so the display keeps the old totals (see Findings).
- An add-on box can be checked while its item is unchecked: nothing in the
  script prevents it. Such add-ons do not count towards the subtotal, and
  they count again once the item is checked (`ItemToggleSubtotal`).
- `orderForm.reset()` does not touch the `required` flags, so after a
  delivery order the address fields stay required while the section is
  hidden, until the order type radio next fires a change.

## Model

| member | source | states |
|---|---|---|
| Selection.DeselectCascade | order-script.js:38-47 | unchecking an item leaves none of its add-ons checked; names and prices stay, and every other item is unchanged |
| Selection.DeselectIdempotent | order-script.js:42-46 | unchecking an item a second time changes nothing |
| Selection.ItemToggleEffect | order-script.js:35-50 | a click flips only item i; unchecking is the cascade, checking changes the item's box and nothing else (name, price and add-ons stay) |
| OrderSummary.ComputeSummary | order-script.js:60-80 | the nested running sum equals the recursive subtotal over checked items, with tax and total derived from it |
| OrderSummary.SummaryBounds | order-script.js:79-80 | with non-negative prices, 0 <= subtotal <= total and tax = subtotal * 0.085 >= 0 |
| OrderSummary.NothingCheckedSumsToZero | order-script.js:61-80 | with no item checked, subtotal, tax and total are all 0, whatever the add-on boxes say |
| OrderSummary.UncheckedItemContributesNothing | order-script.js:64-77 | an unchecked item and its add-ons, checked or not, contribute nothing to the subtotal |
| OrderSummary.SubtotalUpdate | order-script.js:64-77 | replacing one item changes the subtotal by exactly the difference of the two items' charges |
| OrderSummary.ItemToggleSubtotal | order-script.js:35-50 | checking an item adds its price plus its checked add-ons; unchecking removes the same amount |
| OrderSummary.AddonToggleSubtotal | order-script.js:53-57 | clicking an add-on moves the subtotal by its price if and only if its item is checked |
| OrderRecord.BuildOrderLines | order-script.js:108-133 | the loops produce, for each selected item in order, its name, its description and its price plus checked add-ons |
| OrderRecord.SelectedItemsInMenuOrder | order-script.js:93 | the filter keeps exactly the checked items, at strictly increasing menu positions |
| OrderRecord.NoSelectionIffNothingChecked | order-script.js:93-97 | the selection is empty if and only if no item is checked |
| OrderRecord.AnnotationsIffAddonChecked | order-script.js:116-124 | there is at least one annotation if and only if some add-on is checked |
| OrderRecord.DescriptionShape | order-script.js:113-126 | the description is the bare name exactly when no add-on is checked, otherwise name, " with " and the comma-joined annotations |
| OrderRecord.OrderLinesFollowMenu | order-script.js:108-133 | the record has one line per checked item, in menu order, with that item's name, description and price plus checked add-ons |
| OrderRecord.RecordSubtotalMatchesLive | order-script.js:151-155 | the subtotal reduced from the record lines equals the live subtotal of the same selection |
| OrderRecord.BurgerOrderLines | order-script.js:108-133 | a checked 8.99 burger with a 1.00 cheese add-on and unchecked fries give one line "Burger with Cheese (+$1.00)" at 9.99 |
| Format.Fixed2Cents | order-script.js:174-176 | the two-decimal rendering of a non-negative amount reads back as the nearest cent, ties rounding up |
| Format.Fixed2Samples | order-script.js:174-176 | 1.00, 9.99, 0.84915 and 10.83915 render as "1.00", "9.99", "0.85" and "10.84" |
| EmailPayload.DeliveryAddressField | order-script.js:170-171 | the delivery address is "address, city, zipcode" (missing fields as "") exactly when the order type is delivery, "N/A" otherwise |
| EmailPayload.SpecialInstructionsField | order-script.js:173 | missing or empty special instructions are sent as "None", others as typed |
| EmailPayload.EmailTotalsMatchSummary | order-script.js:153-176 | the email's subtotal, tax and total strings are those of the live summary of the submitted selection |
| EmailPayload.ContactFieldsPassThrough | order-script.js:135-169 | name, phone, email and order type reach the email unchanged |
| EmailPayload.BurgerOrderExample | order-script.js:151-176 | the sample order is emailed as $9.99, $0.85, $10.84 with the line "Burger with Cheese (+$1.00) - $9.99" |
| OrderPage.OrderForm.constructor | order-script.js:243-244 | page load computes the summary once; the button is idle and nothing is pending |
| OrderPage.OrderForm.UpdateOrderSummary | order-script.js:60-86 | the display shows the summary of the current selection |
| OrderPage.OrderForm.ToggleItem | order-script.js:35-50 | the add-on clearing loop yields the cascade of a click, and the summary is refreshed |
| OrderPage.OrderForm.ToggleAddon | order-script.js:53-57 | only the clicked add-on flips, and the summary is refreshed |
| OrderPage.OrderForm.ChooseOrderType | order-script.js:16-32 | delivery makes the section visible and all three address fields required; any other value clears all four |
| OrderPage.OrderForm.Submit | order-script.js:89-148 | no checked item: error message, button stays idle, nothing pending; otherwise loading and disabled with the email content of the selection pending; a disabled button submits nothing |
| OrderPage.OrderForm.Complete | order-script.js:183-203 | the pending content goes to the sink, success message, check boxes and order type back to their declared state, section hidden, button idle; the displayed summary is left as it was |
| OrderPage.OrderForm.CompleteAndRefresh | order-script.js:183-203 | completion followed by a summary refresh: the display matches the reset selection, all zeros when nothing is checked by default; the required flags are left as they were |
| OrderPage.StaleSummaryAfterCompletion | order-script.js:189-198 | after ordering one 10.00 item the display still shows a 10.85 total while the selection's total is 0 |

## Left out

- DOM querying, the `selected` CSS class and the section's `display` style: the section's visibility is the boolean `deliveryVisible`.
- `parseFloat`: prices are exact reals; a price that does not parse (NaN) is not modelled, a missing or empty one is 0.
- RecordSubtotalMatchesLive and EmailTotalsMatchSummary: subtotal, tax and total are exact real arithmetic, so the agreement they state holds in the model only. The live summary adds each item and add-on price into one running sum, while the record first totals each line and then reduces the lines; with doubles these two orders of addition can differ in the last bit, so in the script the displayed and emailed totals agree only up to double rounding (near a half-cent tie the printed tax can differ).
- `toFixed(2)`: modelled on the exact amount, so binary double rounding (such as 1.005 giving "1.00") and exponent notation at 10^21 and above are not captured.
- The 2000 ms submission delay is the explicit `Complete` event; the 5-second auto-hide of the message is not modelled, so the banner stays until the next message replaces it.
- `sendEmailViaService` (subject and body text, `encodeURIComponent`, the hidden `mailto:` anchor): the sink is the `EmailContent` value that `Complete` returns.
- The hard-coded recipient address, `order_date` and `order_time` from the clock, and `console.log` are not in `EmailContent`.
- The commented-out EmailJS integration is dead code.
- The browser's native required-field check before the submit event is not modelled: `Submit` receives the field values as the browser passes them.
- ItemListing: the newline-joined item list is checked only on the sample order, not by a general lemma.

## Findings

| source | as written | input that shows it | evidently intended | confidence | as-written member | corrected member |
|---|---|---|---|---|---|---|
| order-script.js:189-198 | the completion timer resets the form with `orderForm.reset()`, which fires no change events, and never calls `updateOrderSummary`, so the old subtotal, tax and total stay on display | check a 10.00 item, submit, let the timer fire: the display shows a $10.85 total with nothing selected | the summary is recomputed after the reset and shows $0.00 | high; not executed | OrderPage.OrderForm.Complete, exhibited by OrderPage.StaleSummaryAfterCompletion | OrderPage.OrderForm.CompleteAndRefresh |
