# Storefront scheduling, pricing and cart rules in Dafny

This project models the rules of a small bakery/fish storefront and proves
properties about them. The storefront is a Next.js application written in
TypeScript. The rules modelled are:

- **Date and time-slot picker.** The lead-time boundary, the seven-day window
  with its closed weekdays and blackout days, and the slot generator that
  walks the default window one slot duration at a time and drops full slots.
  Also covered: `HH:mm` formatting and parsing, the selection state, and the
  fulfilment timestamp it passes to its parent.
- **Customizable product (cake) form.** The running price over the option
  groups, the validity check, the selection handler and the submit guard.
- **Cart ledger.** Append, update-quantity-or-remove, remove and clear, plus
  the item count and the money total.
- **Cart page.** The total, the first scheduled item, the quantity-input
  coercion and the mock handlers.
- **Standard product (catfish) options.** The variant lookup with its
  fallback, the quantity clamp, the stock check, and the disabled and
  low-stock predicates.
- **Checkout.** The delivery-details form, the three-step checkout
  controller with its render guards, and the confirmation figures
  (subtotal, delivery fee, grand total, schedule).
- **Mock data source.** The catalogue and capacity lookups and the schedule
  configuration, with worked scenarios over the mock data.

Money is in integer cents: 25.00 is `2500`, and the 5.00 delivery fee is `500`.
Time is in minutes, and days are day numbers counted from 1970-01-01.

Modules follow the source files:

| module | source |
|---|---|
| `Wrappers` | `Option` |
| `JsText`, `JsArray` | the JavaScript string and array operations the code uses |
| `ScheduleTypes`, `ProductTypes`, `CheckoutTypes` | the record types in `src/types/` |
| `Calendar` | civil dates and the timestamp datatype |
| `Data` | `src/lib/data.ts` |
| `DatePicker` | `components/products/DatePicker.tsx` |
| `CakeForm` | `components/products/CustomCakeForm.tsx` |
| `Cart` | `content/CartContext.tsx` |
| `CartPage` | `app/cart/page.tsx` |
| `StandardOptionsPanel` | `components/products/StandardProductOptions.tsx` |
| `DeliveryForm` | `components/checkout/DeliveryDetailsForm.tsx` |
| `Confirmation` | `components/checkout/CustomizationForm.tsx` |
| `Checkout` | `app/checkout/page.tsx` |
| `Scenarios` | the mock data of `src/lib/data.ts` run through the rules above |

State that the components change in place is modelled as a class. The
classes are `DatePicker.Picker`, `CakeForm.Form`, `Cart.Ledger`,
`StandardOptionsPanel.Options`, `DeliveryForm.Form` and
`Checkout.Controller`. Their methods are the components' handlers. The slot
loop, the seven-day loop and the price accumulation are methods with loops,
each proved against a specification function.

The code is followed where it departs from what one might expect:

- The slot generator keeps a last slot that starts before the window end,
  even if it runs past the end (`DatePicker.LastCandidate`).
- A blackout day does not empty the slot list. Only the slot area shows a
  notice instead (`DatePicker.Panel`).
- A weekday is closed when any of its exceptions says closed (`some`).
- The slot generator reads only the default window.
- The confirmation subtotal ignores quantities (`Confirmation.SubtotalGap`,
  `Confirmation.QuantityIgnored`).
- The confirmation labels each line with `item.variant || item.selections.size`.
  The modelled cart line has no `variant`, so a line without selections makes
  the step throw (`Checkout.Render`, `Checkout.UnlabelledLineBreaksConfirmation`).
  A standard product's line carries a `variant` label at run time and does not
  throw; see "Left out".
- The confirmation shows the schedule of the first line even when only a
  later line has one (`Confirmation.ScheduleDiffersFromCartPage`).
- The standard product builds `finalPrice` as a line total, while the cart
  reads `finalPrice` as a per-unit price. A line built that way would be
  valued at price times quantity squared
  (`StandardOptionsPanel.LineTotalCountedTwice`). Both product forms have
  their `addToCart` call commented out, so this never reaches the cart as
  written.

## Model

| member | source | states |
|---|---|---|
| DatePicker.MinOrderDay | components/products/DatePicker.tsx:20-26 | the earliest orderable day is the day whose midnight is at or before now plus the lead time, and the next midnight is after it |
| DatePicker.ClockFieldsRoundTrip | components/products/DatePicker.tsx:47-48 | splitting a formatted slot on ':' and reading both fields with `Number` gives back its hour and minute |
| DatePicker.ClockRoundTrip | components/products/DatePicker.tsx:50-56 | formatting minutes as zero-padded `HH:mm` and parsing back with `hour * 60 + minute` returns the same minutes |
| DatePicker.FormatClockInjective | components/products/DatePicker.tsx:54-56 | two different minutes never get the same slot label |
| DatePicker.AvailableTimeSlots | components/products/DatePicker.tsx:43-70 | with no date selected the slot list is empty; otherwise it is the window's candidates, formatted, with the booked-out labels dropped |
| DatePicker.WalkWindow | components/products/DatePicker.tsx:50-67 | the `while` loop pushes exactly the formatted candidates of the window that are not booked out, in order |
| DatePicker.CandidatesStep | components/products/DatePicker.tsx:50-53 | candidates start at the window start, rise by exactly one slot duration each, and all lie in `[start, end)` |
| DatePicker.CandidateAt | components/products/DatePicker.tsx:50-66 | the i-th candidate is `start + i * duration` |
| DatePicker.CandidateCount | components/products/DatePicker.tsx:53-67 | the loop runs `ceil((end - start) / duration)` times, and never for an empty window |
| DatePicker.ExactWindowCount | components/products/DatePicker.tsx:53-67 | when the duration divides the window, the count is `(end - start) / duration` |
| DatePicker.LastCandidate | components/products/DatePicker.tsx:53-67 | the last slot starts before the end and reaches or passes it; it ends exactly at the end iff the duration divides the window, so a final partial slot is kept |
| DatePicker.CandidateMember | components/products/DatePicker.tsx:50-66 | a minute is a candidate iff it lies in the window on the slot grid |
| DatePicker.OfferedSlotMember | components/products/DatePicker.tsx:59-64 | a grid minute's label is offered iff it is not booked out; a label with no capacity entry is always offered |
| DatePicker.BookedOutHasFullEntry | components/products/DatePicker.tsx:59-60 | a label is dropped only when the date's ledger has an entry for it with `bookedCount >= limit` |
| DatePicker.BookedOutUniqueLabels | components/products/DatePicker.tsx:59-60 | with one entry per label, a slot is dropped iff its entry is full |
| DatePicker.SelectableDays | components/products/DatePicker.tsx:87-101 | exactly seven days, consecutive from the lead-time boundary, each with its ledger key, and selectable iff its weekday is not closed and it is not a blackout |
| DatePicker.EmittedTimestamp | components/products/DatePicker.tsx:73-83 | a timestamp is passed up iff both the date and the time are set; otherwise null |
| DatePicker.EmittedForSlot | components/products/DatePicker.tsx:76-78 | a picked ISO date and slot label yield exactly that year, month (0-based) and day, and the slot's hour and minute |
| DatePicker.Panel | components/products/DatePicker.tsx:136-163 | the blackout notice shows iff a date is selected and its ledger entry is a blackout, whatever the slot list holds; slot buttons show only for a non-empty list, and carry that list |
| DatePicker.Picker.constructor | components/products/DatePicker.tsx:16-18 | no date and no time selected, and no capacity loaded |
| DatePicker.Picker.ClickDay | components/products/DatePicker.tsx:29-39 | for an entry of the seven-day list (the only days with buttons), a new selectable date is stored, its capacity is loaded and the time is cleared, so no timestamp is passed up; a disabled day or the same date changes nothing |
| DatePicker.Picker.ClickSlot | components/products/DatePicker.tsx:136-163 | the time is set only to a slot currently shown as a button; the date is unchanged |
| Data.GetProductBySlug | src/lib/data.ts:51-67 | the cake under its slug and under "cakes", the catfish under its slug and under "catfish", and nothing for any other slug |
| Data.FindCapacity | src/lib/data.ts:87-89 | a ledger entry is found iff one has the date; the one found has that date and is in the ledger |
| Data.GetCapacityForDate | src/lib/data.ts:75-89 | the mock ledger has entries exactly for 2025-11-15 and 2025-11-16 |
| JsText.TrimEmptyIff | components/products/CustomCakeForm.tsx:32 | `trim()` gives the empty string iff the text is all whitespace |
| JsText.ParseIntOfDecimal | app/cart/page.tsx:107 | `parseInt` of a number's decimal form gives back the number |
| JsText.IntOr | app/cart/page.tsx:107 | `v \|\| d` on a number is `d` for NaN and 0, and `v` otherwise |
| JsArray.Find | src/lib/data.ts:88 | `find` returns nothing iff no element satisfies the test; otherwise an element of the list that passes |
| JsArray.FindFirst | src/lib/data.ts:88 | `find` returns the first element that passes |
| CakeForm.NoSelectionsNoAdjustment | components/products/CustomCakeForm.tsx:27-44 | with no selections the price is the base price |
| CakeForm.TextInputPricing | components/products/CustomCakeForm.tsx:32-39 | a text-input group adds its fee (0 when absent) when its text is non-blank after trimming; without choices it adds nothing otherwise; with choices, a blank but non-empty text falls through to the choice lookup |
| CakeForm.SingleSelectPricing | components/products/CustomCakeForm.tsx:37-39 | a single-select group adds the adjustment of the first choice with the selected id, and nothing for an unknown id |
| CakeForm.ArraySelectionAddsNothing | components/products/CustomCakeForm.tsx:35-42 | an array (multi-select) selection adds nothing, whatever the group |
| CakeForm.AtLeastBasePrice | components/products/CustomCakeForm.tsx:26-46 | with non-negative adjustments the price is never below the base price |
| CakeForm.UnusedKeyKeepsPrice | components/products/CustomCakeForm.tsx:29-30 | a selection under a key no group uses does not change the price |
| CakeForm.AllMandatorySelectedIff | components/products/CustomCakeForm.tsx:59-63 | the `every` scan holds iff every group is optional or has a defined, non-blank selection |
| CakeForm.FormValidIff | components/products/CustomCakeForm.tsx:57-69 | the form is valid iff every mandatory group has a defined selection, non-blank when it is text, and a date is selected |
| CakeForm.Form.constructor | components/products/CustomCakeForm.tsx:19-20 | no selections and no date |
| CakeForm.Form.ComputeFinalPrice | components/products/CustomCakeForm.tsx:26-46 | the `forEach` accumulation gives the base price plus every group's adjustment |
| CakeForm.Form.SelectionChange | components/products/CustomCakeForm.tsx:49-54 | the given key takes the new text; every other key and the date keep their values |
| CakeForm.Form.DateSelect | components/products/CustomCakeForm.tsx:146-149 | the picker's callback sets the date and nothing else |
| CakeForm.Form.Submit | components/products/CustomCakeForm.tsx:72-91 | no order item iff the form is invalid; otherwise the item with the slug, the name, the current price, the selections and the date |
| Cart.TotalsAppend | content/CartContext.tsx:42-51 | both totals add up over a concatenation of carts |
| Cart.TotalsAreSums | content/CartContext.tsx:42-51 | the item count is the sum of quantities, and the total is the sum of unit price times quantity |
| Cart.RemoveKeepsOthers | content/CartContext.tsx:74-77 | removal drops exactly the items with that id: none is left, and every other item is kept |
| Cart.RemoveUnknownId | content/CartContext.tsx:74-77 | removing an id that is not in the cart leaves it unchanged |
| Cart.RemoveKeepsOrder | content/CartContext.tsx:74-77 | removal distributes over any split of the cart, and a part without the id is kept whole, so kept items keep their order |
| Cart.UpdateChangesOnlyQuantity | content/CartContext.tsx:66-70 | an update keeps the length and order and changes only the quantity, only on items with that id |
| Cart.UpdateUnknownId | content/CartContext.tsx:66-70 | updating an id that is not in the cart leaves it unchanged |
| Cart.AddThenRemove | content/CartContext.tsx:53-58 | adding under a fresh id and removing that id gives back the cart |
| Cart.AddKeepsUniqueIds | content/CartContext.tsx:53-58 | an add under a fresh id keeps the ids distinct |
| Cart.Ledger.constructor | content/CartContext.tsx:39 | the cart starts empty |
| Cart.Ledger.AddToCart | content/CartContext.tsx:53-58 | exactly one copy of the item, under the fresh id, is appended; earlier items are untouched; both totals grow by the item's share |
| Cart.Ledger.RemoveItem | content/CartContext.tsx:74-77 | the cart becomes the items with another id |
| Cart.Ledger.UpdateQuantity | content/CartContext.tsx:60-72 | a quantity of 0 or less behaves exactly like remove; a positive one sets the quantity of the items with that id |
| Cart.Ledger.ClearCart | content/CartContext.tsx:79-82 | the cart is empty and both totals are 0 |
| CartPage.FirstScheduled | app/cart/page.tsx:50-51 | no schedule is shown iff no item has one |
| CartPage.FirstScheduledIsFirst | app/cart/page.tsx:50-51 | the schedule shown is that of the first item that has one |
| CartPage.QuantityEntry | app/cart/page.tsx:107 | the entered quantity is never 0: a zero or non-numeric entry becomes 1, any other number passes through |
| CartPage.QuantityEntryOfDecimal | app/cart/page.tsx:107 | typing a number enters that number, except that 0 enters 1 |
| CartPage.EntryReachesRemoveIffNegative | app/cart/page.tsx:28-35 | through the input, the remove branch is reached iff the entry is a negative number |
| CartPage.HandleUpdateQuantity | app/cart/page.tsx:28-35 | the remove branch is taken iff the quantity is 0 or less, and the cart is not changed |
| CartPage.HandleRemoveItem | app/cart/page.tsx:37-40 | logs a removal of the id, and the cart is not changed |
| CartPage.View | app/cart/page.tsx:45-72 | the empty view iff the cart is empty; otherwise the sum of quantities, the sum of unit price times quantity and the first schedule |
| StandardOptionsPanel.SelectedVariantOf | components/products/StandardProductOptions.tsx:21-24 | the selected variant is a variant of the product: the one with the id when there is one, else the first |
| StandardOptionsPanel.SelectedVariantIsFirst | components/products/StandardProductOptions.tsx:21-24 | of several variants with the id, the first is selected |
| StandardOptionsPanel.ClampQuantity | components/products/StandardProductOptions.tsx:88 | the quantity from the input is at least 1: a positive entry is kept, anything else gives 1 |
| StandardOptionsPanel.ClampQuantityOfDecimal | components/products/StandardProductOptions.tsx:88 | typing a positive number sets that quantity; any other number sets 1 |
| StandardOptionsPanel.LowStockVariants | components/products/StandardProductOptions.tsx:59-74 | a variant button shows the low-stock badge iff the variant's stock is between 1 and 9 |
| StandardOptionsPanel.DisabledIffOverStock | components/products/StandardProductOptions.tsx:31-34 | for a clamped quantity the add button is disabled iff the stock check rejects |
| StandardOptionsPanel.LineTotalCountedTwice | components/products/StandardProductOptions.tsx:42 | the item's line-total `finalPrice`, read by the cart as a unit price, is valued at price times quantity squared, above the line total when the quantity exceeds 1 |
| StandardOptionsPanel.Options.constructor | components/products/StandardProductOptions.tsx:15-18 | the first variant is selected and the quantity is 1 |
| StandardOptionsPanel.Options.SelectVariant | components/products/StandardProductOptions.tsx:62 | only the selected id changes |
| StandardOptionsPanel.Options.QuantityChange | components/products/StandardProductOptions.tsx:88 | the quantity becomes the clamped entry and stays at least 1 |
| StandardOptionsPanel.Options.AddToCart | components/products/StandardProductOptions.tsx:29-47 | no item iff the quantity exceeds the selected variant's stock, exactly when the button is disabled; otherwise the item with the variant's price as unit price and price times quantity as `finalPrice` |
| DeliveryForm.InitialFormState | components/checkout/DeliveryDetailsForm.tsx:13-22 | pickup, with every text field empty |
| DeliveryForm.StartState | components/checkout/DeliveryDetailsForm.tsx:26 | the form starts from the given data, or from the blank state when there is none |
| DeliveryForm.WithFieldChangesOnlyThatField | components/checkout/DeliveryDetailsForm.tsx:28-34 | the named field takes the value; every other field and the method are unchanged |
| DeliveryForm.WithFieldOwnValue | components/checkout/DeliveryDetailsForm.tsx:28-34 | writing back a field's current value changes nothing |
| DeliveryForm.ValidateDelivery | components/checkout/DeliveryDetailsForm.tsx:43-60 | rejected for missing contact iff a contact field is empty; rejected for the address iff the contact is complete but a delivery lacks address or city; otherwise the unchanged data is passed up |
| DeliveryForm.UncheckedFieldsIgnored | components/checkout/DeliveryDetailsForm.tsx:47-56 | the last name and the zip code never affect the submit handler's decision (the browser's `required` check is separate) |
| DeliveryForm.PickupIgnoresAddress | components/checkout/DeliveryDetailsForm.tsx:53-56 | for pickup, the form submits iff the contact fields are complete, whatever the address |
| DeliveryForm.InitialFormRejected | components/checkout/DeliveryDetailsForm.tsx:13-50 | the blank starting form is rejected for missing contact |
| DeliveryForm.Form.constructor | components/checkout/DeliveryDetailsForm.tsx:26 | the form data is the start state |
| DeliveryForm.Form.Change | components/checkout/DeliveryDetailsForm.tsx:28-34 | the named field takes the value |
| DeliveryForm.Form.MethodChange | components/checkout/DeliveryDetailsForm.tsx:36-41 | only the delivery method changes |
| DeliveryForm.Form.Submit | components/checkout/DeliveryDetailsForm.tsx:43-60 | the data is passed up iff both checks pass |
| Confirmation.DeliveryFee | components/checkout/CustomizationForm.tsx:32 | 500 cents iff delivery, 0 iff pickup |
| Confirmation.GrandTotal | components/checkout/CustomizationForm.tsx:33 | the total is the subtotal plus the fee, so it is at least the subtotal |
| Confirmation.SubtotalGap | components/checkout/CustomizationForm.tsx:31 | the cart total is the confirmation subtotal plus every unit beyond the first of each line |
| Confirmation.SingleUnitsAgree | components/checkout/CustomizationForm.tsx:31 | with one unit per line the subtotal equals the cart total |
| Confirmation.QuantityIgnored | components/checkout/CustomizationForm.tsx:31 | a line with a positive price and more than one unit shows a subtotal below the cart total |
| Confirmation.ScheduleShown | components/checkout/CustomizationForm.tsx:78 | the schedule shown is the first line's, and an invalid date when that line has none |
| Confirmation.ScheduleDiffersFromCartPage | components/checkout/CustomizationForm.tsx:78 | when only the second line is scheduled, the cart page shows its schedule and the confirmation an invalid date |
| Confirmation.SummaryOf | components/checkout/CustomizationForm.tsx:28-33 | the line count, the subtotal (`Subtotal`, one `finalPrice` per line), the fee, their sum as the grand total, and the first line's schedule |
| Checkout.Render | app/checkout/page.tsx:66-112 | the empty view iff the cart is empty; otherwise step 1 shows the delivery form with the stored data and step 2 the payment panel; at step 3 with both delivery data and payment set, the confirmation shows iff every line has selections, and a render error shows iff some line has none |
| Checkout.OutOfRangeStepIsBlank | app/checkout/page.tsx:89-112 | outside steps 1 to 3 a non-empty cart renders no step content |
| Checkout.ReachableShowsAPanel | app/checkout/page.tsx:89-112 | in a state the buttons can reach, a non-empty cart always shows one of the three panels or the confirmation's render error, never nothing |
| Checkout.UnlabelledLineBreaksConfirmation | components/checkout/CustomizationForm.tsx:43-45 | a line with neither a `variant` nor selections makes the confirmation step fail to render |
| Checkout.Controller.constructor | app/checkout/page.tsx:29-31 | step 1, no delivery data, no payment method |
| Checkout.Controller.NextStep | app/checkout/page.tsx:34-36 | the step goes up by exactly 1, unbounded |
| Checkout.Controller.PrevStep | app/checkout/page.tsx:38-40 | the step goes down by exactly 1, unbounded; from steps 2 and 3 it stays in a reachable state |
| Checkout.Controller.DeliverySubmit | app/checkout/page.tsx:43-46 | the data is stored and the step goes up by exactly 1; from step 1 this reaches step 2 |
| Checkout.Controller.PaymentSubmit | app/checkout/page.tsx:49-52 | the method is stored and the step goes up by exactly 1; from step 2 this reaches step 3 |
| Checkout.Controller.PaymentContinue | components/checkout/PaymentMethod.tsx:18-25 | with no method chosen nothing happens; otherwise the payment submit runs |
| Checkout.Controller.FinalOrder | app/checkout/page.tsx:55-63 | the items, delivery data and payment method are logged, and nothing is cleared |
| Scenarios.MockWindow | src/lib/data.ts:93 | the default window parses to minutes 540 to 1020 |
| Scenarios.HourLabels | components/products/DatePicker.tsx:54-56 | the hours 9 to 16 format as "09:00" to "16:00" |
| Scenarios.MockCandidates | src/lib/data.ts:92-97 | the mock window with 60-minute slots gives the eight candidates 540, 600, ..., 960 |
| Scenarios.MockLabels | src/lib/data.ts:92-97 | the eight candidates are labelled "09:00" to "16:00" |
| Scenarios.Nov15BookedOut | src/lib/data.ts:76-79 | on 2025-11-15 exactly "12:00" is booked out (1 of 1); "14:00" (2 of 3) is not |
| Scenarios.Nov15Offered | src/lib/data.ts:75-97 | 2025-11-15 offers the seven slots "09:00" to "16:00" without "12:00" |
| Scenarios.MockClosures | src/lib/data.ts:80-96 | Sunday is closed and Saturday is not; 2025-11-16 is a blackout and 2025-11-15 is not |
| Scenarios.LedgerKeys | components/products/DatePicker.tsx:93 | day numbers 20407 and 20408 have the keys "2025-11-15" and "2025-11-16" |
| Scenarios.LeadTimeBoundary | src/lib/data.ts:95 | ordered at 10:30 on 2025-11-13, the mock schedule's 48-hour lead time, which the product page hands the picker, gives 2025-11-15 as the first day |
| Scenarios.SaturdayOpen | components/products/DatePicker.tsx:93-98 | the day entry for 2025-11-15 is selectable |
| Scenarios.SundayClosed | src/lib/data.ts:80 | the day entry for 2025-11-16, a Sunday and a blackout, is not selectable |
| Scenarios.Nov16Panel | components/products/DatePicker.tsx:139-140 | selecting 2025-11-16 shows the blackout notice, whatever the slot list |
| Scenarios.Nov15Timestamp | components/products/DatePicker.tsx:76-78 | 2025-11-15 at "14:00" yields the local time 2025, month index 10, day 15, 14:00 |
| Scenarios.EightInchPrice | src/lib/data.ts:12-21 | the base cake with the 8-inch size is priced at 4000 cents |
| Scenarios.InscribedPrice | src/lib/data.ts:12-25 | the base cake with the 8-inch size and an inscription that does not start with whitespace is priced at 4200 cents |

## Left out

- The clock is not modelled. `new Date()` is a minute parameter (`nowMinute`).
- Timezones are not modelled either. The source takes the weekday in local time and the ledger key from `toISOString` in UTC. `DatePicker.SelectableDays` therefore takes both as a supplied `Clock`. The scenarios use the epoch weekday and a civil-date conversion, assuming local time is UTC.
- `Calendar.CivilFromDays` is used only on concrete days; no general property of the calendar conversion is proved.
- Date normalisation of out-of-range parts by the JavaScript `Date` constructor is not modelled. The timestamp keeps the raw year, month index, day, hour and minute, or is an invalid date when a part does not parse.
- `Number` is modelled on the empty string and digit strings only; any other text reads as NaN. `parseInt` is modelled on leading whitespace, a sign and decimal digits; its hexadecimal prefix is not.
- React effect scheduling and memoisation are not modelled; each handler is one atomic step. `console.log` and `alert` are not modelled; their calls appear as return values (`CartPage.MockLog`, `Checkout.OrderRecord`, the rejected outcomes).
- Rendering, CSS, routing, `toFixed` formatting and floating-point money are not modelled. Money is integer cents.
- `maxOrders`, custom weekday windows, multi-select pricing and clearing the cart after an order are not modelled, because the source does not implement them.
- Both product forms have their `addToCart` call commented out. `CakeForm.Form.Submit` and `StandardOptionsPanel.Options.AddToCart` therefore return the order item they build. The cart page's handlers only log, and are modelled that way.
- Cart ids are not generated. `Cart.Ledger.AddToCart` takes the fresh id as a parameter, since `Date.now().toString()` does not guarantee uniqueness.
- The HTML `required` attributes of the delivery form are not modelled. They are checked by the browser, not by the handler.
- The product-level `minLeadTimeHours` (src/lib/data.ts:16) is never read by the code; the picker takes the lead time from the schedule configuration it is given.
- The model's `CartItem` drops the runtime `variant` field that a standard product's order item brings along through `{ ...item, id }` (components/products/StandardProductOptions.tsx:39, content/CartContext.tsx:55). `Checkout.Render` therefore treats every line without selections as unlabelled, although a standard line with a non-empty `variant` label renders in the source.
- The payment panel is not modelled on its own. Its one rule, that continue needs a chosen method, is `Checkout.Controller.PaymentContinue`.
- StandardOptionsPanel.SelectedVariantOf: requires a product with at least one variant, because the source reads `variants[0]` unconditionally. The same holds for the `Options` constructor.
- Confirmation.ScheduleShown: requires a non-empty item list, because the source reads `items[0]`. The same holds for `Confirmation.SummaryOf`. The checkout only renders the confirmation for a non-empty cart.
- DatePicker.AvailableTimeSlots: requires, when a date is selected, that the slot loop terminates (a positive slot duration, or a window the loop never enters). The source would loop forever otherwise.
