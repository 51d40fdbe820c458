# Steakhouse ordering app — a verified model of its core

The ordering page of a steakhouse lets customers pick menu items in an item editor. The
editor has counters for donenesses, sauces, drinks, desserts, pastas, fried sides, side
dishes, multi-choice options and addons, each kept within a limit that depends on the
quantity. A confirmed selection is added to the cart. A selection whose merge key is already
in the cart is merged into that line; otherwise a new line is appended. A line opened from
the cart for editing is replaced in place.

The cart panel sums the chosen options over all lines. The checkout form keeps the phone
field to ten digits and validates the order before it is sent. The kitchen prints each
order as a one-line ticket.

On the administrator side:

- an availability screen toggles the "on sale" flags of menu items, addons and option
  lists, and compares them with the flags of the last load;
- a live-orders board changes an order's status optimistically and rolls the change back
  when the server refuses it;
- the banner carousel on the home page steps through its slides.

The Dafny modules follow the source files:

| module | file | models |
|---|---|---|
| `Basics` | basics.dfy | `Option` and `Result` |
| `Dict` | dict.dfy | JavaScript objects used as dictionaries: insertion-ordered entries, lookup, write, delete, and tallies |
| `Sorting`, `Seqs` | sorting.dfy | the sorts and `map`s the cart key uses: sorted, a permutation, and canonical |
| `Text` | text.dfy | `join`, number printing, the digit filter, `trim`, the ten-digit test |
| `Types` | types.dfy | the records of `types.ts` and three catalogue entries of `constants.ts` |
| `CartLine` | cart_line.dfy | the cart key and the line price of `createCartItemObject` |
| `CartEngine` | cart.dfy | the cart state and its handlers in `App.tsx`; class `Cart` |
| `Checkout` | checkout.dfy | the customer form and `handleCheckout`; class `CheckoutForm` |
| `SelectionEditor` | item_modal.dfy | the item editor; class `Selection` |
| `CartSummary` | cart_summary.dfy | `aggregatedOptions` of the cart panel |
| `Ticket` | ticket.dfy | `formatOrderByCategory` |
| `Availability` | availability.dfy | the availability screen; class `Manager` |
| `OrderBoard` | admin.dfy | the live-orders board; class `Board` |
| `Carousel` | carousel.dfy | the carousel index; class `Slides` |

JavaScript objects are modelled as sequences of `Entry(key, value)` in insertion order.
Writing a present key replaces its value in place, and writing a new key appends it. So the
order in which a dictionary is printed (on the ticket) or compared (`JSON.stringify` in
`hasChanges`) is part of the model.

The cart panel (components/Cart.tsx) keeps its own copy of the customer form. Its input
handler (lines 190-201), order-type effect (186-188) and checkout (254-264) match those of
App.tsx line for line, except that the panel's checkout also clears the AI suggestion. Both
copies are modelled once, by `Checkout`.

Each loop of the source (`forEach`) is a method whose `ensures` ties its result to a
function over the input. Lemmas then state what that function means: per-name sums,
last-value-wins, one entry per name, and so on.

A merge reprices the existing line with the price of the item record passed in (App.tsx
lines 198-200) but keeps the line's stored item record. The refresh button (App.tsx lines
106-110) reloads the menu, so after a price change the two records can disagree. The model
states the cart invariant (every line priced consistently with its own record) as holding after
an add exactly when the stored and the passed unit prices agree (`MergePriceAgrees`).
`RefreshedMergeBreaksPrice` shows a cart where they do not.

## Model

| member | source | states |
|---|---|---|
| CartLine.StableObjectString | App.tsx:136-139 | an empty mapping gives `''`; any other gives an object |
| CartLine.PositiveMembers | App.tsx:138 | the filter keeps exactly the entries whose count is positive |
| CartLine.StableContents | App.tsx:136-139 | a non-empty mapping is written as exactly its positive entries, sorted by name |
| CartLine.StableEqualIff | App.tsx:136-139 | two mappings without repeated names serialise equally iff both or neither are empty and they have the same positive entries |
| CartLine.StableAgreement | App.tsx:136-139 | equal serialisations imply the same emptiness and the same positive entries |
| CartLine.StableIgnoresOrder | App.tsx:136-139 | a permutation of a mapping's entries serialises the same |
| CartLine.ListKeyIgnoresOrder | App.tsx:153-156 | the sorted, joined token list of a list category does not depend on token order |
| CartLine.KeyOf | App.tsx:145-159 | the key records the item id and the notes |
| CartLine.KeyIgnoresOrder | App.tsx:145-159 | selections that record the same choices, in any click order, get the same key |
| CartLine.EqualKeysAgree | App.tsx:145-159 | equal keys imply the same item id, the same notes, the same single-choice addon (unless one is literally `none`) and the same positive entries in each mapping; when no name contains `,`, also the same addon, sauce, dessert and pasta tokens up to order |
| CartLine.EqualKeysAgreeOnLists | App.tsx:153-156 | with comma-free names, equal keys carry the same multisets of addon, sauce, dessert and pasta tokens |
| CartLine.ListKeyInjective | App.tsx:153-156 | two lists of non-empty tokens without `,` get the same sorted, joined key only if one is a permutation of the other |
| CartLine.CommaNamesCollide | App.tsx:154 | a sauce named `x:1,y` and the two sauces `x` and `y` give the same key although the selections differ |
| CartLine.SingleChoicePrice | App.tsx:141 | the single-choice price is non-zero only if one is selected and the item defines one |
| CartLine.AddonsTotalIgnoresOrder | App.tsx:142 | the addon total does not depend on addon order |
| CartLine.AddonsTotalAppend | App.tsx:142 | the addon total is additive over concatenation |
| CartLine.LinePriceLinear | App.tsx:141-143 | each extra unit costs the unit price (item plus single-choice addon); addons are charged once, not per unit |
| CartLine.NewLine | App.tsx:133-179 | a new line stores the item, quantity and selection, and is keyed and priced from them |
| CartLine.Set1Prices | constants.ts:7 | set-1 costs 399, two cost 798, and one soup plus two fries add 150 |
| CartEngine.FindKey | App.tsx:192 | returns the first line with the key, or -1 when no line has it |
| CartEngine.FindId | App.tsx:124 | returns the first line with the cartId, and -1 exactly when no line has it |
| CartEngine.Merged | App.tsx:195-202 | a merge adds the quantities, reprices with the passed item's price and the line's own addons, and keeps every other field |
| CartEngine.AddCases | App.tsx:195-208 | the add path merges into the first line with the same key, touching only that line; otherwise it appends one new line keyed with the fresh token |
| CartEngine.ReplaceLine | App.tsx:184-189 | the edit path replaces every line with the edited cartId, keeps its position and cartId, and changes nothing else |
| CartEngine.Confirm | App.tsx:181-208 | when the edited line is still in the cart, each line with its cartId becomes the line built from the new choices under that same cartId, at the same place, and no other line changes; otherwise the selection merges into the first line with its key, leaving every other line, or is appended as one new line keyed with the fresh token |
| CartEngine.UpdateQuantity | App.tsx:216-231 | a quantity ≤ 0 removes the lines with the cartId; otherwise they take the quantity and are repriced |
| CartEngine.Repriced | App.tsx:222-226 | a repriced line has the new quantity, a price consistent with its own selection, and all other fields kept |
| CartEngine.RemoveLinesMembers | App.tsx:233-235 | removal keeps exactly the lines with another cartId |
| CartEngine.AddCount | App.tsx:191-208 | adding raises the item count by exactly the added quantity, whether merged or appended |
| CartEngine.AddTotalMerged | App.tsx:193-203 | a merge moves the cart total by exactly the merged line's change of price; when that line's stored price follows the pricing formula and its unit price agrees with the passed item's (`MergePriceAgrees`), the total rises by the unit price times the added quantity and addons are not charged again |
| CartEngine.AddTotalAppended | App.tsx:205-206 | an append raises the cart total by the new line's price |
| CartEngine.AddKeepsUniqueKeys | App.tsx:191-208 | adding never creates two lines with the same key |
| CartEngine.AddKeepsInvariant | App.tsx:191-208 | adding a positive quantity with a fresh token keeps cartIds unique and quantities positive; every line stays consistent with its own price iff the merged line's unit price agrees with the passed item's (always on an append) |
| CartEngine.MergedPriceDelta | App.tsx:196-200 | with agreeing unit prices, a merge raises the line's price by the unit price times the added quantity |
| CartEngine.MergedConsistentIff | App.tsx:196-202 | a merged line keeps a key consistent with its selection, and its price is consistent iff its stored unit price equals the passed item's |
| CartEngine.MergeKeepsInvariant | App.tsx:202 | replacing one line by a line with its cartId and a positive quantity keeps cartIds unique and quantities positive; all lines stay consistent iff the new line is |
| CartEngine.CatalogueAgreesPrices | App.tsx:196-200 | when every line of the item's id still holds the item record passed in (no menu reload changed it), the merge prices agree |
| CartEngine.RefreshedMergeBreaksPrice | App.tsx:196-202 | a line of one set-1 at 399, merged with one more after the price became 450, is priced 900 under a stored item saying 399, so the invariant breaks; setting its quantity to 2 then reprices it to 798 |
| CartEngine.NotesNeverMerge | App.tsx:145-159 | a selection whose notes differ from every line's notes is appended, never merged |
| CartEngine.ReplaceKeepsIds | App.tsx:184-189 | the edit path keeps every cartId in place, so unique cartIds stay unique |
| CartEngine.ConfirmKeepsInvariant | App.tsx:181-208 | confirming a positive quantity with a fresh token keeps cartIds unique and quantities positive on both paths; every line stays price-consistent iff the edit path runs or the merged line's unit price agrees |
| CartEngine.EditCanDuplicateKeys | App.tsx:184-189 | editing a line into another line's choices leaves two lines with equal keys |
| CartEngine.UnknownIdUnchanged | App.tsx:216-235 | an unknown cartId leaves the cart unchanged for removal and for quantity changes |
| CartEngine.RemoveTotals | App.tsx:233-238 | removing a present cartId lowers the count by that line's quantity and the total by its price |
| CartEngine.PartitionTotals | App.tsx:237-238 | count and total split between the lines with a cartId and the others |
| CartEngine.LinesWithUnique | App.tsx:205-206 | with unique cartIds, at most one line carries a given id |
| CartEngine.SetQuantityCount | App.tsx:216-231 | a positive quantity makes the selected line's share of the count equal that quantity |
| CartEngine.ChangesKeepInvariant | App.tsx:216-235 | removal and quantity changes keep the line invariant |
| CartEngine.MergeScenario | App.tsx:191-208 | two set-1 then three more with the same choices give one line of five, priced 1995, keeping the first cartId |
| CartEngine.Cart.constructor | App.tsx:16-19 | the cart starts empty with nothing being edited |
| CartEngine.Cart.EditItem | App.tsx:123-131 | editing selects the first line with that cartId, as `find` does, when one exists, and otherwise keeps the edited line; the lines are untouched |
| CartEngine.Cart.CloseModal | App.tsx:117-121 | closing clears the edited line |
| CartEngine.Cart.ConfirmSelection | App.tsx:181-214 | the new lines are `Confirm` of the old; with a fresh token and a positive quantity, cartIds stay unique and quantities positive, and every line stays price-consistent when the merged line's unit price agrees |
| CartEngine.Cart.SetQuantity | App.tsx:216-231 | the new lines are `UpdateQuantity` of the old, and the line invariant is preserved |
| CartEngine.Cart.RemoveFromCart | App.tsx:233-235 | the new lines are the old lines without the cartId, and the line invariant is preserved |
| Checkout.ChangeInfo | App.tsx:240-251 | a phone is reduced to its digits and stored only if at most ten remain; name and table are stored verbatim; other fields are kept |
| Checkout.ChangeKeepsPhoneWellFormed | App.tsx:243-247 | the stored phone always stays at most ten digits, and a well-formed number is stored unchanged |
| Checkout.ApplyOrderType | App.tsx:253-255 | take-out clears the table number; nothing else changes |
| Checkout.Validate | App.tsx:257-266 | success iff the cart is non-empty, name and phone are not blank and the phone is ten digits, carrying lines, total, customer and type; each of the first three errors occurs exactly when its check is the first to fail |
| Checkout.PhoneChecksAgree | App.tsx:259-260 | a ten-digit phone is never blank |
| Checkout.CheckoutForm.constructor | App.tsx:37-38 | the form starts empty, dine-in, with no message |
| Checkout.CheckoutForm.Change | App.tsx:240-251 | an edit clears the message and applies `ChangeInfo` |
| Checkout.CheckoutForm.SetOrderType | App.tsx:253-255 | the order type is set, and the table is cleared when it changes to take-out |
| Checkout.CheckoutForm.Submit | App.tsx:257-266 | returns `Validate`'s result and shows its error, or clears the message |
| Text.DigitsOnly | App.tsx:244 | the digit filter keeps only digits, never lengthens, and loses no digit that occurs |
| Text.DigitsOnlyCounts | App.tsx:244 | each digit occurs in the result as often as in the input, and no other character occurs |
| Text.DigitsOnlyAppend | App.tsx:244 | the filter distributes over concatenation, so the digits keep their order |
| Text.DigitsOnlyChar | App.tsx:244 | one character is kept iff it is a digit |
| Text.DigitsOnlyKeepsDigits | App.tsx:244 | a string of digits passes the filter unchanged |
| Text.NatToString | components/PrintableOrder.tsx:34 | a printed number is a non-empty string of digits |
| Text.JoinFrame | components/PrintableOrder.tsx:113 | a joined list starts with its first part and ends with its last |
| Text.JoinInjective | App.tsx:153-156 | joining non-empty parts that do not contain the separator loses nothing: equal joins come from equal lists |
| Sorting.SortBySpec | App.tsx:138 | sorting yields a sorted permutation |
| Sorting.SortIgnoresOrder | App.tsx:138 | permutations sort to the same sequence when keys identify elements |
| Dict.CountTally | components/Cart.tsx:43-50 | a tally adds, per name, the quantities listed under that name |
| Dict.TallyDistinct | components/Cart.tsx:43-50 | a tallied dictionary has each name once |
| Dict.TallyInto | components/Cart.tsx:43-50 | the in-place loop computes `Tally` |
| Dict.FindPut | components/AvailabilityManager.tsx:102-105 | after a write, the key holds the new value and other keys are unchanged |
| SelectionEditor.AppliedSpec | components/ItemModal.tsx:87-91 | a taken step sets the stepped name's count, moves the total by the difference, deletes a name at zero, touches no other name, and keeps names distinct and counts positive |
| SelectionEditor.BoundedStepAsWrittenCount | components/ItemModal.tsx:77-114 | as written, a step is taken iff the total after it stays within the limit, decreases included: a refused step changes nothing, a taken one sets the count and the total |
| SelectionEditor.BoundedStepAsWrittenFrame | components/ItemModal.tsx:77-114 | as written, a step touches only the stepped name, and keeps names distinct and counts positive |
| SelectionEditor.BoundedStepAsWrittenKeepsLimit | components/ItemModal.tsx:77-114 | as written, a total within the limit stays within it |
| SelectionEditor.DecreaseRefusedAsWritten | components/ItemModal.tsx:84 | three donenesses with a limit of one: the minus click is refused |
| SelectionEditor.BoundedStepsAgree | components/ItemModal.tsx:77-114 | the written and the corrected step differ exactly on a decrease that leaves the total over the limit and would change the choices |
| SelectionEditor.BoundedStepCount | components/ItemModal.tsx:77-114 | with the corrected step of the Findings row, an increase is taken iff the new total stays within the limit, a decrease always; an increase never leaves the total over the limit |
| SelectionEditor.BoundedStepFrame | components/ItemModal.tsx:77-114 | the corrected step touches only the stepped name, and keeps names distinct and counts positive |
| SelectionEditor.DecreaseAlwaysApplies | components/ItemModal.tsx:77-114 | with the corrected step, a decrease of a chosen name always lowers its count |
| SelectionEditor.BoundedStepKeepsLimit | components/ItemModal.tsx:77-114 | with the corrected step, a total within the limit stays within it |
| SelectionEditor.Names | components/ItemModal.tsx:173 | the names of an option list, position by position |
| SelectionEditor.ArrayStepCount | components/ItemModal.tsx:117-143 | an increase is refused exactly when the group total has reached the limit; otherwise the count moves by `change`, and a count at or below zero is removed; other names are untouched |
| SelectionEditor.ArrayStepShape | components/ItemModal.tsx:135-141 | a list step keeps names distinct and quantities positive |
| SelectionEditor.ArrayStepKeepsLimit | components/ItemModal.tsx:131 | single-unit clicks keep a group within its limit |
| SelectionEditor.GroupTotalAll | components/ItemModal.tsx:126 | without a group, the group total is the plain total |
| SelectionEditor.AddonStepCount | components/ItemModal.tsx:145-153 | the clicked addon's count moves by `change` (removed at zero or below); other addons are untouched |
| SelectionEditor.AddonStepPrice | components/ItemModal.tsx:145-159 | the running price moves by the addon's price times the change in its count |
| SelectionEditor.AddonStepShape | components/ItemModal.tsx:145-153 | addon ids stay distinct and quantities positive |
| SelectionEditor.ConfirmCheck | components/ItemModal.tsx:205-258 | on success, the selection is handed on unchanged |
| SelectionEditor.ConfirmCheckIff | components/ItemModal.tsx:209-242 | accepted iff every quota holds; each of the doneness, sauce and multi-choice messages appears iff its check is the first to fail |
| SelectionEditor.Set1Quotas | components/ItemModal.tsx:209-233 | two set-1 with 2 donenesses, 4 sauces, 2 drinks and 2 fried sides pass; only 2 sauces give "請選擇 4 份醬料" |
| SelectionEditor.EmptyBundleShort | components/ItemModal.tsx:209-211 | an item needing donenesses with nothing chosen fails on donenesses first |
| SelectionEditor.Selection.Price | components/ItemModal.tsx:155-159 | the price on the confirm button equals the price the cart line will carry |
| SelectionEditor.Selection.constructor | components/ItemModal.tsx:47-75 | opening on a line copies its quantity and choices; otherwise one unit and nothing chosen |
| SelectionEditor.Selection.ChangeCount | components/ItemModal.tsx:77-114 | on the multi-choice counter a plus on an unavailable option and a minus at count 0 (disabled buttons) do nothing; any other click clears the message and takes the corrected bounded step; the selection stays tidy |
| SelectionEditor.Selection.ChangeListCount | components/ItemModal.tsx:117-143 | a plus on an unavailable choice and a minus at count 0 (disabled buttons) do nothing; any other click clears the message and takes a list step within the group; the selection stays tidy |
| SelectionEditor.Selection.ChangeAddon | components/ItemModal.tsx:145-153 | applies the addon step and leaves the message |
| SelectionEditor.Selection.SetNotes | components/ItemModal.tsx:343 | stores the notes text |
| SelectionEditor.Selection.DecreaseQuantity | components/ItemModal.tsx:350 | the quantity drops by one but never below one, and choices are kept |
| SelectionEditor.Selection.IncreaseQuantity | components/ItemModal.tsx:352 | the quantity rises by one |
| SelectionEditor.Selection.Confirm | components/ItemModal.tsx:205-258 | returns `ConfirmCheck` and shows its shortfall, or clears the message |
| CartSummary.TallyAddonsInto | components/Cart.tsx:51 | the addon loop computes `TallyAddons` |
| CartSummary.Aggregate | components/Cart.tsx:33-54 | the loop over the lines computes `SummaryOf` |
| CartSummary.SummaryCounts | components/Cart.tsx:43-50 | each category's per-name total is that name's quantity summed over all lines, with each name once |
| CartSummary.TallyAddonsSpec | components/Cart.tsx:51 | an addon name that occurs gets its quantities added and its last price; others are kept |
| CartSummary.SummaryAddons | components/Cart.tsx:51 | each addon name's summary is its total quantity over all lines and its last price in cart order; names no line orders are absent |
| Ticket.DisplayName | components/PrintableOrder.tsx:16 | the replacement never lengthens a name |
| Ticket.DisplayNameKeeps | components/PrintableOrder.tsx:16 | a name without 半 is printed unchanged |
| Ticket.DisplayNameExamples | components/PrintableOrder.tsx:16 | 半全餐 prints as 套餐, 牛排半套餐 as 牛排套餐, 炸雞 as itself |
| Ticket.MergeMainItems | components/PrintableOrder.tsx:14-29 | the loop computes `MainItems` |
| Ticket.MainItemsKeys | components/PrintableOrder.tsx:14-29 | one merged line per display name, in order of first occurrence |
| Ticket.MainItemsFind | components/PrintableOrder.tsx:14-29 | each display name's merged line carries the summed quantities and prices of its lines; names no line has are absent |
| Ticket.FirstOccurrencesMembers | components/PrintableOrder.tsx:14-29 | the merged names are exactly the names that occur |
| Ticket.CollectSections | components/PrintableOrder.tsx:44-91 | the second loop computes `TalliesOf` |
| Ticket.SectionCounts | components/PrintableOrder.tsx:44-91 | each section counts, per name, the quantities all lines list under it, with each name once |
| Ticket.ExtrasQty | components/PrintableOrder.tsx:70-90 | a line's 加購 count for a name is its addons with that label plus its quantity when it is the single-choice addon |
| Ticket.FormatCategoryEmpty | components/PrintableOrder.tsx:94-99 | a category prints as nothing exactly when it is empty |
| Ticket.NonEmptyAppend | components/PrintableOrder.tsx:111 | dropping empty parts distributes over concatenation |
| Ticket.TicketParts | components/PrintableOrder.tsx:102-113 | between header and footer, the ticket holds exactly the non-empty body parts in order |
| Ticket.TicketFrame | components/PrintableOrder.tsx:102-113 | the ticket starts with `單號:<id>` and ends with `總金額:$<total>` |
| Ticket.FormatOrder | components/PrintableOrder.tsx:10-114 | the method computes `TicketText` |
| Availability.FromEntriesFind | components/AvailabilityManager.tsx:56 | a lookup in `Object.fromEntries` gives the last value written for the key; no key repeats |
| Availability.LastValueSome | components/AvailabilityManager.tsx:56 | a value is found iff some pair carries the key |
| Availability.LastValueLast | components/AvailabilityManager.tsx:56 | the value found is that of a pair carrying the key that no later pair overrides |
| Availability.MenuPairsMembers | components/AvailabilityManager.tsx:56 | every item of every category contributes its pair |
| Availability.MenuPairsFrom | components/AvailabilityManager.tsx:56 | every pair comes from some item |
| Availability.Pairs | components/AvailabilityManager.tsx:56-62 | one `[key, flag]` pair per element, in order, for items (`id`), addons (`id`) and options (`name`) alike |
| Availability.PairsOfFind | components/AvailabilityManager.tsx:58-64 | a list's entry is present exactly when the catalogue holds that list |
| Availability.DeriveMenu | components/AvailabilityManager.tsx:56 | an item id's flag is the last item with that id; an id has a flag iff some item carries it |
| Availability.DeriveAddons | components/AvailabilityManager.tsx:57 | an addon id's flag is the last addon with that id; an id has a flag iff some addon carries it |
| Availability.DeriveOptions | components/AvailabilityManager.tsx:58-64 | each list present gets its own name-to-flag dictionary (last option wins); a missing list has none |
| Availability.DeriveWellFormed | components/AvailabilityManager.tsx:56-64 | no derived dictionary repeats a key |
| Availability.ToggleEntry | components/AvailabilityManager.tsx:108-116 | a menu or addon toggle sets exactly that flag and changes no other dictionary |
| Availability.ToggleOption | components/AvailabilityManager.tsx:97-107 | an options toggle sets exactly that flag of that list (creating the list if missing); other lists, menu and addons are unchanged |
| Availability.ToggleWithoutList | components/AvailabilityManager.tsx:97-116 | an options toggle with no list type changes nothing |
| Availability.ToggleWellFormed | components/AvailabilityManager.tsx:95-117 | toggles keep every dictionary free of repeated keys |
| Availability.ToggleBack | components/AvailabilityManager.tsx:91-117 | toggling a flag away and back restores the flags exactly, so `hasChanges` returns to its earlier value |
| Availability.ToggleDiffers | components/AvailabilityManager.tsx:91-116 | toggling a menu or addon flag to a different value is a change |
| Availability.PutBack | components/AvailabilityManager.tsx:102-105 | writing another value and then the old one restores a dictionary |
| Availability.Manager.constructor | components/AvailabilityManager.tsx:32-45 | the screen starts with empty state and no changes |
| Availability.Manager.Load | components/AvailabilityManager.tsx:47-71 | a fetched catalogue becomes the loaded one, with flags derived afresh (no changes, well-formed); a failed fetch only sets the load error |
| Availability.Manager.Toggle | components/AvailabilityManager.tsx:95-117 | the flags become `Toggled`, the success message is cleared, and well-formedness is kept |
| Availability.Manager.Save | components/AvailabilityManager.tsx:119-132 | failure shows the server's message, or the default when it is missing or empty, and leaves flags and loaded state; success shows the saved message, and a reload that succeeds replaces the loaded state and derives the flags afresh (no changes), while one that fails sets the load error and keeps the flags |
| OrderBoard.StatusColor | components/AdminDashboard.tsx:8-17 | every status has one of the six classes, and red iff the status is the error status |
| OrderBoard.StatusColorsDistinct | components/AdminDashboard.tsx:8-17 | two statuses share a colour iff they are equal |
| OrderBoard.Columns | components/AdminDashboard.tsx:186 | the columns are the listed statuses other than 已完成 |
| OrderBoard.BoardColumns | components/AdminDashboard.tsx:186 | the board has exactly the four columns 待店長確認, 待處理, 製作中, 可以取餐, in that order |
| OrderBoard.WithStatusOrders | components/AdminDashboard.tsx:137 | the optimistic update changes only the status of the orders with that id |
| OrderBoard.WithSameStatus | components/AdminDashboard.tsx:137 | writing a status the orders already have changes nothing |
| OrderBoard.ActiveOrders | components/AdminDashboard.tsx:145 | the active orders are exactly those neither completed nor failed |
| OrderBoard.ColumnOrders | components/AdminDashboard.tsx:190 | a column lists exactly the orders with its status |
| OrderBoard.OrderPlacement | components/AdminDashboard.tsx:186-190 | an order is in its own status's column only, and on the board iff active |
| OrderBoard.ColumnsPartition | components/AdminDashboard.tsx:186-190 | the four columns' lengths add up to the tab's active count |
| OrderBoard.Board.constructor | components/AdminDashboard.tsx:135-143 | the board starts with the given orders and no alerts |
| OrderBoard.Board.UpdateStatus | components/AdminDashboard.tsx:135-143 | with nothing landing during the wait, success keeps the optimistic update and failure restores the saved list and appends the alert |
| OrderBoard.Board.BeginUpdate | components/AdminDashboard.tsx:136-137 | the click copies the list as it is and changes the status on the board at once |
| OrderBoard.Board.FinishUpdate | components/AdminDashboard.tsx:138-142 | after the server answers, success leaves the board as it is by then; failure puts back the copy from click time and appends the alert |
| OrderBoard.OverlappingClicksLoseUpdate | components/AdminDashboard.tsx:135-143 | when a second click is accepted while an earlier one waits and the earlier one is then refused, the rollback wipes the accepted change off the board |
| OrderBoard.Board.ActiveCount | components/AdminDashboard.tsx:160 | the badge never exceeds the number of orders |
| Carousel.Prev | components/Carousel.tsx:12-16 | a valid index stays valid |
| Carousel.Next | components/Carousel.tsx:18-22 | a valid index stays valid |
| Carousel.StepsAreModular | components/Carousel.tsx:12-22 | on a valid index, forward is +1 and back is −1 modulo the slide count |
| Carousel.StepsInverse | components/Carousel.tsx:12-22 | back undoes forward and forward undoes back |
| Carousel.AdvanceCycles | components/Carousel.tsx:28-33 | repeated forward steps cycle with period equal to the slide count |
| Carousel.NoSlidesDrifts | components/Carousel.tsx:12-22 | with no slides, steps leave the range (1 and −1) |
| Carousel.Slides.constructor | components/Carousel.tsx:10 | the carousel starts at slide 0 |
| Carousel.Slides.PrevSlide | components/Carousel.tsx:12-16 | the index becomes `Prev`, staying in range |
| Carousel.Slides.NextSlide | components/Carousel.tsx:18-22 | the index becomes `Next`, staying in range |
| Carousel.Slides.GoToSlide | components/Carousel.tsx:24-26 | the index is set as given |

## Left out

- Submitting an order (`handleSubmitAndPrint`), its notifications, and clearing the cart after the ticket is printed: they follow a network call and the print dialog.
- Network calls (`apiService`): fetching the menu and orders, submitting an order, and saving availability and statuses. Their outcomes are parameters (`Load`'s `fetched`, `Save`'s `outcome`, `UpdateStatus`'s `outcome`, `Confirm`'s `token` standing for `Date.now()`).
- The AI assistant and the AI cart check: external model calls.
- Timers: the carousel's `setInterval` and the delayed resets after closing panels. `Carousel.AdvanceCycles` describes what repeated timer ticks do.
- Rendering (JSX), printing through the browser, `sessionStorage`, and the welcome, order-query and confirmation dialogs: presentation only. `alert` is modelled as the board's `alerts` list.
- Loading and submitting flags (`isLoading`, `isSaving`, `isSubmitting`, `isRefreshing`): UI feedback only.
- The order list's date range, statistics and `fetchAllOrders`, and the sort by `createdAt` inside each column: dates are not modelled. `ColumnOrders` keeps the list order.
- `handleSelectItem`'s availability check and the menu page: outside the modelled cart and editor.
- The cart panel opening after an edit (`isEditingFromCart`): a UI flag.
- CartLine.KeyOf: the cart key is a structured value rather than JSON text, with the joined list keys as text. The collisions the `,` separator allows are reproduced (`CartLine.CommaNamesCollide`); the ones JSON quoting could add or remove inside the mapping strings are not modelled.
- CartLine.EqualKeysAgree: the single-choice addon agrees only when neither is literally named `none`, because `none` is also the key for "nothing selected".
- CartLine.EqualKeysAgree: the addon, sauce, dessert and pasta tokens agree only for names without `,`, since the joined list keys cannot tell `x:1,y` from `x` and `y`.
- CartLine.StableObjectString: names are ordered by code points. `localeCompare` and JavaScript's UTF-16 string order are not modelled. `Object.fromEntries` moving integer-like keys to the front is not modelled either.
- Availability.HasChanges compares the flag dictionaries structurally, including entry order; the `JSON.stringify` text is not modelled, and neither is the reordering of integer-like keys.
- The editor's single-choice addon has no setter in the editor; it is only copied from an edited line.
- Prices are integers. `parseFloat` on prices and all floating point are not modelled.
- Ticket.TicketId: the order id passed with new order data is always a string; a missing id printing as `null` or `undefined` is not modelled.
- OrderBoard.Board.UpdateStatus: the server's message is always a string; an absent message printing as `undefined` is not modelled.
- OrderBoard.Board.UpdateStatus runs as one step, with no interleaving. In the source, anything that lands during the `await` is discarded by the rollback: a 30-second `fetchAllOrders` poll, or another click the server accepted. `BeginUpdate` and `FinishUpdate` model the two halves, and `OverlappingClicksLoseUpdate` shows the lost click. The poll is not modelled (see `fetchAllOrders` above).
- The ticket's 附餐 map is filled by nothing and never printed, and `formatCategory`'s prefix is always empty: both are dropped. The `.replace(/組合餐/g, '組合餐')` step replaces the text with itself and is dropped.
- The option lists' rendering and grouping (which lists feed which counters) are fixed by `Selection.Group` and `Selection.ListLimit` rather than modelled from the JSX.
- SelectionEditor.Selection.ChangeCount: the class takes the corrected step (`BoundedStep`), which lets a decrease through over the limit; the step as written is `BoundedStepAsWritten`, and `BoundedStepsAgree` says exactly where the two differ.
- CartEngine.AddKeepsInvariant: line prices stay consistent only when `MergePriceAgrees` holds. A merge after a menu refresh changed the item's price breaks it (`RefreshedMergeBreaksPrice`).
- CartEngine.ConfirmKeepsInvariant: as for `AddKeepsInvariant`, price consistency after a merge needs `MergePriceAgrees`.
- CartEngine.AddTotalMerged: the total rises by exactly the unit price times the quantity only when `MergePriceAgrees` holds; otherwise it moves by the merged line's change of price.
- OrderBoard.Board.ActiveCount states only the bound; how the count splits over the columns is stated by `OrderBoard.ColumnsPartition`.

## Findings

| source | as written | input that shows it | evidently intended | confidence | as-written member | corrected member |
|---|---|---|---|---|---|---|
| components/ItemModal.tsx:77-114 | a doneness or option click is refused whenever the total after it exceeds the limit, decreases included | after lowering the quantity to 1 with donenesses {三分熟:1, 五分熟:1, 七分熟:1}, the minus on 三分熟 leaves the choices unchanged, so the doneness buttons alone cannot bring the selection back within the limit (raising the quantity again does) | the limit guards increases only, as the list counters do at line 131 | medium, not executed | SelectionEditor.DecreaseRefusedAsWritten | SelectionEditor.DecreaseAlwaysApplies |
