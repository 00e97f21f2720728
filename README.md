# OrderEase front end: order and cart logic in Dafny

OrderEase is a restaurant ordering front end. Customers browse the menu, fill a
cart, place an order with their name and phone number, and look up their past
orders by phone. Kitchen staff see the day's orders on a board, mark them
complete, create orders for walk-in customers and edit or extend existing
orders. This project models the client-side logic behind those screens:
- the cart rules and the order store;
- the forms and dialogs that build order requests;
- the list views over orders and the menu.

It proves what that logic promises about its lists, strings and requests.

Every network request is a parameter of the operation that sends it: the
response body, a failure, or a success flag. The model states what the screen
does with each outcome. Timestamps are integers as received. Prices and
quantities are unbounded integers, so every sum is exact.

Module by module:

- `Types`: the records of `src/lib/types.ts`, with the optional `served`,
  `active` and `servedQty` fields the order-edit dialog and the order card use.
  An order's status is the string the server sent; the declared union is the
  predicate `InStatusUnion`.
- `Seqs`: JavaScript's `filter`, `findIndex`, `indexOf` and
  `Array.from(new Set(...))`, with their properties.
- `Text`: the input guards (digits only, at most 10; letters and whitespace
  only), `trim`, `slice(-10)`, the "+91" prefix, ASCII `toLowerCase` and
  global literal `replace`.
- `Cart`: the add / remove / update-quantity rules. Three screens repeat
  them: the store, the kitchen create page and the create-order form.
- `OrderMapping`: the wire-to-`Order` mapping, the stable newest-first sort
  and the local "done" patch.
- `OrderStore`: the shared store (`src/context/OrderContext.tsx`), a class
  with the store's state fields.
- `OrderPayload`, `KitchenCreate`, `MyCart`, `CreateOrderForm`, `ItemRows`:
  the order-entry screens and the request bodies they post.
- `UpdateOrder`: the order-edit dialog. Served lines may not shrink or go.
  Change detection compares the current lines with the initial ones. The
  submit payload is built from both lists, and the category tabs are sorted.
- `MyOrders`, `MyOrdersContent`: the two order-history screens.
- `Kitchen`, `OrderCard`, `OrdersSnapshot`: the kitchen board's columns, the
  order card's controls and the dashboard's order queue.
- `MenuPage`: the customer menu, its de-duplicated categories, section ids
  and per-category sections.
- `SalesChart`: the chart series that combines today's and yesterday's
  revenue.

Behaviours of the code that the model keeps as written and proves:

- The order-edit dialog matches menu items to order lines by name and keys
  lines by menu id. Two lines of one order can therefore carry the same menu
  id:
  - removal then decides by the first such line but filters out all of them,
    including a served one (`UpdateOrder.RemoveTakesServedDuplicate`);
  - change detection, which builds a `Map` where the last entry wins, reports
    a change for an untouched order (`UpdateOrder.DuplicateLinesShowChange`).

  With distinct menu ids, neither happens: served lines are safe and an
  untouched order shows no change (`UpdateOrder.RemoveItemSpec`,
  `UpdateOrder.NoChangeWhenSame`). The dialog opens with distinct menu ids
  whenever the order's line names are distinct and so are the menu's ids
  (`UpdateOrder.InitializeItemsDistinct`).
- The order-history page marks an order completed when its status is
  `'completed'`. That value is not in the declared status union, so no typed
  order ever shows as completed there (`MyOrders.NoTypedOrderCompleted`).
- The kitchen board defines a handler that sends only paid orders to
  `completeOrder` and passes it to each card as `onOrderCompleted`. The order
  card takes only `order` from its props, so that handler is never called
  (`Kitchen.CompletionRequest` models it as written). Orders are completed
  through the card's Ready button instead, which is enabled for any order
  that is not done and not served, paid or not (`Kitchen.ReadyMovesOrder`).
- The customer cart posts no `paymentMethod`, and neither does the
  create-order dialog. The kitchen create page and the create-order form post
  `'pay-later'`.
- The store's `fetchMyOrders` keeps the old list when a request fails. The
  order-history page empties its list and shows a message instead.

## Model

| member | source | states |
|---|---|---|
| Seqs.Filter | src/context/OrderContext.tsx:129 | `filter` keeps exactly the elements that pass, each from the input, and is never longer |
| Seqs.FilterConcat | src/context/OrderContext.tsx:129 | filtering a concatenation filters each part and keeps their order |
| Seqs.FilterPartition | src/app/kitchen/page.tsx:24-25 | a filter and its complementary filter together hold every element exactly as often as the input |
| Seqs.FindIndex | src/components/UpdateOrderDialog.tsx:128 | `findIndex` gives the first passing position, or -1 exactly when none passes |
| Seqs.Dedupe | src/app/menu/page.tsx:34 | `Array.from(new Set(...))` has no duplicates and the same values as its input |
| Seqs.DedupeSnoc | src/app/menu/page.tsx:34 | appending a seen value leaves the set list unchanged; a new value goes at the end |
| Seqs.IndexOf | src/app/menu/page.tsx:34 | the first position of a value that occurs |
| Seqs.DedupeFirstOccurrence | src/app/menu/page.tsx:34 | the set list keeps values in the order of their first occurrence |
| Text.EditPhone | src/app/kitchen/create/page.tsx:202-207 | the phone field takes the typed text only if it is all digits and at most 10 long, otherwise keeps its value; a valid value stays valid |
| Text.EditName | src/app/my-cart/page.tsx:90-95 | the name field takes the typed text only if every character is an ASCII letter or whitespace; a rejected text has an offending character |
| Text.TrimStart | src/app/my-cart/page.tsx:104-105 | the suffix left after stripping leading whitespace starts with a non-whitespace character |
| Text.TrimEnd | src/app/my-cart/page.tsx:104-105 | the prefix left after stripping trailing whitespace ends with a non-whitespace character |
| Text.TrimEmptyIffBlank | src/app/my-cart/page.tsx:104-105 | `trim()` is empty exactly when every character is whitespace |
| Text.TakeLast | src/components/OrderCard.tsx:58 | `slice(-10)` is the suffix of length min(10, length) |
| Text.TakeLastUndoesCountryCode | src/app/kitchen/create/page.tsx:34 | the last 10 characters of "+91" followed by a 10-character number are that number |
| Text.LowerAscii | src/components/CreateOrderDialog.tsx:90 | lower-casing keeps the length and the spaces and leaves no upper-case letter |
| Text.ReplaceAllChars | src/app/menu/page.tsx:97 | a global replacement's characters come from the input or the replacement |
| Text.ReplaceSpaces | src/components/CreateOrderDialog.tsx:90 | `replace(/ /g, '-')` turns each space into a dash and keeps every other character in place |
| Cart.LookupMenu | src/components/CreateOrderForm.tsx:47 | `menuData.find` by id gives the first menu entry with that id, and nothing exactly when no entry has it |
| Cart.FirstIndex | src/context/OrderContext.tsx:117 | the first line with a present id |
| Cart.TotalConcat | src/context/OrderContext.tsx:146-147 | total and count of a concatenation are the sums of the parts' totals and counts |
| Cart.TotalAround | src/context/OrderContext.tsx:146-147 | total and count split around any line |
| Cart.AddExisting | src/context/OrderContext.tsx:116-123 | adding an id already in the cart keeps the length and every other line, and adds one to that id's quantity |
| Cart.AddNew | src/context/OrderContext.tsx:124 | adding a new id appends one line with quantity 1 at the end |
| Cart.AddItemTotals | src/context/OrderContext.tsx:116-126 | each add raises the count by 1 and the total by the item's price (the stored price for an existing line) |
| Cart.AddItemDistinct | src/context/OrderContext.tsx:116-126 | adding keeps line ids distinct |
| Cart.RemoveKeepsOthers | src/context/OrderContext.tsx:128-130 | removal leaves no line with the id, keeps every other line, and keeps relative order |
| Cart.FilterDistinct | src/context/OrderContext.tsx:129 | a filter of a cart with distinct ids has distinct ids |
| Cart.RemoveAbsent | src/context/OrderContext.tsx:128-130 | removing an absent id changes nothing |
| Cart.RemoveSplit | src/context/OrderContext.tsx:128-130 | in a well-formed cart, removal cuts out exactly the one line with that id |
| Cart.RemoveTotals | src/context/OrderContext.tsx:128-130 | removal lowers total and count by that line's subtotal and quantity |
| Cart.UpdateNonPositiveRemoves | src/context/OrderContext.tsx:132-135 | updating to a quantity of 0 or less is removal |
| Cart.UpdatePositive | src/context/OrderContext.tsx:136-138 | updating to a positive quantity sets it on the matching line only, keeps order and length, and changes the total by the difference |
| Cart.UpdateDistinct | src/context/OrderContext.tsx:132-140 | every update keeps line ids distinct |
| Cart.EmptyCartTotals | src/context/OrderContext.tsx:142-147 | an empty cart totals 0 with 0 units |
| Cart.TwoItemScenario | src/context/OrderContext.tsx:116-147 | A at 100 once and B at 50 twice: total 200, count 3 |
| OrderMapping.MapOrderFaithful | src/context/OrderContext.tsx:50-64 | each wire order maps field by field (id from `_id`, token from `orderToken`, total from `amount`, lines from `lineItems` with name from `sku` and quantity from `qty`), and the line amounts agree |
| OrderMapping.MappedLineAmount | src/context/OrderContext.tsx:58-63 | the mapped lines' Σ price×quantity equals the wire lines' Σ price×qty |
| OrderMapping.Insert | src/context/OrderContext.tsx:66 | inserting into a newest-first list keeps it newest first and adds exactly the one order |
| OrderMapping.SortDesc | src/context/OrderContext.tsx:66 | the sort is a permutation and newest first |
| OrderMapping.SortedDescPairwise | src/context/OrderContext.tsx:66 | newest first between neighbours is newest first between any two |
| OrderMapping.FilterSortedDesc | src/app/kitchen/page.tsx:24-25 | a filter of a newest-first list is newest first |
| OrderMapping.InsertStable | src/context/OrderContext.tsx:66 | an insertion puts the new order before the other orders with its timestamp |
| OrderMapping.SortStable | src/context/OrderContext.tsx:66 | orders with equal timestamps keep their received order (the sort is stable) |
| OrderMapping.SortKeepsSorted | src/context/OrderContext.tsx:162 | re-sorting a newest-first list changes nothing |
| OrderMapping.FetchedOrdersSpec | src/context/OrderContext.tsx:50-66 | a fetched list is newest first and holds exactly the mapped wire orders with their multiplicities |
| OrderMapping.MarkDoneSpec | src/context/OrderContext.tsx:158-168 | the patch sets status 'done' on orders with that id and changes nothing else, so a newest-first list stays newest first |
| OrderStore.InProgressCount | src/context/OrderContext.tsx:148 | the in-progress count plus the number of done orders is the list length |
| OrderStore.Store.constructor | src/context/OrderContext.tsx:33-38 | the initial state: empty lists, kitchen loading, no error |
| OrderStore.Store.AddToCart | src/context/OrderContext.tsx:116-126 | the cart becomes the add rule's result, ids stay distinct and the count rises by 1 |
| OrderStore.Store.RemoveFromCart | src/context/OrderContext.tsx:128-130 | the cart becomes the removal's result and holds no line with the id |
| OrderStore.Store.UpdateQuantity | src/context/OrderContext.tsx:132-140 | the cart becomes the update rule's result and ids stay distinct |
| OrderStore.Store.ClearCart | src/context/OrderContext.tsx:142-147 | the cart is empty and total and count are 0 |
| OrderStore.Store.FetchKitchenOrders | src/context/OrderContext.tsx:41-73 | success stores the mapped, newest-first orders and clears the error; failure keeps the list and sets the message; loading ends |
| OrderStore.Store.FetchMyOrders | src/context/OrderContext.tsx:75-105 | an empty phone or one not 10 long sends nothing and changes nothing; success stores the mapped, newest-first orders; failure keeps the list |
| OrderStore.Store.CompleteOrder | src/context/OrderContext.tsx:150-182 | only a 200 response returns true; then both lists mark the order done, the kitchen list newest first; otherwise nothing changes |
| OrderStore.Store.Mount | src/context/OrderContext.tsx:66-113 | the kitchen fetch always runs: success stores the newest-first list, failure keeps the list and sets the error; the customer fetch runs only with a truthy cached phone, keeps the list on failure, and leaves its loading flag off |
| OrderPayload.CartLinesSpec | src/app/my-cart/page.tsx:52-62 | one payload entry per cart line in order (sku from the name, qty, price), summing to the cart total |
| OrderPayload.NewOrderPhoneRoundTrip | src/app/kitchen/create/page.tsx:108-119 | the posted phone is "+91" followed by the typed number, and its last 10 characters give that number back |
| OrderPayload.CustomerIncompleteSpec | src/components/CreateOrderForm.tsx:122-123 | the customer is incomplete exactly when the name is all whitespace or the phone is not 10 long |
| KitchenCreate.SubmitDisabledSpec | src/app/kitchen/create/page.tsx:150-153 | submit is disabled iff there are no items or a submission is running, or, in create mode only, the name is blank or the phone is not 10 long |
| KitchenCreate.CreatePage.constructor | src/app/kitchen/create/page.tsx:21-29 | the page starts with empty fields and no items |
| KitchenCreate.CreatePage.Prefill | src/app/kitchen/create/page.tsx:31-35 | in update mode with an order, the fields take its name and the last 10 characters of its phone; otherwise they are kept |
| KitchenCreate.CreatePage.AddItem | src/app/kitchen/create/page.tsx:46-56 | items become the add rule's result, with one more unit and distinct ids |
| KitchenCreate.CreatePage.UpdateQuantity | src/app/kitchen/create/page.tsx:58-66 | items become the update rule's result; 0 or less removes the line |
| KitchenCreate.CreatePage.EditName | src/app/kitchen/create/page.tsx:188-193 | the name field takes any text |
| KitchenCreate.CreatePage.EditPhone | src/app/kitchen/create/page.tsx:202-207 | the phone field follows the digits-only, at-most-10 guard |
| KitchenCreate.CreatePage.Submit | src/app/kitchen/create/page.tsx:68-148 | update mode with an order sends its id, the lines and the stored customer; update mode without one sends nothing; create mode sends a pay-later order with "+91" before the phone; the lines sum to the total |
| MyCart.SavedOrEmpty | src/app/my-cart/page.tsx:28-42 | a field starts from its saved value when that is truthy, else empty |
| MyCart.PlaceOrderEnabledPayload | src/app/my-cart/page.tsx:52-62 | an order the button lets through has lines, a non-blank name, a 13-character "+91" phone whose last 10 characters are the typed number, no payment method, and lines summing to the cart total |
| MyCart.CartAfterPlaceOrder | src/app/my-cart/page.tsx:73-80 | the cart is cleared exactly when the response carries a truthy checkout URL; otherwise it is kept |
| CreateOrderForm.AddFromMenuSpec | src/components/CreateOrderForm.tsx:46-59 | an id missing from the menu data changes nothing; a known one adds one unit under that id; ids stay distinct |
| CreateOrderForm.Form.constructor | src/components/CreateOrderForm.tsx:37-41 | the form starts closed and empty |
| CreateOrderForm.Form.AddItem | src/components/CreateOrderForm.tsx:46-59 | items become the menu-lookup add's result; an unknown id leaves them unchanged |
| CreateOrderForm.Form.UpdateQuantity | src/components/CreateOrderForm.tsx:61-69 | items become the update rule's result and ids stay distinct |
| CreateOrderForm.Form.EditName | src/components/CreateOrderForm.tsx:143-148 | the name field takes any text |
| CreateOrderForm.Form.EditPhone | src/components/CreateOrderForm.tsx:156-160 | the phone field follows the digits-only, at-most-10 guard |
| CreateOrderForm.Form.ResetForm | src/components/CreateOrderForm.tsx:71-76 | name, phone and items are emptied, the running flag is cleared, and total and count are 0 |
| CreateOrderForm.Form.Submit | src/components/CreateOrderForm.tsx:78-120 | posts a pay-later order whose lines sum to the total; success resets and closes the form, failure keeps everything |
| ItemRows.SlugSpec | src/components/CreateOrderDialog.tsx:90 | the slug has the name's length; each space becomes '-' and each other character its lower case |
| ItemRows.AnyIncomplete | src/components/CreateOrderDialog.tsx:112 | true iff some row has no SKU or a quantity of 0 or less |
| ItemRows.AddRowSpec | src/components/CreateOrderDialog.tsx:72-75 | the appended blank row (sku '', quantity 1, price 0) takes the counter's id, which no row has; ids stay valid with the counter bumped |
| ItemRows.ChangeRowSpec | src/components/CreateOrderDialog.tsx:77-98 | only the row with that id changes; a known SKU copies the menu price and slugged name, an unknown one changes the SKU only; a quantity edit sets the quantity; ids stay valid |
| ItemRows.RemoveRowValid | src/components/CreateOrderDialog.tsx:100-102 | removal keeps row ids valid |
| ItemRows.RemoveRowSpec | src/components/CreateOrderDialog.tsx:100-102 | removal drops exactly the row with that id (one row fewer), keeps the others, and changes nothing for an unknown id |
| ItemRows.RowsPayloadSpec | src/components/AddItemsToOrderDialog.tsx:114-118 | one (sku from the name, qty, price) entry per row, in row order, summing to the dialog's total |
| ItemRows.SubmitEnabledSpec | src/components/CreateOrderDialog.tsx:108-113 | an enabled submit has rows, each with a SKU and a positive quantity; the create dialog also needs a complete customer |
| ItemRows.CreateDialog.constructor | src/components/CreateOrderDialog.tsx:51-55 | the dialog starts empty with the counter at 1 |
| ItemRows.CreateDialog.SetOpen | src/components/CreateOrderDialog.tsx:59-70 | changing from closed to open resets name, phone and rows and sets the counter to 1; any other call keeps them |
| ItemRows.CreateDialog.AddRow | src/components/CreateOrderDialog.tsx:72-75 | appends the blank row with the counter's id and bumps the counter; ids stay valid |
| ItemRows.CreateDialog.ChangeItem | src/components/CreateOrderDialog.tsx:77-98 | the rows become the change's result; ids stay valid |
| ItemRows.CreateDialog.RemoveItem | src/components/CreateOrderDialog.tsx:100-102 | the rows become the removal's result; ids stay valid |
| ItemRows.CreateDialog.EditName | src/components/CreateOrderDialog.tsx:172-176 | the name field takes any text |
| ItemRows.CreateDialog.EditPhone | src/components/CreateOrderDialog.tsx:153-158 | the phone field follows the digits-only, at-most-10 guard |
| ItemRows.CreateDialog.Submit | src/components/CreateOrderDialog.tsx:115-151 | posts the rows and the "+91" customer with no payment method; the dialog closes only on status 200 with a token |
| ItemRows.AddItemsDialog.constructor | src/components/AddItemsToOrderDialog.tsx:53-55 | the dialog starts with no rows and the counter at 1 |
| ItemRows.AddItemsDialog.SetOpen | src/components/AddItemsToOrderDialog.tsx:59-68 | changing from closed to open resets the rows and the counter; any other call keeps them |
| ItemRows.AddItemsDialog.AddRow | src/components/AddItemsToOrderDialog.tsx:70-73 | appends the blank row with a fresh id and bumps the counter |
| ItemRows.AddItemsDialog.ChangeItem | src/components/AddItemsToOrderDialog.tsx:75-96 | the rows become the change's result; ids stay valid |
| ItemRows.AddItemsDialog.RemoveItem | src/components/AddItemsToOrderDialog.tsx:98-100 | the rows become the removal's result; ids stay valid |
| ItemRows.AddItemsDialog.Submit | src/components/AddItemsToOrderDialog.tsx:111-128 | sends the order id, its stored customer and the row lines; closes only on success |
| UpdateOrder.ToCurrentAllConcat | src/components/UpdateOrderDialog.tsx:65-77 | the line conversion distributes over concatenation |
| UpdateOrder.InitializeItemsSpec | src/components/UpdateOrderDialog.tsx:65-77 | the dialog's lines are, in order, exactly the order lines whose name matches a menu item |
| UpdateOrder.InitializeItemsFields | src/components/UpdateOrderDialog.tsx:65-77 | each line comes from the order, its initial quantity is its quantity and its menu id is the matching menu item's |
| UpdateOrder.InitializeItemsDistinct | src/components/UpdateOrderDialog.tsx:65-77 | distinct line names and distinct menu ids give dialog lines with distinct menu ids |
| UpdateOrder.UpdateKeepsServedAt | src/components/UpdateOrderDialog.tsx:133-138 | a served line survives an update with a quantity no lower |
| UpdateOrder.UpdateKeepsServed | src/components/UpdateOrderDialog.tsx:133-138 | no update lowers or removes a served line |
| UpdateOrder.UpdateUnserved | src/components/UpdateOrderDialog.tsx:137-143 | an existing unserved line is removed for 0 or less, otherwise gets the quantity; other lines are unchanged |
| UpdateOrder.UpdateAbsent | src/components/UpdateOrderDialog.tsx:144-159 | a new item with a positive quantity is appended unserved with initial quantity 0; 0 or less changes nothing |
| UpdateOrder.UpdateKeepsDistinct | src/components/UpdateOrderDialog.tsx:126-162 | updates keep menu ids distinct |
| UpdateOrder.RemoveItemSpec | src/components/UpdateOrderDialog.tsx:164-172 | removal is a no-op when the first line with the id is served; when that line is unserved (or absent) the result is exactly the lines with other ids; with distinct ids no served line is lost |
| UpdateOrder.FilterKeepsDistinct | src/components/UpdateOrderDialog.tsx:169 | a filter keeps menu ids distinct |
| UpdateOrder.RemoveTakesServedDuplicate | src/components/UpdateOrderDialog.tsx:164-172 | with a duplicated menu id, removal can take a served line |
| UpdateOrder.LastQuantity | src/components/UpdateOrderDialog.tsx:182 | the `Map` lookup is absent exactly when no line has the id |
| UpdateOrder.LastQuantityDistinct | src/components/UpdateOrderDialog.tsx:182 | with distinct ids the lookup gives that line's quantity |
| UpdateOrder.NoChangeWhenSame | src/components/UpdateOrderDialog.tsx:178-189 | right after opening, with distinct ids, nothing has changed |
| UpdateOrder.DuplicateLinesShowChange | src/components/UpdateOrderDialog.tsx:178-189 | with a duplicated menu id, an untouched order reports a change |
| UpdateOrder.AnyServed | src/components/UpdateOrderDialog.tsx:191-193 | true iff some initial line is served |
| UpdateOrder.SubmitDisabledSpec | src/components/UpdateOrderDialog.tsx:195 | submit is disabled while the lines are as loaded, and enabled for non-empty lines of a different count when idle |
| UpdateOrder.ItemsPayloadSpec | src/components/UpdateOrderDialog.tsx:197-209 | one payload line per current line; served and initial quantity come from the matching initial line or default to false and 0; the lines sum to the total cost |
| UpdateOrder.PayloadTotalSpec | src/components/UpdateOrderDialog.tsx:174-176 | the payload's Σ price×quantity is the total cost |
| UpdateOrder.StrLeTotal | src/components/UpdateOrderDialog.tsx:97 | the default string order is total |
| UpdateOrder.StrLeRefl | src/components/UpdateOrderDialog.tsx:97 | the default string order is reflexive |
| UpdateOrder.InsertString | src/components/UpdateOrderDialog.tsx:97 | insertion keeps a sorted list sorted and adds exactly the one string |
| UpdateOrder.SortStrings | src/components/UpdateOrderDialog.tsx:97 | the category sort is a permutation and sorted |
| UpdateOrder.InsertStringDistinct | src/components/UpdateOrderDialog.tsx:97 | inserting a new string keeps a list duplicate-free |
| UpdateOrder.SortStringsDistinct | src/components/UpdateOrderDialog.tsx:97 | sorting keeps a list duplicate-free |
| UpdateOrder.CategoryTabsSpec | src/components/UpdateOrderDialog.tsx:96-103 | the tabs are "All" followed by every menu category once, sorted, and nothing else |
| UpdateOrder.FilteredMenuItemsSpec | src/components/UpdateOrderDialog.tsx:229-234 | "All" shows the whole menu; another tab shows exactly its category's items |
| UpdateOrder.Dialog.constructor | src/components/UpdateOrderDialog.tsx:54-63 | the dialog starts with no lines, no menu and the "All" tab |
| UpdateOrder.Dialog.LoadMenu | src/components/UpdateOrderDialog.tsx:79-118 | a closed dialog does nothing; an array body gives the menu, the tabs and the initialised lines; otherwise only the message is set and the tabs, active tab and lines are kept; loading ends |
| UpdateOrder.Dialog.UpdateItemQuantity | src/components/UpdateOrderDialog.tsx:126-162 | the lines become the update rule's result |
| UpdateOrder.Dialog.HandleRemoveItem | src/components/UpdateOrderDialog.tsx:164-172 | the lines become the removal rule's result |
| UpdateOrder.Dialog.HaveItemsChanged | src/components/UpdateOrderDialog.tsx:178-189 | the map-and-scan loop returns exactly the change predicate |
| UpdateOrder.Dialog.Submit | src/components/UpdateOrderDialog.tsx:197-219 | sends the order id, its stored customer and the payload lines summing to the total cost; closes only on success |
| UpdateOrder.Dialog.CancelOrder | src/components/UpdateOrderDialog.tsx:221-227 | cancels this order and closes only on success |
| MyOrders.InitialPhone | src/app/my-orders/page.tsx:155-157 | the URL phone if truthy, else the saved phone if truthy, else empty |
| MyOrders.NoTypedOrderCompleted | src/app/my-orders/page.tsx:33 | no order with a declared status shows as completed |
| MyOrders.MyOrdersPage.constructor | src/app/my-orders/page.tsx:93-97 | the page starts with an empty phone and list, not loading, no error |
| MyOrders.MyOrdersPage.EditPhone | src/app/my-orders/page.tsx:99-104 | the phone field follows the digits-only, at-most-10 guard |
| MyOrders.MyOrdersPage.FindOrders | src/app/my-orders/page.tsx:106-152 | a bad number sets the message and sends nothing; otherwise success stores the mapped newest-first orders and saves the number; failure empties the list and sets the message; loading ends |
| MyOrders.MyOrdersPage.Mount | src/app/my-orders/page.tsx:106-164 | an empty initial phone changes nothing; a non-empty one fills the field and is searched: a rejected phone sets the message and keeps the list, success gives the newest-first list, no error and the saved phone, failure empties the list and sets the message |
| MyOrdersContent.SearchEnabledRequests | src/components/MyOrdersPageContent.tsx:80 | an enabled search button always passes the store's phone guard |
| MyOrdersContent.MyOrdersView.constructor | src/components/MyOrdersPageContent.tsx:22-23 | the view starts with an empty phone field |
| MyOrdersContent.MyOrdersView.Mount | src/components/MyOrdersPageContent.tsx:26-34 | the field takes the initial phone; only a non-empty one is fetched through the store, whose list is replaced on success and kept on failure, with its loading flag off |
| MyOrdersContent.MyOrdersView.Search | src/components/MyOrdersPageContent.tsx:36-41 | only a 10-character number is saved and fetched |
| MyOrdersContent.MyOrdersView.EditPhone | src/components/MyOrdersPageContent.tsx:43-48 | the phone field follows the digits-only, at-most-10 guard |
| Kitchen.ColumnsPartition | src/app/kitchen/page.tsx:24-25 | every order is in exactly one column; completed holds exactly the served and done orders; the lengths add up; a newest-first list gives newest-first columns |
| Kitchen.CompletionRequest | src/app/kitchen/page.tsx:16-22 | the board's handler, which the card never calls, requests `completeOrder` with the order's id exactly for a paid order |
| Kitchen.CompletionMovesOrder | src/app/kitchen/page.tsx:24-25 | completing any order of the board puts it, done, in the completed column and leaves no order with its id in the new column; an order not yet completed was in the new column |
| Kitchen.ReadyMovesOrder | src/components/OrderCard.tsx:46-48 | an order whose Ready button is enabled is on the board, not done and not served, and pressing it moves it from the new column to the completed one |
| OrderCard.ViewSpec | src/components/OrderCard.tsx:59-183 | the edit controls and the Paid/Ready buttons show exactly when the order is not done, the fulfilled note otherwise; Paid is disabled iff paid, Ready iff served |
| OrderCard.DisplayPhoneSpec | src/components/OrderCard.tsx:58 | the shown phone is the stored one's last (up to) 10 characters, and gives back the typed number of a "+91" order |
| OrdersSnapshot.PendingOrdersSpec | src/components/dashboard/OrdersSnapshot.tsx:30-37 | at most 5 orders, a prefix of the pending ones, all paid, new or served (never done or created); on a newest-first list no order left out is newer than one shown |
| MenuPage.MenuPageItemSpec | src/app/menu/page.tsx:25-32 | fields are copied and the image is the URL followed by ".jpg" |
| MenuPage.MenuCategoriesSpec | src/app/menu/page.tsx:34 | every category once, nothing else, in first-occurrence order |
| MenuPage.SectionIdSpec | src/app/menu/page.tsx:97 | a section id has no space and no upper-case letter |
| MenuPage.SectionItemsSpec | src/app/menu/page.tsx:106-108 | a section shows exactly its category's items; every item is in the section of a listed category; no listed section is empty |
| MenuPage.LoadMenuSpec | src/app/menu/page.tsx:20-49 | an array body gives the mapped items and distinct categories, each with a non-empty section; otherwise both are empty and the message is set |
| SalesChart.CombinedDataSpec | src/components/dashboard/SalesChart.tsx:25-29 | one point per hour of today, with today's hour and revenue, and yesterday's revenue at that index or 0 |
| SalesChart.ExtraYesterdayIgnored | src/components/dashboard/SalesChart.tsx:25-29 | yesterday's entries past today's length play no part |

## Left out

- HTTP requests, browser storage, toasts, `router.push`, `window.location` and React effect scheduling. Each request is an outcome parameter; browser storage is a field holding the saved phone.
- Concurrency between overlapping requests: the model runs each handler to completion, so races and stale responses are not modelled.
- `new Date(...).getTime()` parsing and time formatting: timestamps are given integers.
- `Math.random()` ids for new lines in the order-edit dialog: the caller passes a fresh id.
- The `localeCompare` sort of the dialog's menu items: it is locale-dependent, so the model keeps the received order.
- JavaScript strings count UTF-16 code units and Dafny strings count code points. The default string sort and all length checks are modelled on code points.
- `toLowerCase` is modelled on ASCII letters only.
- The quantity inputs' `parseInt(...) || 0` and `|| 1`: each quantity arrives as an integer.
- `markAsPaid`, `cancelOrder`, `updateOrderItems` and `activeOrderIdForUpdate` are not defined in the store; they are success flags and given values.
- `setKitchenOrders` as a raw setter and the refetches after creating or updating an order are not modelled.
- The edit dialog's decrement-button guard and other rendering details are not modelled.
- StatCards, OrdersTable and the other presentation-only screens are not part of this model.
- UpdateOrder.SubmitDisabledSpec: states the two cases that decide the button (untouched lines, a changed line count) rather than a full characterisation, because with duplicate menu ids the change predicate is not a comparison of lists.
