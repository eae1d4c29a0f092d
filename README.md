# 7even86 Game Hub storefront: cart, pricing, orders and admin rules

This project models the core of a Next.js game-store storefront. It covers:

- **The cart.**
  - The browser keeps a quantity map, saves it after a 500 ms debounce and merges a guest cart into the account cart at sign-in.
  - The server prunes a stored cart against the product catalog and prices it.
  - The cart page looks up every line and removes deleted products.
- **Pricing.** The offer price when set, floored to cents, and a 2% tax.
- **Orders.**
  - Placing one, changing its status and payment type, and deleting it.
  - The three order views: customer, seller and admin.
- **The admin pages and routes.** Users and their roles, categories, products and their form checks, per-category and product-page SEO records, the category page's structured data, the product SEO editor, the contact form and the reset-password page.

Database collections are Dafny classes whose fields hold the documents as sequences. Their route handlers are methods. Browser page state is a class whose handlers are methods, or, where the page only computes, functions on values.

Money is an exact `real`. JavaScript's `Math.floor(x * 100) / 100` and `Math.floor(x * 0.02)` are written out with `Floor`. Plain JavaScript objects used as maps keep their key insertion order (`Common.Dict`).

## Model

| member | source | states |
|---|---|---|
| Catalog.UnitPrice | context/AppContext.jsx:230 | the unit price is the offer price whenever it is set and non-zero, otherwise the list price; a set offer at or below list never charges more than list |
| Catalog.LineTotal | context/AppContext.jsx:231 | a line costs unit price times quantity: non-negative for a non-negative quantity and price, exactly the unit price for quantity 1 |
| Catalog.DiscountMeansCheaper | app/cart/page.jsx:197-199 | the discount badge shows exactly when a true offer makes the charged unit price strictly lower than the list price |
| Catalog.OfferChargedWithoutDiscount | app/cart/page.jsx:197-199 | an offer equal to or above the list price is still what is charged, and no badge shows |
| Catalog.FloorCents | context/AppContext.jsx:234 | the result is a whole number of cents, at most the input and less than one cent below it |
| Catalog.FloorCentsTruncates | context/AppContext.jsx:234 | 199.999 is reported as 199.99: the amount is truncated, not rounded |
| Catalog.Tax | app/api/order/create/route.js:78 | the tax is the whole part of 2% of the subtotal, within one unit below it, and never negative for a non-negative subtotal |
| Catalog.FindProduct | context/AppContext.jsx:228 | the found product is the first in the list that carries the id; nothing is found exactly when no product has the id |
| CartContext.Added | context/AppContext.jsx:176-182 | adding raises the id's quantity by one (a missing or zero entry becomes 1), leaves every other entry alone and appends a new key at the end |
| CartContext.WithQuantity | context/AppContext.jsx:197-203 | quantity 0 deletes the entry, any other quantity is stored as given, and every other entry is unchanged; the other keys keep their order, an existing key keeps its place and a new key goes last |
| CartContext.AddRaisesCount | context/AppContext.jsx:176-182 | adding a product whose entry is not negative raises the cart count by exactly one |
| CartContext.RemoveLowersCount | context/AppContext.jsx:197-200 | removing an entry takes exactly its positive quantity off the cart count |
| CartContext.GuestValidationKeepsAmount | context/AppContext.jsx:79-85 | dropping unknown products and non-positive quantities from a guest cart never changes the cart amount |
| CartContext.ValidateGuestCart | context/AppContext.jsx:79-85 | the validated cart keeps, in order and with their quantities, exactly the entries whose product is in the catalog and whose quantity is above 0 |
| CartContext.MergeGuestCart | context/AppContext.jsx:119-128 | the loop adds the guest cart into the account cart one guest key at a time, in the guest cart's order, adding quantities (a missing or zero entry counts as none) |
| CartContext.MergePrefixInvariant | context/AppContext.jsx:119-128 | after the first n guest keys, the cart holds the account keys followed by those guest keys the account lacked, and every quantity is the sum of both sides for those keys |
| CartContext.MergePrefixIsMerge | context/AppContext.jsx:119-128 | the finished merge has the account keys first and then the guest's new keys in order; every quantity is the sum of both sides |
| CartContext.MergeAddsQuantities | context/AppContext.jsx:119-128 | guest {A: 2, B: 1} merged into account {B: 3, C: 1} gives {B: 4, C: 1, A: 2}: quantities add up and nothing is overwritten |
| CartContext.ApplyMutation | context/AppContext.jsx:168-213 | an add of a product missing from the catalog changes nothing; an accepted add or set keeps the cart a well-formed ordered map |
| CartContext.Step | context/AppContext.jsx:186-191 | each accepted mutation replaces the single pending snapshot; a firing timer writes it once; the cart stays well-formed |
| CartContext.BurstWritesNothing | context/AppContext.jsx:207-212 | a burst of mutations writes nothing: it only moves the pending snapshot, which holds the current cart once anything was accepted |
| CartContext.BurstThenFireWritesOnce | context/AppContext.jsx:186-191 | after a burst and one timer exactly one write happens, and it holds the final cart: debouncing coalesces the burst |
| CartContext.CartSession.constructor | context/AppContext.jsx:21-26 | a session starts with an empty cart, no pending write and nothing posted |
| CartContext.CartSession.AddToCart | context/AppContext.jsx:168-194 | an add is refused for a product missing from the catalog; otherwise the cart is the rendered cart plus one of the id, and the pending write is replaced |
| CartContext.CartSession.UpdateCartQuantity | context/AppContext.jsx:196-213 | the cart becomes the rendered cart with the quantity set (0 deletes), and the pending write is replaced |
| CartContext.CartSession.SaveCartToDB | context/AppContext.jsx:51-66 | a guest's cart goes to local storage; a signed-in user's cart is posted, and nothing else changes |
| CartContext.CartSession.FireTimer | context/AppContext.jsx:189-191 | the pending snapshot, if any, is saved once (to local storage for a guest, posted for a user) and the slot is emptied; the cart, the catalog and the user stay as they were |
| CartContext.CartSession.GetCartCount | context/AppContext.jsx:215-223 | the count is the sum of the strictly positive quantities, never negative |
| CartContext.CartSession.GetCartAmount | context/AppContext.jsx:225-235 | the amount is unit price times quantity over positive entries found in the catalog, floored to cents |
| CartContext.CartSession.LoadGuestCart | context/AppContext.jsx:70-101 | the stored guest cart is shown, then reduced to valid entries; local storage is rewritten only when something was dropped, and the number dropped is reported |
| CartContext.CartSession.LoadAccountCart | context/AppContext.jsx:104-146 | the account cart replaces the browser cart; a parsable guest cart is merged in, posted and removed from local storage; a failed load changes nothing |
| CartPage.FetchCartProducts | app/cart/page.jsx:24-63 | every positive cart id is looked up; those whose reply carries a product go to the map with that product, and all others, whatever the error, go to the deleted list in cart order |
| CartPage.RemoveDeletedAsWritten | app/cart/page.jsx:66-73 | the removal pass as written removes only the last deleted id, since each call starts from the same rendered cart; the debounced write left pending is that same cart (none new for an empty pass), and the catalog, user and stored carts are unchanged |
| CartPage.StaleRemovalKeepsFirst | app/cart/page.jsx:71-73 | with two deleted products, the first one stays in the cart after the pass |
| CartPage.RemoveDeleted | app/cart/page.jsx:66-73 | the intended removal pass: every deleted id leaves the cart and every other entry is unchanged |
| CartPage.SubtotalsMatchAmount | app/cart/page.jsx:191-200 | when the fetched products are the catalog's, the rendered row subtotals add up to the amount the cart total floors |
| CartPage.MinusRemovesLastUnit | app/cart/page.jsx:243 | the minus button lowers the quantity by one and removes a line that was at 1 |
| CartPage.ForwardedQuantity | app/cart/page.jsx:373-377 | the quantity input forwards a value exactly when it is a number of at least 0, unchanged; a cleared field reads as 0 and is forwarded, which removes the line |
| CartApi.SyncCartWithProducts | app/api/cart/route.js:10-47 | the synced cart keeps, in order, every id whose lookup found a product or threw; the ids with no product are reported deleted in order; found products are counted as updated |
| CartApi.SyncAccountsForEveryId | app/api/cart/route.js:20-44 | every id of the stored cart is either kept or reported deleted, never both and never neither: an id stays in the pruned cart exactly when it is not in the deleted list |
| CartApi.CartLines | app/api/cart/route.js:89-114 | the reply lines are exactly the table products whose id is in the cart, in table order, each with that id's quantity and its category name or "Uncategorized" |
| CartApi.CartLinesCoverCart | app/api/cart/route.js:89-114 | every table product whose id is in the cart has a reply line |
| CartApi.ComputeTotals | app/api/cart/route.js:95-102 | the item total is the sum of the line quantities, and the amount is the sum of unit price times quantity floored to cents (line 121) |
| CartApi.LinesAgree | app/api/cart/route.js:89-114 | two carts with the same quantities for every table product give the same reply lines |
| CartApi.PruneKeepsLines | app/api/cart/route.js:80-92 | when lookups agree with the table, pruning changes neither the lines nor the totals |
| CartApi.ValidEntryIdempotent | app/api/cart/route.js:163-168 | filtering a posted cart a second time keeps it as it is, the same filter guest validation uses |
| CartApi.ValidCartItems | app/api/cart/route.js:163-168 | the saved cart keeps, in order and with their quantities, exactly the catalog products with quantity above 0 |
| CartApi.CartStore.constructor | app/api/cart/route.js:59 | the store holds the given users' carts and product table |
| CartApi.CartStore.Get | app/api/cart/route.js:50-131 | 401 without a session, 404 for an unknown user; otherwise the pruned cart, the deleted ids and their count, the count of ids whose product was found, the lines and floored totals; the stored cart is overwritten only when something was deleted; an empty cart answers zeros |
| CartApi.CartStore.Post | app/api/cart/route.js:134-206 | 401 without a session, 400 for a missing or non-object cart, 500 for an unparsable body; a non-empty cart is saved filtered to valid entries (404 for an unknown user); an empty cart is saved empty |
| Orders.NewestFirstOrdered | app/api/order/get-orders/route.js:28 | a listing sorted by date descending holds the same orders, each at least as recent as the next |
| Orders.FindOrder | app/api/order/update-status/route.js:80 | the found position holds an order with the id; nothing is found exactly when no order has it |
| Orders.FindAddress | app/api/order/create/route.js:42-44 | the found position holds the address with the id; nothing is found exactly when no address has it |
| Orders.Shipping | app/api/order/create/route.js:84-91 | the order copies all six fields of the chosen address, storing its `pincode` as `pinCode` |
| Orders.FirstUnavailable | app/api/order/create/route.js:57-65 | the first request line whose product does not exist, with every earlier line available; none exactly when all are |
| Orders.AsOrderItems | app/api/order/create/route.js:71-74 | the order lines keep the requested products and quantities in order |
| Orders.PriceItems | app/api/order/create/route.js:53-75 | the first missing product ends pricing with 404 "Product X not found"; otherwise the subtotal is the sum of unit price times quantity and the lines are the request's |
| Orders.SubtotalNonNegative | app/api/order/create/route.js:53-75 | with non-negative prices and quantities the subtotal is never negative |
| Orders.AmountBounds | app/api/order/create/route.js:77-79 | the order amount is the subtotal plus a whole-unit tax of at most 2% of it |
| Orders.Patched | app/api/order/update-status/route.js:90-99 | only the supplied status and payment type are replaced; an absent or empty one keeps its value and nothing else changes |
| Orders.PatchIdempotent | app/api/order/update-status/route.js:90-99 | applying the same update twice changes nothing more |
| Orders.ResolveOrderId | app/api/order/delete/route.js:34-46 | the query id wins when set, else the body id (absent when the body does not parse); an id results exactly when either is set |
| Orders.DeleteRemovesExactlyOne | app/api/order/delete/route.js:59-69 | with unique ids, deleting the found order leaves no order with that id, one order fewer, and every other order in place |
| Orders.OrderStore.constructor | app/api/order/create/route.js:30 | the store holds the given users, products and orders |
| Orders.OrderStore.PlaceOrder | app/api/order/create/route.js:10-117 | 401, 400, 404 (user, address, first missing product) in the source's order with nothing written; otherwise an appended "Order Placed"/"COD" order priced at subtotal plus tax, with the buyer's cart emptied |
| Orders.OrderStore.UpdateOrder | app/api/order/update-status/route.js:10-151 | the exact reply for each check in order (401, 403, 400 id, 400 nothing to update, 400 status, 400 payment, 400 malformed id, 404), the store unchanged on failure; when every check passes the reply is a success echoing the patched order, and only the supplied fields change |
| Orders.OrderStore.SetStatus | app/api/admin/orders/update-status/route.js:9-75 | each failure reply in order, with a malformed id reported as 500; when every check passes the reply is the order with the new status, and only that order's status changes |
| Orders.OrderStore.SetPaymentType | app/api/admin/orders/update-payment/route.js:9-76 | each failure reply in order, with a malformed id reported as 500; when every check passes the reply is the order with the new payment type, and only that order's payment type changes |
| Orders.OrderStore.DeleteOrder | app/api/order/delete/route.js:10-97 | each failure reply in order; on success exactly the found order is removed and its id returned |
| OrderViews.PartyFor | app/api/seller/orders/route.js:68-79 | the customer shown is the stored user's name, email and image (and role where the route selects it, as the admin route does) when the user exists, else the placeholder with the given name, "N/A", the order's user id and no image or role |
| OrderViews.Joined | app/api/seller/orders/route.js:44-56 | a line keeps its order item and carries a product exactly when the lookup found one; a throwing lookup gives null |
| OrderViews.JoinAll | app/api/seller/orders/route.js:42-58 | every line of the order is kept, in order, each joined with its lookup |
| OrderViews.SellerOrderOf | app/api/seller/orders/route.js:66-83 | a seller's part of an order carries the order, its customer (placeholder "Customer not found"), and as many items as `totalItems` says |
| OrderViews.SellerView | app/api/seller/orders/route.js:40-85 | the seller view, defined order by order; its properties are the lemmas below |
| OrderViews.SellerViewAppend | app/api/seller/orders/route.js:40-85 | one more order adds exactly its seller part to the end of the view, or nothing when it has no seller line |
| OrderViews.SellerItemsKeptIff | app/api/seller/orders/route.js:61-63 | a line is in the seller's part exactly when its product was found and belongs to the seller |
| OrderViews.SellerViewMembers | app/api/seller/orders/route.js:65-84 | an order is in the view exactly when it has a seller line, and then as the seller part builds it |
| OrderViews.SellerViewDatesBounded | app/api/seller/orders/route.js:40-85 | no order in the view is dated after the latest order it came from |
| OrderViews.SellerViewNewestFirst | app/api/seller/orders/route.js:33-35 | orders given newest first stay newest first in the view |
| OrderViews.SellerAmountCountsOwnLines | app/api/seller/orders/route.js:70-75 | the seller amount is the order's sum of line costs with every other seller's lines weighing nothing |
| OrderViews.SellerAmount | app/api/seller/orders/route.js:71-75 | the loop adds up unit price times quantity over the given lines |
| OrderViews.SellerOrders | app/api/seller/orders/route.js:11-95 | 401 without a user id, 403 for a non-staff role; otherwise the seller view of every order sorted newest first |
| OrderViews.AdminItemOf | app/api/admin/orders/route.js:45-59 | a line carries the product when the lookup found one, and otherwise, including a throwing lookup, the placeholder "Product not found" with the product id |
| OrderViews.AdminItems | app/api/admin/orders/route.js:44-60 | every line of the order, in order, each with its product or placeholder |
| OrderViews.AdminOrderOf | app/api/admin/orders/route.js:39-66 | an admin order carries the order, its user (placeholder "User not found") and all its lines |
| OrderViews.AdminOrdersOf | app/api/admin/orders/route.js:38-68 | one enriched entry per order, in the given order |
| OrderViews.AdminOrdersRoute | app/api/admin/orders/route.js:11-78 | 401 without a user id, 403 for any role but admin; an admin always gets a success holding every order enriched, sorted newest first |
| OrderViews.AdminSeesEveryOrder | app/api/admin/orders/route.js:33-68 | enrichment drops nothing: every order appears, newest first, with all its lines and their quantities |
| OrderViews.CustomerItemOf | app/api/order/get-orders/route.js:45-88 | a line keeps its quantity; it carries the found product's id, name, price, offer and image exactly when the lookup found one, otherwise the raw product id |
| OrderViews.CustomerItems | app/api/order/get-orders/route.js:44-90 | every line of the order, in order |
| OrderViews.CustomerOrdersOf | app/api/order/get-orders/route.js:42-98 | one entry per order, in the given order, with its lines |
| OrderViews.CustomerOrdersRoute | app/api/order/get-orders/route.js:9-117 | 401 exactly without a user id, and a success whenever there is one: the user's own orders newest first, with "No orders found" exactly when there are none |
| OrderViews.CustomerSeesOwnOrders | app/api/order/get-orders/route.js:27-29 | a customer sees exactly their own orders, each of them, newest first |
| Accounts.FindUser | app/api/admin/users/update-role/route.js:52-56 | the found position holds the first user with the id; nothing is found exactly when no user has it |
| Accounts.FindUserByEmail | app/api/order/create/route.js:32 | the found position holds a user with the email; nothing is found exactly when no user has it |
| Accounts.FindSessionUser | app/api/add-address/route.js:42-46 | a user is found only for a session that has an id held by some user |
| Accounts.NewAddress | app/api/add-address/route.js:31-40 | the pushed address copies every required field (name, phone, pincode, area, city, state), with landmark defaulting to "" and the default flag as JavaScript reads it |
| Accounts.ClearDefaults | app/api/add-address/route.js:24-29 | every address is kept, in order, with its default flag cleared |
| Accounts.NoDefaultAfterClear | app/api/add-address/route.js:24-29 | after clearing, no address is the default |
| Accounts.AtMostOneDefault | app/api/add-address/route.js:23-46 | adding an address to a book with at most one default leaves at most one; a new default is then the only one |
| Accounts.FindByToken | app/api/auth/reset-password/route.js:36-39 | the found user holds the hashed token with an expiry later than now; nothing is found exactly when no user does |
| Accounts.ResetIsOneShot | app/api/auth/reset-password/route.js:55-58 | with tokens unique, once a token is consumed no user matches it again at any time |
| Accounts.UserTable.constructor | app/api/add-address/route.js:21 | the table holds the given users |
| Accounts.UserTable.AddAddress | app/api/add-address/route.js:7-58 | 401 without a session, 400 for a missing required field; a missing user fails with 500 (the reply reads a null user) and nothing changes; otherwise the address is appended after clearing old defaults when it is the default |
| Accounts.UserTable.UpdateRole | app/api/admin/users/update-role/route.js:8-81 | 403 for any non-admin, 400 for missing fields, an invalid role or one's own id, 404 for an unknown user, all with nothing written; otherwise only that user's role changes and the reply carries every field but the password and reset fields, the cart included |
| Accounts.UserTable.ResetPassword | app/api/auth/reset-password/route.js:8-71 | 400 for a missing field, a password under 8 characters, or no user with a live matching token, with nothing written; otherwise that user gets the hashed password and both reset fields cleared |
| Categories.NameFor | app/api/product/list/route.js:17-20 | the name the id-to-name map holds for an id belongs to a category with that id (the last one wins); there is none exactly when no category has the id |
| Categories.BuildCategoryMap | app/api/product/list/route.js:17-20 | the map built by the loop holds exactly the ids of the categories, each with the name the last category with that id gives |
| Categories.NameForIsOwnName | app/api/product/list/route.js:17-20 | with unique ids the map gives each category its own name |
| Categories.FindByNameIgnoringCase | app/api/category/add/route.js:38-40 | the found category's name equals the given one ignoring case; nothing is found exactly when no name does |
| Categories.CategoryTable.constructor | app/api/category/add/route.js:35 | the table starts empty, with no two names equal ignoring case |
| Categories.CategoryTable.AddCategory | app/api/category/add/route.js:8-66 | 401, 403, 400 blank name, 400 duplicate ignoring case, and 500 for a session without a user id, each with nothing written; otherwise the trimmed name is appended with its creator; names stay distinct ignoring case |
| Products.CategoryRefFor | app/api/product/list/route.js:24-31 | a product lists its category id with the mapped name, or "Uncategorized" when the map has no true name for it |
| Products.WithCategories | app/api/product/list/route.js:23-32 | every product is listed once, in order, with its category reference |
| Products.ListProducts | app/api/product/list/route.js:6-45 | the listing keeps every product in store order, each with its category id and that category's name or "Uncategorized" |
| Products.ListedUnderOwnCategory | app/api/product/list/route.js:18-29 | with unique category ids, a product whose category exists is listed under that category's own name |
| Products.FormError | app/api/product/add/route.js:56-97 | the first failing field check in the route's order, with its message; none exactly when every field check holds |
| Products.OfferEqualToPriceAccepted | app/api/product/add/route.js:85 | an offer equal to the price passes; only a strictly higher one is refused |
| Products.NaNPricePassesCheck | app/api/product/add/route.js:78 | a price text that does not parse passes the price check, since NaN <= 0 is false |
| Products.NewProduct | app/api/product/add/route.js:136-144 | the stored product has the trimmed name and description, a positive price, an offer (or null) never above the price, the owner, the category and the image URLs |
| Products.ProductTable.constructor | app/api/product/add/route.js:99 | the table holds the given products |
| Products.ProductTable.AddProduct | app/api/product/add/route.js:16-161 | the exact reply for each check in order (401, 403 no role, 403 role, 400 field checks, 400 invalid or unknown category, 500 for what the schema refuses), with nothing written on failure; otherwise the new product is appended |
| AllProducts.DedupSpec | app/all-products/page.jsx:27 | the set spread keeps the first occurrence of each value in order of first appearance (`FirstOccurrences`), so it has no repeats and exactly the values of the input |
| AllProducts.DedupKeepsDistinct | app/all-products/page.jsx:27 | a list without repeats comes back unchanged |
| AllProducts.FirstOccurrencesCons | app/all-products/page.jsx:27 | the first occurrences of a list are its head followed by the first occurrences of the rest with the head removed |
| AllProducts.CategoriesSpec | app/all-products/page.jsx:25-28 | read by name, the category list has no repeats and holds exactly the non-empty category names of some product |
| AllProducts.CategoryNames | app/all-products/page.jsx:26 | the category names, with empty ones dropped and every non-empty one kept |
| AllProducts.ObjectsAllKept | app/all-products/page.jsx:26 | category objects are all truthy, so the filter keeps every one, in order |
| AllProducts.ListDataAsWritten | app/all-products/page.jsx:25-28 | as written, on products from the list route the set keeps one entry per product, since each carries its own category object, and the slug of every entry (line 144) throws |
| AllProducts.OneCategoryListedTwice | app/all-products/page.jsx:25-28 | as written, two products of one category list that category twice, where reading by name lists it once |
| AllProducts.SlugAsWritten | app/all-products/page.jsx:144 | the slug expression as written yields the slug of a string and throws for a category object |
| AllProducts.FilteredProductsSpec | app/all-products/page.jsx:31-35 | no selection (also after clearing it) shows every product; otherwise exactly the products whose category name is selected, in their original order |
| AllProducts.ToggleSpec | app/all-products/page.jsx:37-44 | toggling flips exactly that category's membership and never repeats a selection |
| AllProducts.ToggleTwice | app/all-products/page.jsx:37-44 | toggling twice restores the selected set; an unselected category gives back exactly the same list |
| AllProducts.DashRuns | app/all-products/page.jsx:144 | each maximal run of whitespace becomes one '-' and every other character stays, as the reference `Dashed` states; so no whitespace is left, and a string without whitespace is unchanged |
| AllProducts.Slug | app/all-products/page.jsx:144 | a category slug never contains whitespace |
| AllProducts.SlugIdempotent | app/all-products/page.jsx:144 | a slug made by the general rule is its own slug |
| UsersPage.FilteredUsersSpec | app/seller/users/page.jsx:101-106 | a user is listed exactly when the name or email contains the term ignoring case and the role filter is "all" or the user's role; the list keeps the page's order |
| UsersPage.EmptyTermMatchesNamed | app/seller/users/page.jsx:102-103 | an empty search term matches every user with a name |
| UsersPage.RoleCount | app/seller/users/page.jsx:172-186 | a role count never exceeds the number of users |
| UsersPage.RoleCountsPartition | app/seller/users/page.jsx:166-186 | when every user holds one of the three roles, the three counts add up to the total shown |
| UsersPage.RoleControlFor | app/seller/users/page.jsx:254-261 | the own row shows "current user" exactly for the session's id; another row shows no permission exactly for a seller; an admin gets the select |
| UsersPage.EditableMatchesRoute | app/seller/users/page.jsx:254-261 | for staff, the select is offered exactly where the role route's admin and self-change checks (app/api/admin/users/update-role/route.js:15, 42) both pass |
| UsersPage.Relabelled | app/seller/users/page.jsx:88-92 | the list keeps its length; every row of that user gets the new role and every other row is unchanged |
| UsersPage.RelabelMovesCount | app/seller/users/page.jsx:88-92 | relabelling never raises another role's count and gives every row of the user the new role |
| UsersPage.UserList.constructor | app/seller/users/page.jsx:51 | the page holds the fetched users with no change in flight |
| UsersPage.UserList.HandleRoleChange | app/seller/users/page.jsx:65-99 | nothing is sent unless confirmed; only a successful reply relabels the user locally; the in-flight marker is cleared afterwards |
| SellerPage.Spread | app/seller/page.jsx:160 | copying the slots keeps their number and turns every hole into an explicit `undefined`, other slots unchanged |
| SellerPage.SetSlot | app/seller/page.jsx:159-163 | choosing a file in a slot puts the dialog's first file (or `undefined`) there, grows the array only when the slot lies past its end (with holes in between), and keeps every other slot's file |
| SellerPage.ChoosingKeepsOtherFiles | app/seller/page.jsx:159-163 | a file already chosen in another slot survives a choice |
| SellerPage.SlotsStayWithinFour | app/seller/page.jsx:152-163 | the four inputs never grow the slot array past four |
| SellerPage.SentImages | app/seller/page.jsx:116 | the posted image entries are the slots that are not holes, one entry each and in slot order (a subsequence of the slots, as many as the non-hole slots); a chosen first slot is the first entry sent |
| SellerPage.SubmitError | app/seller/page.jsx:84-107 | the first failing check in the page's order, with its message; none exactly when the first slot holds a file, a category is chosen, the price is valid, the offer is not above it, and name and description are not blank |
| SellerPage.PageAcceptedPassesRoute | app/seller/page.jsx:84-116 | a form the page lets through passes every field check of the add-product route (app/api/product/add/route.js:56-97) once its images are uploaded, and sends its first slot's file as the first image entry |
| SellerPage.PageChecksImageFirst | app/seller/page.jsx:84-87 | with no image and a blank name the page blames the image while the route (app/api/product/add/route.js:57) blames the name |
| SellerPage.ProductFormState.constructor | app/seller/page.jsx:16-24 | every field starts empty and the add-category panel closed |
| SellerPage.ProductFormState.ChooseFile | app/seller/page.jsx:159-163 | only the file slots change, to the slot update of the chosen index |
| SellerPage.ProductFormState.Submit | app/seller/page.jsx:81-138 | the error is the first failing check and the form is sent exactly when there is none; only a successful reply resets the product fields; the category panel is untouched |
| SellerPage.ProductFormState.HandleAddCategory | app/seller/page.jsx:47-71 | a blank name sends nothing; otherwise the trimmed, non-blank name is posted, and on success the input is cleared, the panel closed and the new category selected; the product fields are untouched |
| CategorySeo.ListingSortedBySlug | app/api/seo/category/route.js:13-16 | the GET listing is a permutation of the stored records in ascending slug order |
| CategorySeo.Unslug | app/api/seo/category/route.js:55 | the slug with every dash read as a space, same length, other characters kept |
| CategorySeo.FindCategoryFor | app/api/seo/category/route.js:52-57 | the first category whose name equals the trimmed name or the unslugged slug ignoring case; none exactly when no category matches |
| CategorySeo.ResolvedCategoryId | app/api/seo/category/route.js:50-62 | a given category id is kept; otherwise an id is found exactly when some stored category has the name or slug, and it is the id of the first such category |
| CategorySeo.FindExisting | app/api/seo/category/route.js:65-70 | the first record matching the category id (only when there is one) or the slug; none exactly when nothing matches |
| CategorySeo.Updated | app/api/seo/category/route.js:74-78 | the record keeps its id, takes the category id only when one is known, and takes slug, name, SEO fields and active flag from the request |
| CategorySeo.UpdateIdempotent | app/api/seo/category/route.js:74-78 | applying the same update twice equals applying it once |
| CategorySeo.Created | app/api/seo/category/route.js:90-96 | the new record holds a category id exactly when one is known, the request's slug and SEO fields, and is active unless the request says otherwise |
| CategorySeo.SavedRecordIsFound | app/api/seo/category/route.js:65-70 | with unique slugs and ids, a second request for a saved record's slug finds that same record |
| CategorySeo.FindBySlug | app/api/seo/category/route.js:129 | a record with exactly that slug; none exactly when no record has it |
| CategorySeo.DeleteRemovesSlug | app/api/seo/category/route.js:129-136 | with unique slugs, after the deletion no record has the slug and every other record remains |
| CategorySeo.RemovalKeepsUnique | app/api/seo/category/route.js:129 | removing a record keeps the slug and category-id indexes unique |
| CategorySeo.UpdateKeepsUnique | app/api/seo/category/route.js:80 | a save that clashes with no other record keeps the indexes unique |
| CategorySeo.CreateKeepsUnique | app/api/seo/category/route.js:90-96 | a new record that no existing record matches keeps the indexes unique |
| CategorySeo.CategorySeoTable.constructor | app/api/seo/category/route.js:13 | the collection starts empty with unique keys |
| CategorySeo.CategorySeoTable.Upsert | app/api/seo/category/route.js:33-112 | missing fields give 400 and no change; otherwise the first matching record is updated in place (200) unless a unique index refuses it (500, no change), or a new record is appended (201); the indexes stay unique |
| CategorySeo.CategorySeoTable.Delete | app/api/seo/category/route.js:115-150 | no slug gives 400, an unknown slug 404, both without change; otherwise exactly the first record with that slug is removed and returned |
| PagesSeo.DefaultRecord | app/api/product-pages-seo/route.js:13-18 | the record first created carries the fixed identifier, the default title, description and three keywords, and no editor |
| PagesSeo.Applied | app/api/product-pages-seo/route.js:37-41 | fields present in the body replace the stored ones, the identifier included; absent ones stay, and the editor is stamped |
| PagesSeo.ApplyIdempotent | app/api/product-pages-seo/route.js:37-41 | saving the same body twice leaves the record as one save did |
| PagesSeo.PagesSeoStore.constructor | app/api/product-pages-seo/route.js:10 | no record is stored yet |
| PagesSeo.FindRecord | app/api/product-pages-seo/route.js:10 | the first record with the identifier, or none exactly when no record has it |
| PagesSeo.PagesSeoStore.Get | app/api/product-pages-seo/route.js:7-27 | the first record with the fixed identifier is returned unchanged; when there is none the default record is created, stored and returned |
| PagesSeo.PagesSeoStore.Save | app/api/product-pages-seo/route.js:29-46 | anyone but an admin or seller gets 401 and nothing changes; otherwise the stored (or a blank) record is patched with the body, stamped with the user's id or else email, stored and returned |
| PagesSeo.SaveThenGet | app/api/product-pages-seo/route.js:7-46 | a staff save always succeeds; a fetch after it returns exactly the saved record, unless the body moved it to another identifier, and then the defaults are created again |
| ProductSeoPage.AccessFor | app/seller/productseo/page.jsx:47-67 | the editor opens exactly for a loaded admin or seller session with a product id; a loaded non-staff session, and only that, is sent home |
| ProductSeoPage.AddKeyword | app/seller/productseo/page.jsx:113-121 | the list only grows at its end, by at most one keyword: afterwards it holds exactly the old keywords plus the trimmed input when that is non-empty, and never repeats a keyword; when a keyword is added it is the trimmed input and the input is cleared, otherwise list and input are unchanged |
| ProductSeoPage.RemoveKeyword | app/seller/productseo/page.jsx:123-128 | the list without the entry at that index, order kept; an index past the end changes nothing |
| ProductSeoPage.RemoveUndoesAdd | app/seller/productseo/page.jsx:113-128 | removing the keyword just added restores the list |
| ProductSeoPage.RemoveKeepsDistinct | app/seller/productseo/page.jsx:123-128 | removing keeps the list free of repeats |
| ProductSeoPage.NestedHandlersChangeOneField | app/seller/productseo/page.jsx:92-111 | each handler sets exactly one field of its own group and leaves every other field and group as it was |
| ProductSeoPage.SubmitFor | app/seller/productseo/page.jsx:130-143 | the form is posted exactly when title and description are filled, with the URL's product id and every other field unchanged |
| CategorySchema.ImageOf | components/CategorySeoSchema.jsx:48 | a truthy `image` is used as it is; otherwise the first entry of a non-empty image array; an empty image array leaves it undefined, and no image array at all gives the empty text |
| CategorySchema.EntryOf | components/CategorySeoSchema.jsx:44-56 | the entry keeps the name, falls back to "<name> - Available now", is in stock exactly for a positive stock, prices in PKR and links by slug or else by id |
| CategorySchema.ListedItems | components/CategorySeoSchema.jsx:41-57 | at most the first twelve products, each at position index + 1 with its own entry |
| CategorySchema.Schema | components/CategorySeoSchema.jsx:3-59 | no schema exactly when the category name or slug is missing; otherwise the page is named after the category, and its description is the stored SEO description when set, else "Browse our <name> collection in Pakistan." |
| CategorySchema.BreadcrumbHasTwoSteps | components/CategorySeoSchema.jsx:16-33 | the breadcrumb is Home at the origin then the category at origin/slug, and the page URL is the second step |
| CategorySchema.ItemListCountsAllListsTwelve | components/CategorySeoSchema.jsx:37-58 | the item list exists exactly for a non-empty product list, counts every product, lists min(count, 12) at positions from 1 (all of them when fewer than 12), in the products' order |
| Contact.IndexOf | app/api/contact/route.js:19 | the position of the first occurrence of the character; none exactly when it does not occur |
| Contact.ValidEmailIff | app/api/contact/route.js:19-25 | the address check accepts exactly the texts the pattern describes: a non-empty part, one '@', a part holding a '.' with a character on each side, and no whitespace or second '@' |
| Contact.ContactError | app/api/contact/route.js:11-33 | no error exactly when name, email, subject and message are given, the address is valid and the trimmed message has at least 10 characters; the missing-fields error exactly when one of the four is missing |
| Contact.OrderNumberOptional | app/api/contact/route.js:8-33 | the order number never changes the verdict |
| Contact.Summary | app/api/contact/route.js:238 | a message of at most 100 characters is shown whole; a longer one is cut to its first 100 characters followed by "..." |
| ContactPage.ContactFormState.constructor | app/contact-us/page.jsx:9-16 | every field starts empty and no error is shown |
| ContactPage.ContactFormState.Validate | app/contact-us/page.jsx:21-31 | each field has an error exactly when it is bad (blank name or subject, blank or malformed email, message under 10 characters once trimmed), with that field's text; the form is valid exactly when the error map is empty |
| ContactPage.CollectErrors | app/contact-us/page.jsx:21-31 | the error object has a key exactly for each failed check, holding that check's text, and is empty exactly when every check passes |
| ContactPage.ContactFormState.Submit | app/contact-us/page.jsx:33-59 | the form is posted exactly when it validates, and then the route accepts it too; a refused form shows exactly the errors of its failing fields with their texts, a posted one shows none; only a successful reply clears the form, otherwise the fields stay |
| ContactPage.ContactFormState.Clear | app/contact-us/page.jsx:52-53 | every field is empty and no error is shown |
| ContactPage.NoFieldMeansEmpty | app/contact-us/page.jsx:30 | the error map is empty exactly when none of the four fields has an error |
| ContactPage.PageValidPassesRoute | app/contact-us/page.jsx:21-31 | a form the page accepts passes every check of app/api/contact/route.js:11-33 |
| ContactPage.PaddedEmailRefused | app/contact-us/page.jsx:25 | an address starting with whitespace is refused, since the pattern is applied to the untrimmed text |
| ResetPasswordPage.Messages | app/reset-password/page.jsx:30-41 | one text per broken rule, in the same order, each the rule's own text |
| ResetPasswordPage.FailedRulesSpec | app/reset-password/page.jsx:28-43 | a rule is reported exactly when it fails, the report is empty exactly when all four rules hold, and it keeps the checking order |
| ResetPasswordPage.ValidatePassword | app/reset-password/page.jsx:28-43 | the list is the texts of the broken rules in checking order, at most four |
| ResetPasswordPage.MessagesAppend | app/reset-password/page.jsx:28-43 | pushing one more broken rule appends its text |
| ResetPasswordPage.PasswordStrength | app/reset-password/page.jsx:100-106 | no strength exactly for an empty password; "strong" exactly when all four rules hold |
| ResetPasswordPage.StrengthWeakNeedsThreeFailures | app/reset-password/page.jsx:100-106 | "weak" exactly when three or four rules fail, "medium" exactly when one or two do |
| ResetPasswordPage.SubmitError | app/reset-password/page.jsx:45-62 | the password is posted exactly when both fields are filled, all four rules hold and the two entries are equal |
| ResetPasswordPage.PostedPasswordMeetsServerRule | app/api/auth/reset-password/route.js:20-25 | every password the page posts passes the route's length check |
| ResetPasswordPage.ServerAcceptsWhatPageRefuses | app/api/auth/reset-password/route.js:20-25 | the route's rule is weaker: "abcdefgh" passes the route's length check (`Accounts.LongEnough`) yet the page refuses it |
| ResetPasswordPage.StaleTokenRedirects | app/reset-password/page.jsx:86-94 | the route's stale-token reply (app/api/auth/reset-password/route.js:45) contains "invalid", so the page sends the visitor back to request a new link |
| Sorting.SortBy | app/api/seo/category/route.js:15 | a database `.sort(...)`: the result is a permutation of the input |
| Sorting.SortBySorted | app/api/seo/category/route.js:15 | under a total preorder the result is ordered |
| Sorting.LexLeIsTotalPreorder | app/api/seo/category/route.js:15 | ascending string order is total and transitive, so sorting by slug is well defined |

The unit price is `offerPrice || price` (context/AppContext.jsx:230, app/api/cart/route.js, app/api/order/create/route.js): any non-zero offer price is charged, even one at or above the list price. `Catalog.UnitPrice` follows this, and `Catalog.OfferChargedWithoutDiscount` shows an offer above the price being charged with no discount badge.

## Left out

- Database access is in-memory: collections are sequences in classes, `populate` is not modelled, and `.lean()`/`toObject()` make no difference here.
- Store failures (Mongoose validation or unique-index errors, thrown exceptions) are represented only by the text parameter `storeError` where a route returns them; other catch-all 500 replies are not modelled.
- CategorySeo.CategorySeoTable.Upsert: a `categoryId` that is not a well-formed ObjectId makes `CategorySeo.findOne` throw (app/api/seo/category/route.js:65) and the route answer 500 from its catch (lines 105-110); the model treats every id as a plain string, so it answers such a request 200 or 201 like any other.
- Orders.OrderStore.PlaceOrder: an `item.product` that is not a well-formed ObjectId makes `Product.findById` throw (app/api/order/create/route.js:57) and the route answer 500 (lines 110-114); the model answers 404 "Product … not found" for it, as for a well-formed id with no product.
- The session is an input record (id, email, role); next-auth, the Google provider and lib/auth.js are not part of this model.
- bcrypt and SHA-256 are function parameters of `Accounts.UserTable.ResetPassword`; `Date.now()` is the parameter `now`.
- Issuing reset tokens (app/api/auth/forgot-password/route.js) is crypto and email; it writes differently named fields from those the reset route reads, and the model keeps only the fields the reset route reads.
- Sending mail (contact notification and auto-reply, nodemailer) is I/O and is not modelled; only the message summary is.
- Image upload (Cloudinary, `sharp`, the 15 MB cap) is a foreign call: the product form carries the image URLs the upload would return.
- Timers: the 500 ms debounce is the explicit event `CartContext.CartSession.FireTimer`; the 2-second redirects on the reset-password page are not modelled.
- `Promise.all` lookups (cart page, seller orders) are modelled one after another; cross-tab and cross-device races are not modelled.
- Local storage text that does not parse is the value `Unparsable`; the `JSON.parse` grammar is not modelled.
- Floating point: money is an exact `real`, so binary rounding of `x * 100` before `Math.floor` is not reproduced; `toFixed` and the cart page's percent-off badge text are display only.
- Regex lookups built from user input (app/api/category/add/route.js:39, app/api/seo/category/route.js:54-55) are case-insensitive string equality; a name containing regex metacharacters matches differently in the source.
- Whitespace and case: `trim`, `\s` and `toLowerCase` are modelled for ASCII characters only; JavaScript string length counts UTF-16 code units, the model counts characters.
- `ObjectId.isValid` is modelled as 24 hexadecimal digits or any 12-character text; Mongoose's cast rules beyond that are not modelled.
- The unique slug index of models/CategorySeo.js is modelled, but its `trim: true` on the slug is not.
- Order-line `_id`s and the stringified order `_id` are not modelled; items are identified by position.
- Toast and alert messages and `console` logging are not modelled; the page methods return whether a request was sent.
- The refresh of the category list after adding a category on the seller page is not modelled.
- The seller page's Access Denied view is the predicate `SellerPage.CanUseSellerPage` and has no row of its own.
- `JSON.stringify` of the category page's structured data is not modelled; `CategorySchema.Schema` builds the object. The window origin is the parameter `windowOrigin`.
- Products have no stock or slug field in models/Product.js, so the structured data of a stored product is always OutOfStock and links by id; the model keeps both fields optional as the component reads them.
- models/ProductPagesSeo.js is not part of this model; the record's fields are those the route writes. Body fields other than identifier, title, description and keywords, and `null` field values, are not modelled.
- The product listing order is the store's newest-first order, taken as the input order of `Products.ListProducts`.
- ForwardedQuantity: a fractional value typed into the quantity input is not modelled; cart quantities are whole numbers throughout the model.
- The contact page's `!message.trim()` condition is subsumed by the length condition and is not modelled separately.
- app/api/cart/remove-deleted-product/route.js imports modules that do not exist and treats the cart as an array; it is not part of this model.
- Static and display-only pages (warranty, layout, order lists, address and forgot-password pages, home products, sidebar) and thin reads (addresses, user list, category list) are not part of this model.

## Findings

| source | as written | input that shows it | evidently intended | confidence | as-written member | corrected member |
|---|---|---|---|---|---|---|
| app/cart/page.jsx:71-73 | each `updateCartQuantity(id, 0)` in the loop clones the cart of the current render, so every call overwrites the previous one and only the last deleted id is removed; the `[cartItems]` effect then runs again, so the cart reaches the intended state one id per pass, looking every line up again each time | rendered cart `{a: 1, b: 2}` with deleted ids `[a, b]`: the cart afterwards is `{a: 1}` | every deleted id is removed in one pass | not executed | CartPage.RemoveDeletedAsWritten, CartPage.StaleRemovalKeepsFirst | CartPage.RemoveDeleted |
| app/all-products/page.jsx:25-33 | `p.category` is the `{_id, name}` object that app/api/product/list/route.js:23-31 builds anew for each product, so the `Set` keeps one entry per product, `includes` on the selection compares objects by reference, and `category.toLowerCase()` at line 144 throws while the category list renders | two listed products of the category "Gaming Consoles": two entries, and the slug of either throws | the distinct category names are listed, filtered on and slugged | not executed | AllProducts.ListDataAsWritten, AllProducts.OneCategoryListedTwice, AllProducts.SlugAsWritten | AllProducts.CategoriesSpec, AllProducts.FilteredProductsSpec, AllProducts.Slug |
