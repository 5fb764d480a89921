# Demo marketplace: a verified model

This project models the core of a small in-memory shop, written in Python as `app/app.py`, and proves properties of that model in Dafny. The shop has four parts. Users log in and out, and each session has an id. Each session of a regular user gets a shopping cart. A payment is simulated. An application façade ties these together: it holds the user, category, product and session-to-cart tables and a single "current user" slot. It checks privileges before every cart or catalog operation, and it runs checkout. The project also models the older copy of `User` in the repository's root `app.py`, whose `is_admin` is broken.

Modules, one per component:

- `Wrappers` (`wrappers.dfy`): `Option`, `Result` and `Outcome`.
- `Identity` (`identity.dfy`): `UserType` and the `User` class. Its `sessionId` is an `Option<Token>`.
- `Catalog` (`catalog.dfy`): the `Category` and `Product` records, and the catalog invariant `Consistent`. It also holds the product scan that `remove_category` runs, as a loop.
- `Carts` (`carts.dfy`): `CartItem`, and the pure step functions `AddStep`, `RemoveStep` and `UpdateStep` that specify the cart operations. It defines the cart total `Total` and lemmas about it. The `Cart` class has methods proved against those functions.
- `Payments` (`payments.dfy`): `PaymentMethod` and the `Payment` class, which goes from pending to completed.
- `Shop` (`shop.dfy`): the `ShoppingApp` class and its seed data. Its object invariant `Valid()` is established by the constructor and preserved by every operation.
- `Scenarios` (`scenarios.dfy`): whole runs from the seed state, and what catalog edits do to existing carts.
- `LegacyIdentity` (`legacy_identity.dfy`): the root `app.py` copy of `User`.

Modelling choices:

- Prices are integer cents (199.99 is `19999`), so totals are exact. The source never checks that a price is non-negative, so prices are `int`, not `nat`.
- `uuid.uuid4()` becomes a fresh `Token` (a `nat`) taken from the counter `ShoppingApp.nextToken`. `User.Login` takes the token as a parameter. The invariant keeps every issued session id and cart key below the counter, so a new session never takes over an existing cart. It also keeps distinct sessions on distinct `Cart` objects, so a cart operation on one session leaves every other session's cart alone.
- Users, carts and payments are objects, as in the source. `currentUser` is a reference shared with the `users` table. Products and categories are values. The source only ever replaces or deletes them and never mutates them. So a `CartItem` keeps the product record it was created with, and later catalog edits cannot reach it.
- `Cart.get_total` sums over a dictionary. A Dafny map has no order, and a function can pick "some key" of it with `:|` only in ghost code, because compiled code must make a unique choice. So `Total` is a ghost definition that sums the lines in whichever order it picks them; `TotalRemove` proves that the order does not matter. `Cart.GetTotal` computes the same value with a loop.
- The source answers a failed operation with `False`, an exception or a printed message. The model keeps each operation's own discipline. Cart operations return an `Outcome` whose error names the `ValueError` the source raises. Façade operations return `bool`.
- `Checkout` also returns the `Payment` object it creates (or `null`), so that its contract can state the payment's amount and status. The source keeps the object in a local variable.

Where the specification and the code disagree, the model follows the code:
- Carts are created at login, not lazily on first use.
- Failures are booleans rather than distinct error kinds.
- Prices are not checked to be non-negative.
- `update_product` replaces the whole record.
- Deleting a product does not check carts. Each cart keeps its own copy of the product.

## Model

| member | source | states |
|---|---|---|
| Identity.User.constructor | app/app.py:42-46 | a new user has the given name, password and type, has no session and is not authenticated |
| Identity.User.Login | app/app.py:48-62 | succeeds exactly when the password matches; on success the session is the given fresh token and the user is authenticated; on failure the session is unchanged |
| Identity.User.Logout | app/app.py:64-65 | afterwards there is no session and the user is not authenticated, whatever the prior state (so repeating it changes nothing) |
| Carts.AddStep | app/app.py:139-153 | a quantity of 0 or less fails with the cart unchanged; otherwise the product's line exists afterwards with its old quantity plus the new one, keeps the product record it had (or takes the given one if new), and no other line changes; well-formedness is kept |
| Carts.Cart.AddItem | app/app.py:139-153 | the method's outcome and new contents are those of `AddStep` on the old contents |
| Carts.AddTwiceAccumulates | app/app.py:150-151 | adding the same product with q1 and then q2 gives the same single line as adding q1 + q2 once |
| Carts.RemoveStep | app/app.py:155-165 | an absent id fails with the cart unchanged; otherwise exactly that line is gone and every other line is unchanged |
| Carts.Cart.RemoveItem | app/app.py:155-165 | the method's outcome and new contents are those of `RemoveStep` on the old contents |
| Carts.UpdateStep | app/app.py:167-183 | an absent id fails first, even with a negative quantity; a negative quantity then fails with the cart unchanged; 0 deletes the line; a positive quantity overwrites the stored quantity and keeps the captured product; no other line changes |
| Carts.Cart.UpdateItem | app/app.py:167-183 | the method's outcome and new contents are those of `UpdateStep` on the old contents |
| Carts.UpdateZeroIsRemove | app/app.py:175-183 | for every id and cart, updating to 0 ends in the same outcome and contents as removing |
| Carts.SingleLineTotal | app/app.py:118-120 | a one-line cart totals that line's subtotal, the captured price times the quantity |
| Carts.TotalRemove | app/app.py:185-189 | the total is any one line's subtotal (captured price times quantity) plus the total of the rest, so the order of summation does not matter |
| Carts.AddStepTotal | app/app.py:148-153 | a successful add raises the total by exactly the added quantity times the price captured in the product's line |
| Carts.RemoveStepTotal | app/app.py:162-165 | removing a line lowers the total by exactly that line's subtotal |
| Carts.UpdateStepTotal | app/app.py:175-183 | updating to a positive quantity replaces the line's subtotal with captured price times the new quantity |
| Carts.Cart.GetTotal | app/app.py:185-189 | the loop returns the cart's `Total`, which is 0 for an empty cart |
| Carts.Cart.Clear | app/app.py:191-195 | the cart has no lines afterwards and its total is 0 |
| Catalog.Consistent | app/app.py:347-357 | in a consistent catalog the next product id and the next category id are both unused, so adding under them never overwrites a record |
| Catalog.ReferencesCategory | app/app.py:400-404 | the scan reports true exactly when some product belongs to the category |
| Payments.Payment.constructor | app/app.py:210-226 | a new payment records its amount and method and is pending |
| Payments.Payment.Process | app/app.py:228-231 | processing always returns true and leaves the payment completed |
| Shop.ShoppingApp.constructor | app/app.py:258-281 | the seed categories, products, users and counters (both at 5); no carts, nobody logged in, no sessions; the invariant holds (every product's category exists, all keys below their counters) |
| Shop.ShoppingApp.Valid | app/app.py:258-290 | under the invariant the next session id owns no cart yet, so a new login never takes over a cart |
| Shop.ShoppingApp.HasAdminPrivileges | app/app.py:298-316 | the admin check passes exactly when someone is logged in and the user check fails: the two checks never pass together, and with someone logged in one of them always passes |
| Shop.DistinctSessionsDistinctCarts | app/app.py:283-290 | under the invariant two different session ids own two different cart objects, since every login makes a new cart |
| Shop.SessionOfCurrentUser | app/app.py:298-316 | under the invariant a logged-in user is authenticated; a regular user's session owns a cart and an admin's owns none |
| Shop.ShoppingApp.Login | app/app.py:283-290 | succeeds exactly for a known username with the matching password; then that user is current with a fresh session id; a regular user gets a new, empty cart under it, without overwriting any cart; an admin gets none; failure leaves the current user, carts and sessions unchanged |
| Shop.ShoppingApp.Logout | app/app.py:292-296 | nobody is current afterwards and the former current user's session is cleared; carts, the catalog and other users' sessions are unchanged |
| Shop.ShoppingApp.GetCart | app/app.py:445-449 | yields a cart exactly when a regular user is logged in, and then it is that session's cart; for nobody or for an admin it yields none |
| Shop.ShoppingApp.AddToCart | app/app.py:318-332 | succeeds exactly when a regular user is logged in, the product id is known and the quantity is positive; the session's cart then changes as `AddStep` with the catalog's current record; on failure no cart changes, and no other session's cart ever changes (distinct sessions own distinct carts) |
| Shop.ShoppingApp.RemoveFromCart | app/app.py:451-467 | succeeds exactly when a regular user is logged in and the product is in that session's cart; the cart changes as `RemoveStep`; on failure no cart changes, and no other session's cart ever changes |
| Shop.ShoppingApp.Checkout | app/app.py:428-443 | succeeds exactly when a regular user is logged in with a non-empty cart; then a fresh payment for the total taken before clearing is completed with the chosen method, and the cart ends empty; on failure no payment is made and no cart changes; other sessions' carts never change |
| Shop.ShoppingApp.AddProduct | app/app.py:347-357 | succeeds exactly for an admin with an existing category; then the product is stored under the previous next-id, which was unused, and the counter grows by one; otherwise the catalog is unchanged; sessions and carts are never touched |
| Shop.ShoppingApp.UpdateProduct | app/app.py:359-371 | succeeds exactly for an admin, an existing product id and an existing category; then the whole record under that id is replaced; otherwise the products are unchanged; carts are never touched |
| Shop.ShoppingApp.RemoveProduct | app/app.py:373-382 | succeeds exactly for an admin and an existing product id, which is then deleted; otherwise the products are unchanged; carts are never touched |
| Shop.ShoppingApp.AddCategory | app/app.py:384-391 | succeeds exactly for an admin; then the category is stored under the previous next-id, which was unused, and the counter grows by one |
| Shop.ShoppingApp.RemoveCategory | app/app.py:393-407 | succeeds exactly for an admin, an existing category and no product in it; then that category is deleted; otherwise nothing changes |
| Scenarios.SeedCartTotal | app/app.py:267-272 | two Leather Boots and one Winter Coat at seed prices total 649.97 (64997 cents) |
| Scenarios.RegularCheckout | app/app.py:428-443 | from the seed state, user1 logs in, adds 2 × product 1 and 1 × product 2, and checks out: checkout succeeds, the payment is 64997 cents and the cart ends empty |
| Scenarios.RolesAreSeparate | app/app.py:298-316 | from the seed state, for every product id, quantity, name, category and price: a logged-in admin cannot add to a cart and has no cart, and a logged-in regular user cannot add a product |
| Scenarios.CategoryRemovalIsBlocked | app/app.py:393-407 | removing the Boots category fails while Leather Boots is in it, and succeeds once that product is removed |
| Scenarios.CatalogEditsKeepCartTotals | app/app.py:359-382 | updating and then deleting a product leaves every existing cart's total unchanged |
| LegacyIdentity.Member | app.py:21-22 | `UserType.<name>` resolves only for the member names `user` and `admin`; every other name, `ADMIN` included, raises `AttributeError` |
| LegacyIdentity.MemberOfName | app.py:21-22 | looking up a member by its own name yields that member, for both members |
| LegacyIdentity.NameOfMember | app.py:21-22 | a name that resolves is the name of the member it resolves to, so the lookup and the member names are inverse |
| LegacyIdentity.IsMember | app.py:74 | comparing a user type with `UserType.<name>` returns normally exactly when the name resolves |
| LegacyIdentity.IsMemberOfName | app.py:74 | comparing with a member looked up by its own name returns normally, and is true exactly when the two types are equal |
| LegacyIdentity.User.constructor | app.py:45-49 | a new user has no session and is not authenticated |
| LegacyIdentity.User.Login | app.py:62-65 | a matching password returns true and sets the session; a wrong one returns false and leaves the session unchanged |
| LegacyIdentity.User.Logout | app.py:67-68 | afterwards the user is not authenticated, whatever the prior state |
| LegacyIdentity.User.IsAdmin | app.py:73-74 | as written, it never returns normally: it raises `AttributeError` for every user, admins included |
| LegacyIdentity.User.IsAdminIntended | app/app.py:70-71 | with the member spelled `admin`, the check returns normally and is true exactly for admins |

## Findings

| source | as written | input that shows it | evidently intended | confidence | as-written member | corrected member |
|---|---|---|---|---|---|---|
| app.py:73-74 | `is_admin` compares against `UserType.ADMIN`, but the enum only has members `user` and `admin` | `User("admin", "admin123", UserType.admin).is_admin()` raises `AttributeError` instead of returning `True` | compare against `UserType.admin`, as app/app.py:71 does | high; not executed | LegacyIdentity.User.IsAdmin | LegacyIdentity.User.IsAdminIntended |

The façade uses `Identity.User`, the copy in app/app.py, whose `IsAdmin` is the corrected comparison.

## Left out

- `main()` and its menu loops (app/app.py:470-612), `display_catalog` and `display_categories` (app/app.py:409-426), and every printed message: these are text I/O. Only results and state changes are modelled.
- The first `remove_from_cart` (app/app.py:334-345) is dead code, because Python replaces it with the later definition at app/app.py:451-467.
- Shop.ShoppingApp.RemoveFromCart: its "Cart not found" branch is kept, but `Valid()` shows that a logged-in regular user always has a cart, so the branch is never taken.
- Randomness: `uuid.uuid4()` (app/app.py:60, app.py:63) is replaced by a fresh token from a counter. Only freshness is modelled, not the string format.
- The clock: `datetime.now()` in `Payment` (app/app.py:225) is not modelled.
- Floating point: prices are integer cents. Float rounding and the `:.2f` formatting (app/app.py:417, 439, 583-584) are not modelled.
- The `PaymentMethod` display strings (app/app.py:202-206) are used only in printed text. The method is kept as a plain enum.
- The `payments` list mentioned in a docstring (app/app.py:246) is never created, and checkout stores no payment history, so it is not modelled.
- The `username` attribute of `User` is stored but never used by the façade, which looks users up by the table key. The model does not relate the two.
- `UserManager` and `ProductManager`, which app/tests/test_app.py imports, do not exist in app/app.py. They are not part of this model, and neither is the partial-field product update those tests assume.
