/** The application façade (`ShoppingApp` in app/app.py). */
module Shop {
  import opened Wrappers
  import opened Identity
  import opened Catalog
  import opened Carts
  import opened Payments

  /** The categories and products the application starts with (prices in cents). */
  const SeedCategories: map<int, Category> :=
    map[1 := Category(1, "Boots"), 2 := Category(2, "Coats"),
        3 := Category(3, "Jackets"), 4 := Category(4, "Caps")]

  const SeedProducts: map<int, Product> :=
    map[1 := Product(1, "Leather Boots", 1, 19999), 2 := Product(2, "Winter Coat", 2, 24999),
        3 := Product(3, "Denim Jacket", 3, 9999), 4 := Product(4, "Sports Cap", 4, 2999)]

  /** No two sessions share a cart object. */
  ghost predicate DistinctCarts(carts: map<Token, Cart>) {
    forall t1, t2 :: t1 in carts && t2 in carts && t1 != t2 ==> carts[t1] != carts[t2]
  }

  /** A cart no session owns can be added under any new session id. */
  lemma AddDistinctCart(carts: map<Token, Cart>, token: Token, cart: Cart)
    requires DistinctCarts(carts) && token !in carts
    requires forall t :: t in carts ==> carts[t] != cart
    ensures DistinctCarts(carts[token := cart])
  {
  }

  class ShoppingApp {
    var categories: map<int, Category>
    var products: map<int, Product>
    const users: map<string, User>
    /** Session id to cart. */
    var carts: map<Token, Cart>
    /** The one logged-in user, shared with `users`. */
    var currentUser: User?
    var nextProductId: int
    var nextCategoryId: int
    /** Where fresh session ids come from (the source calls `uuid.uuid4()`). */
    var nextToken: Token

    /**
     * The catalog is consistent; every session id and cart key was handed out already;
     * distinct sessions own distinct carts; an admin's session never owns a cart; the
     * logged-in user has a session, and a logged-in regular user has a cart under it.
     */
    ghost predicate Valid()
      reads this, users.Values, carts.Values
      ensures Valid() ==> nextToken !in carts
    {
      && Consistent(categories, products, nextProductId, nextCategoryId)
      && (forall t :: t in carts ==> t < nextToken && carts[t].Valid())
      && DistinctCarts(carts)
      && (forall u :: u in users.Values && u.sessionId.Some? ==> u.sessionId.value < nextToken)
      && (forall u :: u in users.Values && u.IsAdmin() && u.sessionId.Some? ==> u.sessionId.value !in carts)
      && (currentUser != null ==>
            && currentUser in users.Values && currentUser.sessionId.Some?
            && (!currentUser.IsAdmin() ==> currentUser.sessionId.value in carts))
    }

    /** `check_user_privileges`: someone is logged in and is not an admin. */
    predicate HasUserPrivileges()
      reads this
    {
      currentUser != null && !currentUser.IsAdmin()
    }

    /** `check_admin_privileges`: someone is logged in and is an admin; never both checks pass. */
    predicate HasAdminPrivileges()
      reads this
      ensures HasAdminPrivileges() <==> currentUser != null && !HasUserPrivileges()
    {
      currentUser != null && currentUser.IsAdmin()
    }

    /** The cart of the logged-in regular user's session. */
    function CurrentCart(): (cart: Cart)
      requires Valid() && HasUserPrivileges()
      reads this, users.Values, carts.Values
      ensures cart in carts.Values && cart.Valid()
    {
      carts[currentUser.sessionId.value]
    }

    twostate predicate CatalogUnchanged()
      reads this
    {
      && categories == old(categories) && products == old(products)
      && nextProductId == old(nextProductId) && nextCategoryId == old(nextCategoryId)
    }

    twostate predicate SessionsUnchanged()
      reads this
    {
      currentUser == old(currentUser) && carts == old(carts) && nextToken == old(nextToken)
    }

    constructor ()
      ensures Valid() && fresh(users.Values)
      ensures categories == SeedCategories && products == SeedProducts
      ensures nextProductId == 5 && nextCategoryId == 5
      ensures users.Keys == {"user1", "admin"}
      ensures users["user1"].password == "pass123" && users["user1"].userType == Regular
      ensures users["admin"].password == "admin123" && users["admin"].userType == Admin
      ensures forall u :: u in users.Values ==> !u.IsAuthenticated()
      ensures carts == map[] && currentUser == null
    {
      categories := SeedCategories;
      products := SeedProducts;
      var regular := new User("user1", "pass123", Regular);
      var admin := new User("admin", "admin123", Admin);
      users := map["user1" := regular, "admin" := admin];
      carts := map[];
      currentUser := null;
      nextProductId := 5;
      nextCategoryId := 5;
      nextToken := 0;
    }

    /**
     * Succeeds exactly for a known user with the right password; that user becomes the
     * current one with a fresh session, and a regular user gets a new empty cart under it.
     */
    method Login(username: string, password: string) returns (ok: bool)
      requires Valid()
      modifies this, users.Values
      ensures Valid() && CatalogUnchanged()
      ensures ok <==> username in users && users[username].password == password
      ensures ok ==> currentUser == users[username] && currentUser.sessionId == Some(old(nextToken))
      ensures nextToken == if ok then old(nextToken) + 1 else old(nextToken)
      ensures ok && HasUserPrivileges() ==>
                && old(nextToken) !in old(carts)
                && carts.Keys == old(carts).Keys + {old(nextToken)}
                && fresh(carts[old(nextToken)]) && carts[old(nextToken)].items == map[]
                && (forall t :: t in old(carts) ==> carts[t] == old(carts)[t])
      ensures ok && HasAdminPrivileges() ==> carts == old(carts)
      ensures !ok ==> currentUser == old(currentUser) && carts == old(carts)
      ensures forall u :: u in users.Values && (!ok || u != users[username]) ==> u.sessionId == old(u.sessionId)
      ensures forall c :: c in old(carts).Values ==> c.items == old(c.items)
    {
      if username !in users {
        return false;
      }
      var user := users[username];
      var token := nextToken;
      ok := user.Login(password, token);
      if !ok {
        return;
      }
      nextToken := nextToken + 1;
      currentUser := user;
      if !user.IsAdmin() {
        var cart := new Cart();
        AddDistinctCart(carts, token, cart);
        carts := carts[token := cart];
      }
    }

    /** Ends the current user's session (its cart stays in the table) and clears the slot. */
    method Logout()
      requires Valid()
      modifies this, users.Values
      ensures Valid() && CatalogUnchanged()
      ensures currentUser == null && carts == old(carts) && nextToken == old(nextToken)
      ensures old(currentUser) != null ==> !old(currentUser).IsAuthenticated()
      ensures forall u :: u in users.Values && u != old(currentUser) ==> u.sessionId == old(u.sessionId)
    {
      if currentUser != null {
        currentUser.Logout();
        currentUser := null;
      }
    }

    /**
     * The cart of the current session: present exactly when a regular user is logged in,
     * absent for nobody and for an admin.
     */
    function GetCart(): (cart: Cart?)
      requires Valid()
      reads this, users.Values, carts.Values
      ensures cart != null <==> HasUserPrivileges()
      ensures cart != null ==> cart == CurrentCart()
    {
      if currentUser == null || currentUser.sessionId.None? then null
      else if currentUser.sessionId.value in carts then carts[currentUser.sessionId.value]
      else null
    }

    /** A regular user adds a positive quantity of a known product to their cart. */
    method AddToCart(productId: int, quantity: int) returns (ok: bool)
      requires Valid()
      modifies carts.Values
      ensures Valid()
      ensures ok <==> HasUserPrivileges() && productId in products && quantity > 0
      ensures HasUserPrivileges() && productId in products ==>
                CurrentCart().items == AddStep(old(CurrentCart().items), products[productId], quantity).items
      ensures forall t :: t in carts && (!ok || t != currentUser.sessionId.value) ==>
                carts[t].items == old(carts[t].items)
    {
      if !HasUserPrivileges() {
        return false;
      }
      if productId !in products {
        return false;
      }
      var cart := carts[currentUser.sessionId.value];
      var outcome := cart.AddItem(products[productId], quantity);
      ok := outcome.Pass?;
    }

    /** A regular user drops a product's line from their cart; an absent product fails. */
    method RemoveFromCart(productId: int) returns (ok: bool)
      requires Valid()
      modifies carts.Values
      ensures Valid()
      ensures ok <==> HasUserPrivileges() && productId in old(CurrentCart().items)
      ensures HasUserPrivileges() ==>
                CurrentCart().items == RemoveStep(old(CurrentCart().items), productId).items
      ensures forall t :: t in carts && (!ok || t != currentUser.sessionId.value) ==>
                carts[t].items == old(carts[t].items)
    {
      if !HasUserPrivileges() {
        return false;
      }
      var token := currentUser.sessionId.value;
      if token !in carts {
        // "Cart not found.": Valid() rules this out for a logged-in regular user.
        return false;
      }
      var outcome := carts[token].RemoveItem(productId);
      ok := outcome.Pass?;
    }

    /**
     * A regular user pays for a non-empty cart: the total is taken before the cart is
     * cleared, and the payment it creates ends completed.
     */
    method Checkout(paymentMethod: PaymentMethod) returns (ok: bool, payment: Payment?)
      requires Valid()
      modifies carts.Values
      ensures Valid()
      ensures ok <==> HasUserPrivileges() && old(CurrentCart().items) != map[]
      ensures ok <==> payment != null
      ensures ok ==> && fresh(payment) && payment.amount == old(Total(CurrentCart().items))
                     && payment.paymentMethod == paymentMethod && payment.status == Completed
      ensures ok ==> CurrentCart().items == map[]
      ensures forall t :: t in carts && (!ok || t != currentUser.sessionId.value) ==>
                carts[t].items == old(carts[t].items)
    {
      if !HasUserPrivileges() {
        return false, null;
      }
      var cart := carts[currentUser.sessionId.value];
      if cart.items == map[] {
        return false, null;
      }
      var total := cart.GetTotal();
      var p := new Payment(total, paymentMethod);
      var processed := p.Process();
      if processed {
        cart.Clear();
        return true, p;
      }
      return false, null;
    }

    /** An admin adds a product to an existing category under the next product id. */
    method AddProduct(name: string, categoryId: int, price: int) returns (ok: bool)
      requires Valid()
      modifies this
      ensures Valid() && SessionsUnchanged()
      ensures categories == old(categories) && nextCategoryId == old(nextCategoryId)
      ensures ok <==> HasAdminPrivileges() && categoryId in categories
      ensures ok ==> && old(nextProductId) !in old(products)
                     && products == old(products)[old(nextProductId) := Product(old(nextProductId), name, categoryId, price)]
                     && nextProductId == old(nextProductId) + 1
      ensures !ok ==> products == old(products) && nextProductId == old(nextProductId)
    {
      if !HasAdminPrivileges() {
        return false;
      }
      if categoryId !in categories {
        return false;
      }
      products := products[nextProductId := Product(nextProductId, name, categoryId, price)];
      nextProductId := nextProductId + 1;
      return true;
    }

    /** An admin replaces every field of an existing product, keeping its id. */
    method UpdateProduct(productId: int, name: string, categoryId: int, price: int) returns (ok: bool)
      requires Valid()
      modifies this
      ensures Valid() && SessionsUnchanged()
      ensures categories == old(categories) && nextProductId == old(nextProductId)
      ensures nextCategoryId == old(nextCategoryId)
      ensures ok <==> HasAdminPrivileges() && productId in old(products) && categoryId in categories
      ensures products == if ok then old(products)[productId := Product(productId, name, categoryId, price)]
                          else old(products)
    {
      if !HasAdminPrivileges() {
        return false;
      }
      if productId !in products {
        return false;
      }
      if categoryId !in categories {
        return false;
      }
      products := products[productId := Product(productId, name, categoryId, price)];
      return true;
    }

    /** An admin deletes an existing product; carts keep their own copies of it. */
    method RemoveProduct(productId: int) returns (ok: bool)
      requires Valid()
      modifies this
      ensures Valid() && SessionsUnchanged()
      ensures categories == old(categories) && nextProductId == old(nextProductId)
      ensures nextCategoryId == old(nextCategoryId)
      ensures ok <==> HasAdminPrivileges() && productId in old(products)
      ensures products == if ok then old(products) - {productId} else old(products)
    {
      if !HasAdminPrivileges() {
        return false;
      }
      if productId !in products {
        return false;
      }
      products := products - {productId};
      return true;
    }

    /** An admin adds a category under the next category id. */
    method AddCategory(name: string) returns (ok: bool)
      requires Valid()
      modifies this
      ensures Valid() && SessionsUnchanged()
      ensures products == old(products) && nextProductId == old(nextProductId)
      ensures ok <==> HasAdminPrivileges()
      ensures ok ==> && old(nextCategoryId) !in old(categories)
                     && categories == old(categories)[old(nextCategoryId) := Category(old(nextCategoryId), name)]
                     && nextCategoryId == old(nextCategoryId) + 1
      ensures !ok ==> categories == old(categories) && nextCategoryId == old(nextCategoryId)
    {
      if !HasAdminPrivileges() {
        return false;
      }
      categories := categories[nextCategoryId := Category(nextCategoryId, name)];
      nextCategoryId := nextCategoryId + 1;
      return true;
    }

    /** An admin deletes an existing category that no product belongs to. */
    method RemoveCategory(categoryId: int) returns (ok: bool)
      requires Valid()
      modifies this
      ensures Valid() && SessionsUnchanged()
      ensures products == old(products) && nextProductId == old(nextProductId)
      ensures nextCategoryId == old(nextCategoryId)
      ensures ok <==> HasAdminPrivileges() && categoryId in old(categories) && !InUse(products, categoryId)
      ensures categories == if ok then old(categories) - {categoryId} else old(categories)
    {
      if !HasAdminPrivileges() {
        return false;
      }
      if categoryId !in categories {
        return false;
      }
      var used := ReferencesCategory(products, categoryId);
      if used {
        return false;
      }
      assert forall p :: p in products ==> products[p] in products.Values;
      categories := categories - {categoryId};
      return true;
    }
  }

  /** Every login makes a new cart, so no two sessions share one. */
  lemma DistinctSessionsDistinctCarts(app: ShoppingApp, t1: Token, t2: Token)
    requires app.Valid() && t1 in app.carts && t2 in app.carts && t1 != t2
    ensures app.carts[t1] != app.carts[t2]
  {
  }

  /**
   * Under the invariant the current user is authenticated, a regular user's session owns
   * a cart and an admin's owns none, so each privilege check passes for exactly one role.
   */
  lemma SessionOfCurrentUser(app: ShoppingApp)
    requires app.Valid()
    ensures app.currentUser != null ==> app.currentUser.IsAuthenticated()
    ensures app.HasUserPrivileges() ==> app.currentUser.sessionId.value in app.carts
    ensures app.HasAdminPrivileges() ==> app.currentUser.sessionId.value !in app.carts
  {
  }
}
