/** Whole-application runs from the seed state, and what catalog edits leave untouched. */
module Scenarios {
  import opened Catalog
  import opened Carts
  import opened Payments
  import opened Shop

  /** Two Leather Boots and one Winter Coat, at seed prices, cost 649.97. */
  lemma SeedCartTotal()
    ensures Total(map[1 := CartItem(SeedProducts[1], 2), 2 := CartItem(SeedProducts[2], 1)]) == 64997
  {
    var boots := CartItem(SeedProducts[1], 2);
    var coat := CartItem(SeedProducts[2], 1);
    var both := map[1 := boots, 2 := coat];
    TotalRemove(both, 1);
    assert both - {1} == map[2 := coat];
    TotalRemove(map[2 := coat], 2);
    assert map[2 := coat] - {2} == map[];
  }

  /**
   * user1 logs in, adds two Leather Boots and one Winter Coat, and checks out: the cart
   * ends empty and a completed payment of 649.97 exists.
   */
  method RegularCheckout() returns (ok: bool, amount: int, emptied: bool)
    ensures ok && amount == 64997 && emptied
  {
    var app := new ShoppingApp();
    var logged := app.Login("user1", "pass123");
    assert logged;
    var added := app.AddToCart(1, 2);
    assert app.CurrentCart().items == map[1 := CartItem(SeedProducts[1], 2)];
    added := app.AddToCart(2, 1);
    assert app.CurrentCart().items == map[1 := CartItem(SeedProducts[1], 2), 2 := CartItem(SeedProducts[2], 1)];
    SeedCartTotal();
    var payment;
    ok, payment := app.Checkout(CreditCard);
    amount := payment.amount;
    emptied := app.CurrentCart().items == map[];
  }

  /** Each role is refused the other's operations, whatever the arguments. */
  method RolesAreSeparate(productId: int, quantity: int, name: string, categoryId: int, price: int)
    returns (adminShops: bool, userEditsCatalog: bool, adminCart: bool)
    ensures !adminShops && !userEditsCatalog && !adminCart
  {
    var app := new ShoppingApp();
    var logged := app.Login("admin", "admin123");
    assert logged;
    adminShops := app.AddToCart(productId, quantity);
    adminCart := app.GetCart() != null;
    app.Logout();
    logged := app.Login("user1", "pass123");
    assert logged;
    userEditsCatalog := app.AddProduct(name, categoryId, price);
  }

  /**
   * The Boots category cannot be removed while Leather Boots belongs to it; once that
   * product is removed, the same call succeeds.
   */
  method CategoryRemovalIsBlocked() returns (first: bool, second: bool)
    ensures !first && second
  {
    var app := new ShoppingApp();
    var logged := app.Login("admin", "admin123");
    assert logged;
    assert InUse(app.products, 1) by { assert app.products[1] in app.products.Values; }
    first := app.RemoveCategory(1);
    var removed := app.RemoveProduct(1);
    assert removed;
    assert !InUse(app.products, 1) by {
      assert app.products == SeedProducts - {1};
      forall p | p in app.products.Values ensures p.categoryId != 1 {
        var id :| id in app.products && app.products[id] == p;
      }
    }
    second := app.RemoveCategory(1);
  }

  /**
   * Editing or deleting a product does not change the total of a cart that already holds
   * it: the cart line keeps the record it captured.
   */
  method CatalogEditsKeepCartTotals(app: ShoppingApp, cart: Cart, productId: int, name: string,
                                    categoryId: int, price: int)
    returns (before: int, after: int)
    requires app.Valid() && cart in app.carts.Values
    modifies app
    ensures app.Valid() && before == after
  {
    before := cart.GetTotal();
    var updated := app.UpdateProduct(productId, name, categoryId, price);
    var removed := app.RemoveProduct(productId);
    after := cart.GetTotal();
  }
}
