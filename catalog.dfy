/** Catalog records (`Category`, `Product` in app/app.py) and the invariant that ties them. */
module Catalog {

  datatype Category = Category(id: int, name: string)

  /** `price` is in integer cents; the source stores a float and never checks its sign. */
  datatype Product = Product(id: int, name: string, categoryId: int, price: int)

  /**
   * The catalog invariant: every record is stored under its own id, every id is below the
   * counter that hands out the next one, and every product's category exists.
   */
  ghost predicate Consistent(categories: map<int, Category>, products: map<int, Product>,
                             nextProductId: int, nextCategoryId: int)
    ensures Consistent(categories, products, nextProductId, nextCategoryId) ==>
              nextProductId !in products && nextCategoryId !in categories
  {
    && (forall c :: c in categories ==> categories[c].id == c && c < nextCategoryId)
    && (forall p :: p in products ==>
          products[p].id == p && p < nextProductId && products[p].categoryId in categories)
  }

  /** Some product of the catalog belongs to the category. */
  ghost predicate InUse(products: map<int, Product>, categoryId: int) {
    exists p :: p in products.Values && p.categoryId == categoryId
  }

  /** The scan `remove_category` runs over the products before deleting a category. */
  method ReferencesCategory(products: map<int, Product>, categoryId: int) returns (found: bool)
    ensures found <==> InUse(products, categoryId)
  {
    var rest := products.Values;
    while rest != {}
      invariant rest <= products.Values
      invariant forall p :: p in products.Values && p !in rest ==> p.categoryId != categoryId
      decreases rest
    {
      var product :| product in rest;
      if product.categoryId == categoryId {
        return true;
      }
      rest := rest - {product};
    }
    return false;
  }
}
