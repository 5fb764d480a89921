/** The shopping cart (`CartItem`, `Cart` in app/app.py). */
module Carts {
  import opened Wrappers
  import opened Catalog

  /**
   * A line of the cart. It holds the product record as it was when first added, so later
   * catalog edits do not reach it.
   */
  datatype CartItem = CartItem(product: Product, quantity: nat)

  /** The cart's contents, keyed by product id. */
  type Items = map<int, CartItem>

  /** The errors `Cart` raises (each a `ValueError` in the source). */
  datatype CartError = QuantityNotPositive | NotInCart | QuantityNegative

  /** What a cart operation reports, and the contents it leaves. */
  datatype Step = Step(outcome: Outcome<CartError>, items: Items)

  function Subtotal(item: CartItem): int {
    item.product.price * item.quantity
  }

  /** Every line is stored under its product's id and has a positive quantity. */
  ghost predicate WellFormed(items: Items) {
    forall k :: k in items ==> items[k].product.id == k && items[k].quantity > 0
  }

  /** The quantity of a product in the cart, 0 when it has no line. */
  function QuantityOf(items: Items, id: int): nat {
    if id in items then items[id].quantity else 0
  }

  /** The price a new unit of `product` is charged at: that of the line's captured record. */
  function CapturedPrice(items: Items, product: Product): int {
    if product.id in items then items[product.id].product.price else product.price
  }

  /** `add_item`: a positive quantity is added to the product's line, creating it if needed. */
  function AddStep(items: Items, product: Product, quantity: int): (r: Step)
    ensures quantity <= 0 ==> r == Step(Fail(QuantityNotPositive), items)
    ensures quantity > 0 ==> r.outcome == Pass && r.items.Keys == items.Keys + {product.id}
    ensures quantity > 0 ==> r.items[product.id].quantity == QuantityOf(items, product.id) + quantity
    ensures quantity > 0 && product.id in items ==> r.items[product.id].product == items[product.id].product
    ensures quantity > 0 && product.id !in items ==> r.items[product.id].product == product
    ensures forall k :: k in items && k != product.id ==> r.items[k] == items[k]
    ensures WellFormed(items) ==> WellFormed(r.items)
  {
    if quantity <= 0 then
      Step(Fail(QuantityNotPositive), items)
    else if product.id in items then
      var item := items[product.id];
      Step(Pass, items[product.id := item.(quantity := item.quantity + quantity)])
    else
      Step(Pass, items[product.id := CartItem(product, quantity)])
  }

  /** `remove_item`: an absent product is an error; otherwise its line is dropped. */
  function RemoveStep(items: Items, id: int): (r: Step)
    ensures id !in items ==> r == Step(Fail(NotInCart), items)
    ensures id in items ==> r.outcome == Pass && r.items.Keys == items.Keys - {id}
    ensures forall k :: k in r.items ==> k in items && r.items[k] == items[k]
    ensures WellFormed(items) ==> WellFormed(r.items)
  {
    if id !in items then Step(Fail(NotInCart), items) else Step(Pass, items - {id})
  }

  /**
   * `update_item`: the absent-product check comes first, then the negative-quantity check;
   * 0 drops the line and a positive quantity replaces the stored one.
   */
  function UpdateStep(items: Items, id: int, quantity: int): (r: Step)
    ensures id !in items ==> r == Step(Fail(NotInCart), items)
    ensures id in items && quantity < 0 ==> r == Step(Fail(QuantityNegative), items)
    ensures id in items && quantity == 0 ==> r.outcome == Pass && r.items.Keys == items.Keys - {id}
    ensures id in items && quantity > 0 ==>
              r.outcome == Pass && r.items.Keys == items.Keys
              && r.items[id] == CartItem(items[id].product, quantity)
    ensures forall k :: k in r.items && k != id ==> k in items && r.items[k] == items[k]
    ensures WellFormed(items) ==> WellFormed(r.items)
  {
    if id !in items then Step(Fail(NotInCart), items)
    else if quantity < 0 then Step(Fail(QuantityNegative), items)
    else if quantity == 0 then Step(Pass, items - {id})
    else Step(Pass, items[id := items[id].(quantity := quantity)])
  }

  /** Updating to quantity 0 ends in the same result and contents as removing, for every id. */
  lemma UpdateZeroIsRemove(items: Items, id: int)
    ensures UpdateStep(items, id, 0) == RemoveStep(items, id)
  {
  }

  /** Adding the same product twice leaves one line holding the sum of both quantities. */
  lemma AddTwiceAccumulates(items: Items, product: Product, q1: int, q2: int)
    requires q1 > 0 && q2 > 0
    ensures AddStep(AddStep(items, product, q1).items, product, q2) == AddStep(items, product, q1 + q2)
  {
  }

  /** `get_total`: the sum of every line's captured price times its quantity. */
  ghost function Total(items: Items): int
    decreases |items|
  {
    if |items| == 0 then 0
    else
      var k := SomeKey(items);
      assert |items - {k}| < |items| by { CardRemove(items, k); }
      Subtotal(items[k]) + Total(items - {k})
  }

  /** The line `Total` takes first; which one it is does not matter (see `TotalRemove`). */
  ghost function SomeKey(items: Items): (k: int)
    requires |items| > 0
    ensures k in items
  {
    NoKeyMeansEmpty(items);
    var k :| k in items; k
  }

  lemma NoKeyMeansEmpty(items: Items)
    ensures (forall k :: k !in items) ==> items == map[]
  {
    if forall k :: k !in items { assert items.Keys == {}; }
  }

  lemma CardRemove(items: Items, k: int)
    requires k in items
    ensures |items - {k}| == |items| - 1
  {
  }

  /** The total does not depend on the order the lines are summed in: any line can go first. */
  lemma {:induction false} TotalRemove(items: Items, k: int)
    requires k in items
    ensures Total(items) == Subtotal(items[k]) + Total(items - {k})
    decreases |items|
  {
    var j := SomeKey(items);
    if j != k {
      CardRemove(items, j);
      CardRemove(items, k);
      TotalRemove(items - {j}, k);
      TotalRemove(items - {k}, j);
      assert items - {j} - {k} == items - {k} - {j};
    }
  }

  /** Replacing (or inserting) one line changes the total by that line's subtotal alone. */
  lemma TotalAssign(items: Items, k: int, item: CartItem)
    ensures Total(items[k := item]) == Total(items - {k}) + Subtotal(item)
  {
    TotalRemove(items[k := item], k);
    assert items[k := item] - {k} == items - {k};
  }

  /** A cart of one line totals that line's subtotal: captured price times quantity. */
  lemma SingleLineTotal(item: CartItem)
    ensures Total(map[item.product.id := item]) == item.product.price * item.quantity
  {
    var line := map[item.product.id := item];
    TotalRemove(line, item.product.id);
    assert line - {item.product.id} == map[];
  }

  /** `add_item` raises the total by exactly the added units at their captured price. */
  lemma AddStepTotal(items: Items, product: Product, quantity: int)
    requires quantity > 0
    ensures Total(AddStep(items, product, quantity).items)
         == Total(items) + CapturedPrice(items, product) * quantity
  {
    var id := product.id;
    if id in items {
      var item := items[id];
      assert AddStep(items, product, quantity).items
          == items[id := item.(quantity := item.quantity + quantity)];
      GrowLineTotal(items, id, quantity);
    } else {
      assert AddStep(items, product, quantity).items == items[id := CartItem(product, quantity)];
      NewLineTotal(items, CartItem(product, quantity));
    }
  }

  lemma GrowLineTotal(items: Items, id: int, extra: nat)
    requires id in items
    ensures Total(items[id := items[id].(quantity := items[id].quantity + extra)])
         == Total(items) + items[id].product.price * extra
  {
    var item := items[id];
    var grown := item.(quantity := item.quantity + extra);
    TotalAssign(items, id, grown);
    TotalRemove(items, id);
    MulAdd(item.product.price, item.quantity, extra);
  }

  lemma NewLineTotal(items: Items, item: CartItem)
    requires item.product.id !in items
    ensures Total(items[item.product.id := item]) == Total(items) + Subtotal(item)
  {
    TotalAssign(items, item.product.id, item);
    assert items - {item.product.id} == items;
  }

  lemma MulAdd(price: int, a: int, b: int)
    ensures price * (a + b) == price * a + price * b
  {
  }

  /** `remove_item` lowers the total by the removed line's subtotal. */
  lemma RemoveStepTotal(items: Items, id: int)
    requires id in items
    ensures Total(RemoveStep(items, id).items) == Total(items) - Subtotal(items[id])
  {
    TotalRemove(items, id);
  }

  /** `update_item` to a positive quantity charges the captured price for the new quantity only. */
  lemma UpdateStepTotal(items: Items, id: int, quantity: int)
    requires id in items && quantity > 0
    ensures Total(UpdateStep(items, id, quantity).items)
         == Total(items) - Subtotal(items[id]) + items[id].product.price * quantity
  {
    TotalAssign(items, id, items[id].(quantity := quantity));
    TotalRemove(items, id);
  }

  class Cart {
    var items: Items

    ghost predicate Valid()
      reads this
    {
      WellFormed(items)
    }

    constructor ()
      ensures Valid() && items == map[]
    {
      items := map[];
    }

    method AddItem(product: Product, quantity: int) returns (outcome: Outcome<CartError>)
      modifies this
      ensures Step(outcome, items) == AddStep(old(items), product, quantity)
    {
      if quantity <= 0 {
        return Fail(QuantityNotPositive);
      }
      if product.id in items {
        var item := items[product.id];
        items := items[product.id := item.(quantity := item.quantity + quantity)];
      } else {
        items := items[product.id := CartItem(product, quantity)];
      }
      return Pass;
    }

    method RemoveItem(id: int) returns (outcome: Outcome<CartError>)
      modifies this
      ensures Step(outcome, items) == RemoveStep(old(items), id)
    {
      if id !in items {
        return Fail(NotInCart);
      }
      items := items - {id};
      return Pass;
    }

    method UpdateItem(id: int, quantity: int) returns (outcome: Outcome<CartError>)
      modifies this
      ensures Step(outcome, items) == UpdateStep(old(items), id, quantity)
    {
      if id !in items {
        return Fail(NotInCart);
      }
      if quantity < 0 {
        return Fail(QuantityNegative);
      }
      if quantity == 0 {
        items := items - {id};
        return Pass;
      }
      items := items[id := items[id].(quantity := quantity)];
      return Pass;
    }

    /** Sums the lines one at a time, in whatever order the map yields them. */
    method GetTotal() returns (total: int)
      ensures total == Total(items)
      ensures items == map[] ==> total == 0
    {
      total := 0;
      var rest := items;
      while rest != map[]
        invariant total + Total(rest) == Total(items)
        decreases |rest|
      {
        NoKeyMeansEmpty(rest);
        var k :| k in rest;
        TotalRemove(rest, k);
        CardRemove(rest, k);
        total := total + Subtotal(rest[k]);
        rest := rest - {k};
      }
    }

    method Clear()
      modifies this
      ensures items == map[] && Valid() && Total(items) == 0
    {
      items := map[];
    }
  }
}
