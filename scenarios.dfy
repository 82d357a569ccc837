/**
 * Concrete runs of the cart rules on small catalogs, including the two
 * consequences of the quantity bound subtracting the quantities of other
 * products from this product's own quota.
 */
module Scenarios {
  import opened Catalog
  import opened Usage
  import opened CartRules

  /** A catalog product with the given id and original quota, not yet held. */
  function Fresh(id: int, originalQuota: int): (p: Product)
    ensures p.id == id && p.originalQuota == originalQuota && p.quota == originalQuota
  {
    Product(id, "item", 9.99, "item.png", originalQuota, originalQuota)
  }

  /** Usage of a cart with lines under two distinct keys. */
  lemma OtherUsageOfTwo(cart: Cart, a: int, b: int, id: int)
    requires cart.Keys == {a, b}
    requires a != b
    ensures OtherUsage(cart, id) == Contribution(cart[a], id) + Contribution(cart[b], id)
  {
    OtherUsageRemove(cart, {a, b}, a, id);
    assert {a, b} - {a} == {b};
    OtherUsageRemove(cart, {b}, b, id);
    assert {b} - {b} == {};
  }

  /** Adding a product with original quota 3 to an empty cart gives one line
      of quantity 1 and leaves it a remaining quota of 2. */
  lemma AddToEmptyCart()
    ensures ToggledCart(map[], Fresh(7, 3)) == map[7 := CartLine(Fresh(7, 3), 1)]
    ensures ToggledProducts(map[], [Fresh(7, 3)], Fresh(7, 3)) == [Fresh(7, 3).(quota := 2)]
  {
  }

  /** Removing a line of quantity 4 gives the product its whole original
      quota back. */
  lemma RemoveRestoresQuota()
    ensures var held := Fresh(7, 5).(quota := 1);
      var cart := map[7 := CartLine(Fresh(7, 5), 4)];
      ToggledCart(cart, held) == map[]
      && ToggledProducts(cart, [held], held) == [Fresh(7, 5)]
  {
  }

  /** With only its own line in the cart, a product with original quota 5
      held at 2 may be raised to 5, which exhausts its quota; 6 stays above
      the bound afterwards. */
  lemma RaiseToFullQuota()
    ensures var cart := map[7 := CartLine(Fresh(7, 5), 2)];
      && Allowed(cart, [Fresh(7, 5)], 7) == 5
      && Recalc(SetQuantity(cart, 7, 5), [Fresh(7, 5)])[0].quota == 0
      && Allowed(SetQuantity(cart, 7, 5), [Fresh(7, 5)], 7) == 5
  {
  }

  /** A consistent page where product 1 (original quota 5) holds 1 and
      product 2 holds 3: product 1 still has 4 left, yet the bound for
      editing it is 2, so raising it to 3 is refused. */
  lemma OtherProductsShrinkBound()
    ensures var a := CartLine(Fresh(1, 5), 1);
      var b := CartLine(Fresh(2, 5), 3);
      var cart := map[1 := a, 2 := b];
      var products := [Fresh(1, 5).(quota := 4), Fresh(2, 5).(quota := 2)];
      && Consistent(cart, products)
      && products[0].quota == 4
      && Allowed(cart, products, 1) == 2
  {
    var a := CartLine(Fresh(1, 5), 1);
    var b := CartLine(Fresh(2, 5), 3);
    var cart := map[1 := a, 2 := b];
    var products := [Fresh(1, 5).(quota := 4), Fresh(2, 5).(quota := 2)];
    OtherUsageOfTwo(cart, 1, 2, 1);
    assert Recalc(cart, products) == products;
  }

  /** A consistent page where product 1 (original quota 3) holds 3 and
      product 2 holds 1: re-entering product 1's current quantity is
      refused, since the bound is 2. */
  lemma CurrentQuantityRefused()
    ensures var a := CartLine(Fresh(1, 3), 3);
      var b := CartLine(Fresh(2, 4), 1);
      var cart := map[1 := a, 2 := b];
      var products := [Fresh(1, 3).(quota := 0), Fresh(2, 4).(quota := 3)];
      && Consistent(cart, products)
      && Allowed(cart, products, 1) == 2 < cart[1].quantity
  {
    var a := CartLine(Fresh(1, 3), 3);
    var b := CartLine(Fresh(2, 4), 1);
    var cart := map[1 := a, 2 := b];
    var products := [Fresh(1, 3).(quota := 0), Fresh(2, 4).(quota := 3)];
    OtherUsageOfTwo(cart, 1, 2, 1);
    assert Recalc(cart, products) == products;
  }
}
