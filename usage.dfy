/**
 * The quantity the cart holds of every product other than a given one: the
 * `otherUsage` that the quantity update subtracts from the product's
 * original quota. Lines are compared by the id of their product snapshot,
 * not by their key in the cart.
 */
module Usage {
  import opened Catalog

  /** What one line adds to the usage seen from product `id`. */
  function Contribution(line: CartLine, id: int): int
  {
    if line.item.id != id then line.quantity else 0
  }

  /** A non-empty set of keys has a key to pick. */
  lemma NonEmptyHasKey(keys: set<int>)
    requires keys != {}
    ensures exists k :: k in keys
  {
    if forall k :: k !in keys {
      assert false;
    }
  }

  /** Sum of the quantities of the lines under `keys` whose product is not `id`.
      The order of summation is left open, as it does not matter. */
  ghost function OtherUsageOver(cart: Cart, keys: set<int>, id: int): int
    requires keys <= cart.Keys
    decreases keys
  {
    if keys == {} then 0
    else
      NonEmptyHasKey(keys);
      var k :| k in keys;
      Contribution(cart[k], id) + OtherUsageOver(cart, keys - {k}, id)
  }

  /** Sum of the quantities of every cart line whose product is not `id`. */
  ghost function OtherUsage(cart: Cart, id: int): int
  {
    OtherUsageOver(cart, cart.Keys, id)
  }

  /** Any line can be taken out of the sum first. */
  lemma {:induction false} OtherUsageRemove(cart: Cart, keys: set<int>, k: int, id: int)
    requires keys <= cart.Keys
    requires k in keys
    ensures OtherUsageOver(cart, keys, id) == Contribution(cart[k], id) + OtherUsageOver(cart, keys - {k}, id)
    decreases keys
  {
    var j :| j in keys && OtherUsageOver(cart, keys, id) == Contribution(cart[j], id) + OtherUsageOver(cart, keys - {j}, id);
    if j != k {
      OtherUsageRemove(cart, keys - {j}, k, id);
      OtherUsageRemove(cart, keys - {k}, j, id);
      assert keys - {j} - {k} == keys - {k} - {j};
    }
  }

  /** With positive quantities the usage is never negative, and it is zero
      exactly when every line under `keys` belongs to product `id`. */
  lemma {:induction false} OtherUsageZeroIff(cart: Cart, keys: set<int>, id: int)
    requires keys <= cart.Keys
    requires forall k | k in keys :: cart[k].quantity >= 1
    ensures OtherUsageOver(cart, keys, id) >= 0
    ensures OtherUsageOver(cart, keys, id) == 0 <==> forall k | k in keys :: cart[k].item.id == id
    decreases keys
  {
    if keys != {} {
      NonEmptyHasKey(keys);
      var k :| k in keys;
      OtherUsageRemove(cart, keys, k, id);
      OtherUsageZeroIff(cart, keys - {k}, id);
    }
  }

  /** Two carts whose lines contribute alike under `keys` have the same usage. */
  lemma {:induction false} OtherUsageAgree(a: Cart, b: Cart, keys: set<int>, id: int)
    requires keys <= a.Keys && keys <= b.Keys
    requires forall k | k in keys :: Contribution(a[k], id) == Contribution(b[k], id)
    ensures OtherUsageOver(a, keys, id) == OtherUsageOver(b, keys, id)
    decreases keys
  {
    if keys != {} {
      NonEmptyHasKey(keys);
      var k :| k in keys;
      OtherUsageRemove(a, keys, k, id);
      OtherUsageRemove(b, keys, k, id);
      OtherUsageAgree(a, b, keys - {k}, id);
    }
  }

  /** The fold over the cart's lines: visits each line once, adding the
      quantity of those whose product is not `id`. */
  method SumOtherQuantities(cart: Cart, id: int) returns (sum: int)
    ensures sum == OtherUsage(cart, id)
  {
    sum := 0;
    var rest := cart.Keys;
    while rest != {}
      invariant rest <= cart.Keys
      invariant sum + OtherUsageOver(cart, rest, id) == OtherUsage(cart, id)
      decreases rest
    {
      NonEmptyHasKey(rest);
      var k :| k in rest;
      OtherUsageRemove(cart, rest, k, id);
      if cart[k].item.id != id {
        sum := sum + cart[k].quantity;
      }
      rest := rest - {k};
    }
  }
}
