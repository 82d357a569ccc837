/**
 * The rules the cart page applies to its cart: the consistency it keeps
 * between cart and catalog, the effect of toggling a product in or out of
 * the cart, and the bound a quantity edit is checked against.
 */
module CartRules {
  import opened Catalog
  import opened Usage

  /** What a quantity edit did: nothing (bad quantity or no such line),
      refused with the largest quantity it would have accepted, or applied. */
  datatype UpdateOutcome = Ignored | Rejected(allowed: int) | Updated

  /** Every line sits under its own product's id and holds at least one unit. */
  ghost predicate WellKeyed(cart: Cart)
  {
    forall k | k in cart :: cart[k].item.id == k && cart[k].quantity >= 1
  }

  /** Every product was drawn a positive original quota. */
  ghost predicate QuotasDrawn(products: seq<Product>)
  {
    forall i | 0 <= i < |products| :: 1 <= products[i].originalQuota
  }

  /** The cart never holds more of a product than its original quota. */
  ghost predicate WithinQuota(cart: Cart, products: seq<Product>)
  {
    forall i | 0 <= i < |products| :: Held(cart, products[i].id) <= products[i].originalQuota
  }

  /** The state the page keeps between user actions: a well-formed cart,
      within quota, and a catalog whose remaining quotas are the reconciled
      ones. */
  ghost predicate Consistent(cart: Cart, products: seq<Product>)
  {
    && WellKeyed(cart)
    && UniqueIds(products)
    && QuotasDrawn(products)
    && WithinQuota(cart, products)
    && products == Recalc(cart, products)
  }

  /** For a reconciled catalog and a well-formed cart, staying within quota
      is the same as every remaining quota lying between 0 and the original
      quota. */
  lemma QuotaInRange(cart: Cart, products: seq<Product>)
    requires WellKeyed(cart)
    requires products == Recalc(cart, products)
    ensures WithinQuota(cart, products) <==>
      forall i | 0 <= i < |products| :: 0 <= products[i].quota <= products[i].originalQuota
  {
  }

  /** The cart after toggling `p`: its line removed when present, whatever
      the quantity; otherwise a line of quantity 1 added, but only when the
      quota `p` carries is at least 1. No other line changes. */
  function ToggledCart(cart: Cart, p: Product): (r: Cart)
    ensures p.id in cart ==> r.Keys == cart.Keys - {p.id}
    ensures p.id !in cart && p.quota < 1 ==> r == cart
    ensures p.id !in cart && 1 <= p.quota ==> r.Keys == cart.Keys + {p.id} && r[p.id] == CartLine(p, 1)
    ensures forall k | k in r && k != p.id :: k in cart && r[k] == cart[k]
  {
    if p.id in cart then cart - {p.id}
    else if p.quota < 1 then cart
    else cart[p.id := CartLine(p, 1)]
  }

  /** The catalog after toggling `p`: reconciled against the new cart,
      except on the refused add, which leaves the catalog alone. */
  function ToggledProducts(cart: Cart, products: seq<Product>, p: Product): seq<Product>
  {
    if p.id !in cart && p.quota < 1 then products
    else Recalc(ToggledCart(cart, p), products)
  }

  /** The number of distinct products in the cart (the badge) goes down by
      one on a removal, up by one on an add, and stays on a refused add. */
  lemma ToggleCount(cart: Cart, p: Product)
    ensures |ToggledCart(cart, p)| ==
      if p.id in cart then |cart| - 1
      else if p.quota < 1 then |cart|
      else |cart| + 1
  {
  }

  /** Toggling keeps the page consistent. */
  lemma ToggleKeepsConsistent(cart: Cart, products: seq<Product>, p: Product)
    requires Consistent(cart, products)
    ensures Consistent(ToggledCart(cart, p), ToggledProducts(cart, products, p))
  {
    var c := ToggledCart(cart, p);
    if !(p.id !in cart && p.quota < 1) {
      RecalcLastWins(cart, c, products);
      var r := Recalc(c, products);
      assert r == Recalc(c, r);
      forall i | 0 <= i < |r| ensures Held(c, r[i].id) <= r[i].originalQuota {
        assert r[i].id == products[i].id && r[i].originalQuota == products[i].originalQuota;
        if products[i].id != p.id {
          assert Held(c, products[i].id) == Held(cart, products[i].id);
        }
      }
      forall i, j | 0 <= i < j < |r| ensures r[i].id != r[j].id {
        assert r[i].id == products[i].id && r[j].id == products[j].id;
      }
    }
  }

  /** Toggling a product that is not in the cart twice gives back the cart
      and the catalog as they were. */
  lemma ToggleTwiceRestores(cart: Cart, products: seq<Product>, p: Product)
    requires Consistent(cart, products)
    requires p.id !in cart
    ensures ToggledCart(ToggledCart(cart, p), p) == cart
    ensures ToggledProducts(ToggledCart(cart, p), ToggledProducts(cart, products, p), p) == products
  {
  }

  /** Removing a held product and adding it back leaves a fresh line of
      quantity 1, whatever quantity it held before. */
  lemma ToggleTwiceResetsHeld(cart: Cart, p: Product)
    requires p.id in cart
    requires 1 <= p.quota
    ensures ToggledCart(ToggledCart(cart, p), p) == cart[p.id := CartLine(p, 1)]
  {
  }

  /** The cart with the quantity of the existing line `id` set to `q`: the
      same lines, only that one's quantity changed. */
  function SetQuantity(cart: Cart, id: int, q: int): (r: Cart)
    requires id in cart
    ensures r.Keys == cart.Keys
    ensures r[id].quantity == q && r[id].item == cart[id].item
    ensures forall k | k in cart && k != id :: r[k] == cart[k]
  {
    cart[id := cart[id].(quantity := q)]
  }

  /** The largest quantity a quantity edit of `id` accepts: the original
      quota of the first catalog product with that id, less the quantities
      of all the cart lines of other products. */
  ghost function Allowed(cart: Cart, products: seq<Product>, id: int): int
    requires FindProduct(products, id).Some?
  {
    FindProduct(products, id).value.originalQuota - OtherUsage(cart, id)
  }

  /** In a consistent page the bound never exceeds the product's original
      quota, and reaches it exactly when the cart holds no other product. */
  lemma AllowedAtMostOriginal(cart: Cart, products: seq<Product>, i: int)
    requires WellKeyed(cart)
    requires UniqueIds(products)
    requires 0 <= i < |products|
    ensures FindProduct(products, products[i].id).Some?
    ensures Allowed(cart, products, products[i].id) <= products[i].originalQuota
    ensures Allowed(cart, products, products[i].id) == products[i].originalQuota <==>
      cart.Keys <= {products[i].id}
  {
    var id := products[i].id;
    FindProductUnique(products, i);
    OtherUsageZeroIff(cart, cart.Keys, id);
    if forall k | k in cart :: cart[k].item.id == id {
      forall k | k in cart ensures k in {id} {
        assert cart[k].item.id == k;
      }
    }
  }

  /** The bound a line is checked against does not depend on that line's
      own quantity, so an accepted edit is accepted again when repeated and
      then changes nothing. */
  lemma AllowedIgnoresOwnLine(cart: Cart, products: seq<Product>, id: int, q: int)
    requires WellKeyed(cart)
    requires id in cart
    requires FindProduct(products, id).Some?
    ensures Allowed(SetQuantity(cart, id, q), products, id) == Allowed(cart, products, id)
    ensures SetQuantity(SetQuantity(cart, id, q), id, q) == SetQuantity(cart, id, q)
  {
    var c := SetQuantity(cart, id, q);
    forall k | k in cart.Keys ensures Contribution(c[k], id) == Contribution(cart[k], id) {
      if k == id {
        assert cart[k].item.id == id;
      }
    }
    OtherUsageAgree(c, cart, cart.Keys, id);
  }

  /** An accepted quantity edit keeps the page consistent: it never creates
      or deletes a line, and the edited product stays within its quota. */
  lemma UpdateKeepsConsistent(cart: Cart, products: seq<Product>, id: int, q: int)
    requires Consistent(cart, products)
    requires id in cart
    requires FindProduct(products, id).Some?
    requires 1 <= q <= Allowed(cart, products, id)
    ensures SetQuantity(cart, id, q).Keys == cart.Keys
    ensures Consistent(SetQuantity(cart, id, q), Recalc(SetQuantity(cart, id, q), products))
  {
    var c := SetQuantity(cart, id, q);
    RecalcLastWins(cart, c, products);
    var r := Recalc(c, products);
    assert r == Recalc(c, r);
    forall i | 0 <= i < |r| ensures Held(c, r[i].id) <= r[i].originalQuota {
      assert r[i].id == products[i].id && r[i].originalQuota == products[i].originalQuota;
      if products[i].id == id {
        AllowedAtMostOriginal(cart, products, i);
      } else {
        assert Held(c, products[i].id) == Held(cart, products[i].id);
      }
    }
    forall i, j | 0 <= i < j < |r| ensures r[i].id != r[j].id {
      assert r[i].id == products[i].id && r[j].id == products[j].id;
    }
  }
}
