/**
 * The catalog page's state and its two cart handlers. The page keeps the
 * catalog and the cart; each handler copies the cart, edits the copy, then
 * replaces both the catalog (reconciled against the new cart) and the cart.
 */
module Page {
  import opened Catalog
  import opened Usage
  import opened CartRules

  class CatalogPage {
    var products: seq<Product>
    var cart: Cart

    /** The page's invariant between user actions. */
    ghost predicate Valid()
      reads this
    {
      Consistent(cart, products)
    }

    /** The page before anything is loaded: no products, an empty cart. */
    constructor ()
      ensures products == [] && cart == map[]
      ensures Valid()
    {
      products := [];
      cart := map[];
    }

    /** Seeds the page once the product list has arrived: every fetched
        product gets an original quota drawn from `draws`, the cart becomes
        the stored one, and the catalog is reconciled against it. */
    method Load(data: seq<Product>, draws: seq<real>, stored: Cart)
      requires |draws| == |data|
      requires forall i | 0 <= i < |draws| :: 0.0 <= draws[i] < 1.0
      modifies this
      ensures cart == stored
      ensures products == Recalc(stored, WithQuotas(data, draws))
      ensures UniqueIds(data) && WellKeyed(stored) && WithinQuota(stored, products) ==> Valid()
    {
      var withQuota := WithQuotas(data, draws);
      cart := stored;
      products := Recalc(stored, withQuota);
      RecalcLastWins(stored, stored, withQuota);
      forall i, j | 0 <= i < j < |products| ensures UniqueIds(data) ==> products[i].id != products[j].id {
        assert products[i].id == data[i].id && products[j].id == data[j].id;
      }
    }

    /** Number of distinct products in the cart, shown on the badge; zero
        exactly when the cart is empty. */
    function CartCount(): (n: nat)
      reads this
      ensures n == 0 <==> cart == map[]
    {
      |cart|
    }

    /** Puts `p` in the cart or takes it out. A held product is removed
        whatever its quantity; an absent one is added with quantity 1 unless
        the quota `p` carries is below 1, in which case nothing changes. */
    method Toggle(p: Product)
      modifies this
      ensures cart == ToggledCart(old(cart), p)
      ensures products == ToggledProducts(old(cart), old(products), p)
      ensures old(Valid()) ==> Valid()
    {
      ghost var wasValid := Valid();
      if wasValid {
        ToggleKeepsConsistent(cart, products, p);
      }
      var updated := cart;
      if p.id in updated {
        updated := updated - {p.id};
      } else {
        if p.quota < 1 {
          return;
        }
        updated := updated[p.id := CartLine(p, 1)];
      }
      products := Recalc(updated, products);
      cart := updated;
    }

    /** Sets the quantity of the line for `id` to `newQty`. Ignored when
        `newQty` is below 1 or there is no such line; refused, reporting the
        bound, when `newQty` exceeds the product's original quota less the
        quantities of all other lines; otherwise only that line's quantity
        changes and the catalog is reconciled. */
    method UpdateQuantity(id: int, newQty: int) returns (outcome: UpdateOutcome)
      requires newQty >= 1 && id in cart ==> FindProduct(products, id).Some?
      modifies this
      ensures newQty < 1 || id !in old(cart) ==>
        outcome == Ignored && cart == old(cart) && products == old(products)
      ensures newQty >= 1 && id in old(cart) && newQty > Allowed(old(cart), old(products), id) ==>
        outcome == Rejected(Allowed(old(cart), old(products), id))
        && cart == old(cart) && products == old(products)
      ensures newQty >= 1 && id in old(cart) && newQty <= Allowed(old(cart), old(products), id) ==>
        outcome == Updated
        && cart == SetQuantity(old(cart), id, newQty)
        && products == Recalc(cart, old(products))
      ensures cart.Keys == old(cart).Keys
      ensures old(Valid()) ==> Valid()
    {
      if newQty < 1 {
        return Ignored;
      }
      if id !in cart {
        return Ignored;
      }
      var product := FindProduct(products, id).value;
      var maxQty := product.originalQuota;
      var otherUsage := SumOtherQuantities(cart, id);
      var allowed := maxQty - otherUsage;
      if newQty > allowed {
        return Rejected(allowed);
      }
      ghost var wasValid := Valid();
      if wasValid {
        UpdateKeepsConsistent(cart, products, id, newQty);
      }
      var updated := cart[id := cart[id].(quantity := newQty)];
      products := Recalc(updated, products);
      cart := updated;
      return Updated;
    }
  }
}
