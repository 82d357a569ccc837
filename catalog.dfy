/**
 * The catalog side of the cart page: products with their drawn quota and
 * the quota still available, cart lines, and the reconciler that derives
 * every product's remaining quota from the cart.
 */
module Catalog {

  datatype Option<T> = None | Some(value: T)

  /** A product as the catalog holds it. `title`, `price` and `image` are
      display attributes the quota logic never looks at; `originalQuota` is
      drawn once when the catalog is loaded, `quota` is what is still
      available. */
  datatype Product = Product(
    id: int,
    title: string,
    price: real,
    image: string,
    originalQuota: int,
    quota: int)

  /** A cart line: a snapshot of the product taken when it was added to the
      cart, and the quantity held. */
  datatype CartLine = CartLine(item: Product, quantity: int)

  /** The cart maps a product id to at most one line. */
  type Cart = map<int, CartLine>

  /** Quantity of product `id` held in the cart; 0 when it has no line. */
  function Held(cart: Cart, id: int): int
  {
    if id in cart then cart[id].quantity else 0
  }

  /** The reconciler's step for one product: a fresh product whose quota is
      its original quota less what the cart holds of it. */
  function Reconcile(cart: Cart, p: Product): Product
  {
    p.(quota := p.originalQuota - Held(cart, p.id))
  }

  /** Recomputes the remaining quota of every product from the cart: one
      output per input, in the same order, only `quota` differing. */
  function Recalc(cart: Cart, products: seq<Product>): (r: seq<Product>)
    ensures |r| == |products|
    ensures forall i | 0 <= i < |products| ::
      && r[i].quota == products[i].originalQuota - Held(cart, products[i].id)
      && r[i] == products[i].(quota := r[i].quota)
  {
    if products == [] then []
    else [Reconcile(cart, products[0])] + Recalc(cart, products[1..])
  }

  /** The result of reconciling depends on the products only through their
      fixed attributes: the quotas they carried before are forgotten. */
  lemma RecalcForgetsQuota(cart: Cart, products: seq<Product>, stale: seq<Product>)
    requires |stale| == |products|
    requires forall i | 0 <= i < |products| :: stale[i] == products[i].(quota := stale[i].quota)
    ensures Recalc(cart, stale) == Recalc(cart, products)
  {
  }

  /** Reconciling against one cart and then another is the same as
      reconciling against the second alone; in particular reconciling is
      idempotent. */
  lemma RecalcLastWins(first: Cart, second: Cart, products: seq<Product>)
    ensures Recalc(second, Recalc(first, products)) == Recalc(second, products)
  {
  }

  /** Ids are unique across the catalog, as the product source delivers them. */
  ghost predicate UniqueIds(products: seq<Product>)
  {
    forall i, j | 0 <= i < j < |products| :: products[i].id != products[j].id
  }

  /** The first product with the given id, or None when there is none. */
  function FindProduct(products: seq<Product>, id: int): (r: Option<Product>)
    ensures r.None? <==> forall i | 0 <= i < |products| :: products[i].id != id
    ensures r.Some? ==> exists i | 0 <= i < |products| ::
      && products[i] == r.value
      && r.value.id == id
      && forall j | 0 <= j < i :: products[j].id != id
  {
    if products == [] then None
    else if products[0].id == id then Some(products[0])
    else
      var r := FindProduct(products[1..], id);
      assert r.Some? ==> exists i | 0 <= i < |products| ::
        && products[i] == r.value
        && r.value.id == id
        && forall j | 0 <= j < i :: products[j].id != id
      by {
        if r.Some? {
          var k :| 0 <= k < |products[1..]| && products[1..][k] == r.value && r.value.id == id
            && forall j | 0 <= j < k :: products[1..][j].id != id;
          assert products[k + 1] == r.value;
          forall j | 0 <= j < k + 1 ensures products[j].id != id {
            if j > 0 { assert products[j] == products[1..][j - 1]; }
          }
        }
      }
      r
  }

  /** With unique ids the lookup finds exactly the product at hand. */
  lemma FindProductUnique(products: seq<Product>, i: int)
    requires UniqueIds(products)
    requires 0 <= i < |products|
    ensures FindProduct(products, products[i].id) == Some(products[i])
  {
  }

  /** How many distinct quota values a draw can produce. */
  const QuotaChoices := 5

  /** One quota draw: `floor(u * 5) + 1` for a uniform `u` in [0, 1). */
  function DrawQuota(u: real): (q: int)
    requires 0.0 <= u < 1.0
    ensures 1 <= q <= QuotaChoices
  {
    (u * QuotaChoices as real).Floor + 1
  }

  /** The fetched products, each given a drawn original quota, with its
      remaining quota starting equal to it. */
  function WithQuotas(data: seq<Product>, draws: seq<real>): (r: seq<Product>)
    requires |draws| == |data|
    requires forall i | 0 <= i < |draws| :: 0.0 <= draws[i] < 1.0
    ensures |r| == |data|
    ensures forall i | 0 <= i < |data| ::
      && r[i].originalQuota == DrawQuota(draws[i])
      && 1 <= r[i].originalQuota <= QuotaChoices
      && r[i].quota == r[i].originalQuota
      && r[i] == data[i].(originalQuota := r[i].originalQuota, quota := r[i].quota)
  {
    if data == [] then []
    else
      var q := DrawQuota(draws[0]);
      [data[0].(originalQuota := q, quota := q)] + WithQuotas(data[1..], draws[1..])
  }

  /** Against an empty cart the reconciler leaves freshly drawn products as
      they are. */
  lemma EmptyCartKeepsDrawnQuotas(data: seq<Product>, draws: seq<real>)
    requires |draws| == |data|
    requires forall i | 0 <= i < |draws| :: 0.0 <= draws[i] < 1.0
    ensures Recalc(map[], WithQuotas(data, draws)) == WithQuotas(data, draws)
  {
  }
}
