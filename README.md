# Cart and quota reconciliation of the catalog page

A model, in Dafny, of the cart logic of the catalog page in
`app/challenge1/page.js`. Every product of the catalog carries an original
quota, drawn once when the catalog is loaded, and a remaining quota that is
always its original quota less the quantity the cart holds of it. The cart
maps a product id to one line: a snapshot of the product plus a quantity.
Two handlers change the cart:

- **toggle** takes a held product out of the cart, whatever its quantity, or
  adds an absent one with quantity 1 when the quota it carries is at least 1;
- **update quantity** sets the quantity of an existing line, ignoring values
  below 1 and refusing values above a bound.

After every change the catalog is reconciled against the new cart.

The bound that update quantity checks is the product's original quota less
the quantities of **all other products' lines**. The model keeps that
arithmetic exactly as the page computes it. The lemmas in `scenarios.dfy`
show two consequences on consistent pages:

- an edit is refused although the product's own remaining quota allows it;
- re-entering a line's current quantity can be refused.

The project is organised as follows:

- `catalog.dfy` (module `Catalog`): products, cart lines, the reconciler
  `Recalc`, the lookup `FindProduct`, the quota draw.
- `usage.dfy` (module `Usage`): the sum of the other lines' quantities. It
  holds a specification function and the loop `SumOtherQuantities` that
  computes the sum.
- `cart_rules.dfy` (module `CartRules`): the page invariant `Consistent`, the
  effect of a toggle and of a quantity edit as values, and the lemmas that
  both keep the invariant.
- `page.dfy` (module `Page`): the class `CatalogPage` holding `products` and
  `cart`, with the handlers as methods that update those fields.
- `scenarios.dfy` (module `Scenarios`): concrete runs.

## Model

| member | source | states |
|---|---|---|
| `Catalog.Recalc` | app/challenge1/page.js:12-21 | One output per input product, in order; each output's quota is its original quota less the quantity its id holds in the cart (0 without a line); every other field is unchanged |
| `Catalog.RecalcForgetsQuota` | app/challenge1/page.js:16-19 | Reconciling ignores the quotas the input products carried: inputs that differ only in `quota` reconcile to the same catalog |
| `Catalog.RecalcLastWins` | app/challenge1/page.js:12-21 | Reconciling against one cart and then another equals reconciling against the second alone, so reconciling is idempotent |
| `Catalog.FindProduct` | app/challenge1/page.js:85 | Returns None exactly when no product has the id; otherwise returns a product with that id such that no earlier product has it |
| `Catalog.FindProductUnique` | app/challenge1/page.js:85-86 | When ids are unique, the lookup of a product's id returns that very product |
| `Catalog.DrawQuota` | app/challenge1/page.js:32 | `floor(u * 5) + 1` lies in 1..5 for every `u` in [0, 1) |
| `Catalog.WithQuotas` | app/challenge1/page.js:31-34 | Same length as the fetched list; each product gets its drawn original quota (in 1..5) with its remaining quota equal to it, and keeps its other fields |
| `Catalog.EmptyCartKeepsDrawnQuotas` | app/challenge1/page.js:31-38 | Reconciling freshly drawn products against an empty cart changes nothing |
| `Usage.OtherUsageRemove` | app/challenge1/page.js:89-91 | The sum of other lines' quantities can take out any line first, so the order of the fold does not matter |
| `Usage.OtherUsageZeroIff` | app/challenge1/page.js:89-93 | With positive quantities the other usage is at least 0, and it is 0 exactly when every line belongs to the edited product |
| `Usage.OtherUsageAgree` | app/challenge1/page.js:89-91 | Two carts whose lines contribute alike give the same other usage |
| `Usage.SumOtherQuantities` | app/challenge1/page.js:89-91 | The loop over the cart's lines returns exactly the other usage: the summed quantities of the lines whose product id differs from the edited one |
| `CartRules.QuotaInRange` | app/challenge1/page.js:12-20 | For a reconciled catalog and a well-formed cart, holding no more than the original quota is equivalent to every remaining quota lying in 0..originalQuota |
| `CartRules.ToggledCart` | app/challenge1/page.js:59-68 | A held product's line is removed whatever its quantity; an absent product whose quota is below 1 leaves the cart as it was; otherwise exactly one line of quantity 1 is added; no other line changes |
| `CartRules.ToggleCount` | app/challenge1/page.js:61-67 | The number of distinct products in the cart drops by one on a removal, rises by one on an add, and stays the same on a refused add |
| `CartRules.ToggleKeepsConsistent` | app/challenge1/page.js:59-74 | Toggling keeps the page consistent: lines keyed by their own id with positive quantities, unique ids, quotas within 0..originalQuota, and a reconciled catalog |
| `CartRules.ToggleTwiceRestores` | app/challenge1/page.js:61-72 | Toggling a product that is not in the cart twice gives back the original cart and the original catalog |
| `CartRules.ToggleTwiceResetsHeld` | app/challenge1/page.js:63-67 | Removing a held product and adding it back leaves a fresh line of quantity 1, whatever it held before |
| `CartRules.SetQuantity` | app/challenge1/page.js:100 | The same lines as before; the edited line keeps its product snapshot and takes the new quantity; every other line is unchanged |
| `CartRules.AllowedAtMostOriginal` | app/challenge1/page.js:85-93 | In a well-formed cart the bound never exceeds the product's original quota, and equals it exactly when the cart holds no other product |
| `CartRules.AllowedIgnoresOwnLine` | app/challenge1/page.js:89-100 | The bound for a line does not depend on that line's own quantity, and repeating an accepted edit changes nothing |
| `CartRules.UpdateKeepsConsistent` | app/challenge1/page.js:93-103 | An accepted edit creates or deletes no line and keeps the page consistent, including `0 <= quota <= originalQuota` for the edited product |
| `Page.CatalogPage.constructor` | app/challenge1/page.js:7-8 | The page starts with no products and an empty cart, which is consistent |
| `Page.CatalogPage.Load` | app/challenge1/page.js:31-39 | The cart becomes the stored one and the catalog is the drawn products reconciled against it; the page is consistent when ids are unique and the stored cart is well formed and within quota |
| `Page.CatalogPage.CartCount` | app/challenge1/page.js:113-115 | The badge count is zero exactly when the cart is empty |
| `Page.CatalogPage.Toggle` | app/challenge1/page.js:59-74 | The new cart is `ToggledCart` of the old one; the catalog is reconciled against it, except on a refused add, which leaves it alone; a consistent page stays consistent |
| `Page.CatalogPage.UpdateQuantity` | app/challenge1/page.js:77-105 | Ignored with no change when `newQty < 1` or the line is absent; refused with no change, reporting the bound, when `newQty` exceeds it; otherwise only that line's quantity becomes `newQty` and the catalog is reconciled; lines are never created or deleted; a consistent page stays consistent |
| `Scenarios.AddToEmptyCart` | app/challenge1/page.js:65-71 | A product with original quota 3 added to an empty cart gets one line of quantity 1 and a remaining quota of 2 |
| `Scenarios.RemoveRestoresQuota` | app/challenge1/page.js:63-71 | Removing a line of quantity 4 empties the cart and gives the product its whole original quota back |
| `Scenarios.RaiseToFullQuota` | app/challenge1/page.js:85-103 | Alone in the cart, a product with original quota 5 held at 2 has bound 5; raising it to 5 exhausts its quota, and the bound stays 5, so 6 is refused |
| `Scenarios.OtherProductsShrinkBound` | app/challenge1/page.js:89-97 | On a consistent page where the product holds 1 of 5 and another product holds 3, the bound is 2 although 4 remain, so raising the product to 3 is refused |
| `Scenarios.CurrentQuantityRefused` | app/challenge1/page.js:89-97 | On a consistent page where the product holds 3 of 3 and another product holds 1, the bound is 2, below the line's current quantity |

## Left out

- Fetching the product list and its failure path (lines 24-46) is network I/O. The fetched products are a parameter of `Load`, and a failed fetch is simply no call to `Load`.
- `Math.random()` (line 32) is a parameter of `Load`: one real in [0, 1) per product. Floating-point arithmetic is modelled as exact real arithmetic in `DrawQuota`.
- Loading and saving the cart in browser storage, with JSON encoding (lines 36, 49-51), is left out. The stored cart is a parameter of `Load`. Effect scheduling is not modelled either. Under that scheduling, the save effect runs on mount with the empty cart before the asynchronous load reads storage.
- React state, effect scheduling and the updater functions passed to `setCart` are not modelled. Each handler is one atomic step over the page's fields. Each handler reads the catalog it was created with, and the model ignores that.
- The `alert` on a refused edit (line 96) is the `Rejected(allowed)` outcome.
- `parseInt` of the input text (line 161) is left out. Quantities are integers. A NaN quantity would pass both guards and be written into the cart; this is not modelled.
- `UpdateQuantity` requires that some catalog product has the id whenever the source reaches the lookup (a quantity of at least 1 and a present line). The source would crash at lines 85-86 otherwise.
- The edited line object at line 100 is shared with the previous cart, so the old cart is mutated too. The model treats carts as values and does not capture this aliasing.
- Object keys in the page are strings and line ids are numbers. The model uses integer ids for both. The test at line 63 is a truthiness test on the line object, which is always true for a present line; the model uses key membership.
- The sidebar passes a cart line to toggle (line 168). The model passes the line's product snapshot. Only the id is read when the product is held.
- Rendering, styling, and the sidebar open/close toggle (lines 54-56, 107-186) are left out.
