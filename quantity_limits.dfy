/**
 * The quantity rules the cart and reorder stores share: `Math.min` against
 * an optional stock (absent means `Infinity`), and the `[1, stock]` clamp.
 */
module QuantityLimits {
  import opened Wrappers

  /** `Math.min(stock ?? Infinity, q)`. */
  function AtMostStock(q: int, stock: Option<int>): (r: int)
    ensures r <= q
    ensures stock.Some? ==> r <= stock.value && (r == q || r == stock.value)
    ensures stock.None? ==> r == q
  {
    if stock.Some? && stock.value < q then stock.value else q
  }

  /** `Math.max(1, Math.min(q, stock ?? Infinity))`. */
  function Clamp(q: int, stock: Option<int>): (r: int)
    ensures r >= 1
    ensures stock.Some? && stock.value >= 1 ==> r <= stock.value
    ensures 1 <= q && (stock.None? || q <= stock.value) ==> r == q
  {
    var m := AtMostStock(q, stock);
    if m < 1 then 1 else m
  }

  /** Clamping twice is clamping once, and a stock below 1 still leaves 1. */
  lemma ClampIdempotent(q: int, stock: Option<int>)
    ensures Clamp(Clamp(q, stock), stock) == Clamp(q, stock)
    ensures stock.Some? && stock.value < 1 ==> Clamp(q, stock) == 1
  {
  }

  /** Adding an item already held: one more, capped by the stock; a stock of 0 leaves 0. */
  function Bump(q: int, stock: Option<int>): (r: int)
    ensures r <= q + 1
    ensures stock.None? ==> r == q + 1
    ensures stock.Some? ==> r == (if q + 1 <= stock.value then q + 1 else stock.value)
  {
    AtMostStock(q + 1, stock)
  }
}
