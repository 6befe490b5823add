// Rounding and the few facts about products the page arithmetic needs.
module Arith {
  /** `Math.ceil(x)`. */
  function Ceil(x: real): int {
    if x == x.Floor as real then x.Floor else x.Floor + 1
  }

  /** The ceiling is the least integer at or above `x`. */
  lemma CeilBounds(x: real)
    ensures Ceil(x) as real >= x > Ceil(x) as real - 1.0
    ensures x >= 0.0 ==> Ceil(x) >= 0
  {
  }

  lemma CastMul(a: int, b: int)
    ensures (a * b) as real == a as real * b as real
  {
  }

  lemma MulLeInt(a: int, b: int, c: nat)
    requires a <= b
    ensures a * c <= b * c
  {
  }

  /** A number at or above `t / l` takes `l` times itself to reach `t`. */
  lemma AboveQuotient(t: real, l: real, p: real)
    requires l > 0.0 && p >= t / l
    ensures p * l >= t
  {
    assert (t / l) * l == t;
  }

  /** A number below `t / l` stays below `t` when taken `l` times. */
  lemma BelowQuotient(t: real, l: real, q: real)
    requires l > 0.0 && q < t / l
    ensures q * l < t
  {
    assert (t / l) * l == t;
  }

  /** `Math.ceil(total / limit)` is the least number of pages of `limit` items that holds
      `total` items. */
  lemma CeilPages(total: nat, limit: nat)
    requires limit > 0
    ensures var pages := Ceil(total as real / limit as real);
      pages >= 0 && (pages - 1) * limit < total <= pages * limit
  {
    var t, l := total as real, limit as real;
    var pages := Ceil(t / l);
    CeilBounds(t / l);
    AboveQuotient(t, l, pages as real);
    BelowQuotient(t, l, (pages - 1) as real);
    CastMul(pages, limit);
    CastMul(pages - 1, limit);
  }

  /** Of `pages` pages of `limit` items holding `total` items, page `page` (from 1) starts
      inside the items exactly when it is one of those pages. */
  lemma PageStart(total: nat, page: nat, limit: nat)
    requires page >= 1 && limit > 0
    ensures (page - 1) * limit < total <==> page <= Ceil(total as real / limit as real)
  {
    var pages := Ceil(total as real / limit as real);
    CeilPages(total, limit);
    if page <= pages {
      MulLeInt(page - 1, pages - 1, limit);
    } else {
      MulLeInt(pages, page - 1, limit);
    }
  }
}
