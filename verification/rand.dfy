/** The random helpers of the poster engine (script.js:25-32) as functions of an
    explicit roll. `rnd()` divides a random 32-bit word by 2^32 - 1, so a roll lies in the
    CLOSED interval [0, 1]; the engine itself is modelled on draws from [0, 1). */
module Rand {
  import opened Wrappers
  import opened JsNumbers

  /** The largest 32-bit word, which `rnd()` divides by. */
  const WordMax: nat := 4294967295

  /** What `rnd()` can return. */
  type Roll = r: real | 0.0 <= r <= 1.0

  /** A roll strictly below 1, which every bound below needs. */
  type Draw = r: real | 0.0 <= r < 1.0

  /** The entropy source: the n-th call of `rnd()` returns `src(n)`. */
  type Entropy = nat -> Draw

  /** `rnd()` for the random word `word`. */
  function RollOf(word: nat): (r: Roll)
    requires word <= WordMax
    ensures r == 1.0 <==> word == WordMax
    ensures word < WordMax ==> r < 1.0
  {
    word as real / WordMax as real
  }

  /** `v` was drawn from the half-open range between `a` and `b` (ends swapped when `a > b`). */
  predicate Within(v: real, a: real, b: real) {
    if a < b then a <= v < b
    else if a == b then v == a
    else b < v <= a
  }

  /** `Math.floor(r * n)`, the slot a roll falls into among `n` equal slots. */
  function Slot(n: nat, r: Roll): (k: int)
    ensures k as real <= r * n as real < k as real + 1.0
    ensures k >= 0
    ensures r < 1.0 && n > 0 ==> k < n
    ensures r == 1.0 ==> k == n
  {
    ScaledRoll(n, r);
    (r * n as real).Floor
  }

  /** A roll scaled by n lies in [0, n], strictly below n when the roll is below 1. */
  lemma ScaledRoll(n: nat, r: Roll)
    ensures 0.0 <= r * n as real <= n as real
    ensures r < 1.0 && n > 0 ==> r * n as real < n as real
  {
    if n > 0 {
      ScaleOrder(0.0, r, n as real);
      ScaleOrder(r, 1.0, n as real);
    }
  }

  /** `rndInt(a, b)`: a uniform integer in [a, b] -- or b + 1 when the roll is exactly 1. */
  function RndInt(a: int, b: int, r: Roll): (n: int)
    ensures a <= b && r < 1.0 ==> a <= n <= b
    ensures a <= b && r == 1.0 ==> n == b + 1
  {
    (r * (b - a + 1) as real).Floor + a
  }

  /** `rndRange(a, b)`: a uniform real in [a, b); the roll 1 reaches b itself. */
  function RndRange(a: real, b: real, r: Roll): (v: real)
    ensures r < 1.0 ==> Within(v, a, b)
    ensures r == 1.0 ==> v == b
    ensures r == 0.0 ==> v == a
  {
    assert r < 1.0 ==> Within(r * (b - a) + a, a, b) by {
      if r < 1.0 { RangeBounds(a, b, r); }
    }
    r * (b - a) + a
  }

  /** A draw below 1 lands `r * (b - a) + a` in the half-open range between a and b. */
  lemma RangeBounds(a: real, b: real, r: real)
    requires 0.0 <= r < 1.0
    ensures Within(r * (b - a) + a, a, b)
  {
    if a < b {
      BelowUpper(a, b, r);
      if r > 0.0 { PositiveProduct(r, b - a); }
    } else if a > b {
      AboveLower(a, b, r);
      if r > 0.0 {
        PositiveProduct(r, a - b);
        assert r * (a - b) == -(r * (b - a));
      }
    }
  }

  lemma BelowUpper(a: real, b: real, r: real)
    requires 0.0 <= r < 1.0 && a < b
    ensures r * (b - a) + a < b
  {
    var d := b - a;
    var m := r * d;
    PositiveProduct(1.0 - r, d);
    assert (1.0 - r) * d == d - m;
    assert m < d;
  }

  lemma AboveLower(a: real, b: real, r: real)
    requires 0.0 <= r < 1.0 && a > b
    ensures b < r * (b - a) + a
  {
    BelowUpper(b, a, r);
    assert r * (b - a) == -(r * (a - b));
  }

  /** `pick(arr)`: the element in the roll's slot; `undefined` (None) for an empty array
      or a roll of exactly 1. */
  function Pick<T>(xs: seq<T>, r: Roll): (o: Option<T>)
    ensures o.Some? <==> |xs| > 0 && r < 1.0
    ensures o.Some? ==> o.value in xs
  {
    var k := Slot(|xs|, r);
    if k < |xs| then Some(xs[k]) else None
  }

  /** `pick` on a non-empty array with a draw below 1, which always yields an element. */
  function Choose<T>(xs: seq<T>, d: Draw): (x: T)
    requires |xs| > 0
    ensures x in xs
    ensures Pick(xs, d) == Some(x)
  {
    Pick(xs, d).value
  }

  /** Every integer of [a, b] is produced by some draw. */
  lemma RndIntCovers(a: int, b: int, k: int)
    requires a <= k <= b
    ensures exists d: Draw :: RndInt(a, b, d) == k
  {
    var n := (b - a + 1) as real;
    var d: real := (k - a) as real / n;
    assert d * n == (k - a) as real;
    assert 0.0 <= d < 1.0;
    assert RndInt(a, b, d) == k;
  }

  /** Every element of a non-empty array is picked by some draw. */
  lemma PickCovers<T>(xs: seq<T>, k: nat)
    requires k < |xs|
    ensures exists d: Draw :: Pick(xs, d) == Some(xs[k])
  {
    var n := |xs| as real;
    var d: real := k as real / n;
    assert d * n == k as real;
    assert 0.0 <= d < 1.0;
    assert Slot(|xs|, d) == k;
    assert Pick(xs, d) == Some(xs[k]);
  }

  /** A draw falls into slot k of n exactly when it lies in [k/n, (k+1)/n). */
  lemma SlotIff(n: nat, d: Draw, k: nat)
    requires 0 < n
    ensures Slot(n, d) == k <==> k as real / n as real <= d < (k + 1) as real / n as real
  {
    var x := d * n as real;
    DivOrder(k as real, d, n as real);
    DivOrder((k + 1) as real, d, n as real);
    var j := Slot(n, d);
    if k as real <= x < (k + 1) as real {
      assert j as real < (k + 1) as real && k as real < (j + 1) as real;
    }
  }

  /** Comparing with a quotient is comparing with the product. */
  lemma DivOrder(a: real, y: real, n: real)
    requires n > 0.0
    ensures a / n <= y <==> a <= y * n
    ensures y < a / n <==> y * n < a
  {
    var q := a / n;
    assert q * n == a;
    ScaleOrder(q, y, n);
    ScaleOrder(y, q, n);
  }

  /** Scaling by a positive factor keeps the order of two reals, strict and weak. */
  lemma ScaleOrder(x: real, y: real, n: real)
    requires n > 0.0
    ensures x < y <==> x * n < y * n
    ensures x <= y <==> x * n <= y * n
  {
    if x < y {
      PositiveProduct(y - x, n);
      assert (y - x) * n == y * n - x * n;
    } else if y < x {
      PositiveProduct(x - y, n);
      assert (x - y) * n == x * n - y * n;
    }
  }
}
