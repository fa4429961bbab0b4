/**
  The integer solver that scales an image into the largest supported budget of
  28-pixel patches, by bisection over the long edge.
*/
module ImageSize {
  const PATCH: nat := 28

  const MAX_EDGE: nat := 2576

  const MAX_PATCHES: nat := 4784

  function CeilDiv(value: nat, divisor: nat): (q: nat)
    requires divisor > 0
    ensures divisor * q >= value && (q > 0 ==> divisor * (q - 1) < value)
  {
    (value + divisor - 1) / divisor
  }

  function Patches(w: nat, h: nat): nat { CeilDiv(w, PATCH) * CeilDiv(h, PATCH) }

  predicate Fits(w: nat, h: nat) { w <= MAX_EDGE && h <= MAX_EDGE && Patches(w, h) <= MAX_PATCHES }

  /** A short edge for each long edge: monotone, at most the long edge, exact at the full size. */
  ghost predicate Proportional(short: nat -> nat, width: nat, height: nat) {
    && (forall a, b :: 1 <= a <= b <= width ==> short(a) <= short(b))
    && (forall a :: 1 <= a <= width ==> 1 <= short(a) <= a)
    && short(width) == height
  }

  predicate Feasible(short: nat -> nat, w: nat) { w <= MAX_EDGE && Patches(w, short(w)) <= MAX_PATCHES }

  /** The largest long edge within both limits. */
  ghost predicate IsLargest(short: nat -> nat, width: nat, w: nat) {
    1 <= w <= width && Feasible(short, w) && forall x :: w < x <= width ==> !Feasible(short, x)
  }

  lemma CeilDivMonotone(a: nat, b: nat)
    requires a <= b
    ensures CeilDiv(a, PATCH) <= CeilDiv(b, PATCH)
  {
  }

  lemma ProductMonotone(a: nat, b: nat, c: nat, d: nat)
    requires a <= c && b <= d
    ensures a * b <= c * d
  {
    assert c * d - a * b == (c - a) * d + a * (d - b);
    assert (c - a) * d >= 0 && a * (d - b) >= 0;
  }

  /** A larger long edge never needs fewer patches. */
  lemma FeasibleDownwards(short: nat -> nat, width: nat, height: nat, a: nat, b: nat)
    requires Proportional(short, width, height) && 1 <= a <= b <= width && Feasible(short, b)
    ensures Feasible(short, a)
  {
    CeilDivMonotone(a, b);
    CeilDivMonotone(short(a), short(b));
    ProductMonotone(CeilDiv(a, PATCH), CeilDiv(short(a), PATCH), CeilDiv(b, PATCH), CeilDiv(short(b), PATCH));
  }

  lemma SwapFits(w: nat, h: nat)
    ensures Fits(w, h) <==> Fits(h, w)
  {
    var a, b := CeilDiv(w, PATCH), CeilDiv(h, PATCH);
    assert a * b == b * a;
  }

  lemma OneIsFeasible(short: nat -> nat, width: nat, height: nat)
    requires Proportional(short, width, height) && width >= height >= 1 && !Fits(width, height)
    ensures Feasible(short, 1) && !Feasible(short, width) && width > 1
  {
    assert short(1) == 1;
    assert CeilDiv(1, PATCH) == 1;
  }

  /**
    The solver. `short(w, h)` is the short edge as a function of the long edge for
    an image of long edge w and short edge h; the result is the largest size of the
    same orientation within the limits, and the image itself when it fits.
  */
  method ScaledImageDimensions(width: nat, height: nat, short: (nat, nat) -> (nat -> nat)) returns (w: nat, h: nat)
    requires width >= 1 && height >= 1
    requires forall a, b :: a >= b >= 1 ==> Proportional(short(a, b), a, b)
    ensures Fits(width, height) ==> w == width && h == height
    ensures !Fits(width, height) && width >= height ==>
      IsLargest(short(width, height), width, w) && h == short(width, height)(w)
    ensures !Fits(width, height) && width < height ==>
      IsLargest(short(height, width), height, h) && w == short(height, width)(h)
    ensures Fits(w, h) && 1 <= w <= width && 1 <= h <= height
    decreases height > width
  {
    if width <= MAX_EDGE && height <= MAX_EDGE && CeilDiv(width, PATCH) * CeilDiv(height, PATCH) <= MAX_PATCHES {
      return width, height;
    }
    if height > width {
      SwapFits(width, height);
      h, w := ScaledImageDimensions(height, width, short);
      SwapFits(w, h);
      return;
    }
    var s := short(width, height);
    assert Proportional(s, width, height);
    var low, high := 1, width;
    OneIsFeasible(s, width, height);
    while low + 1 != high
      invariant 1 <= low < high <= width
      invariant Feasible(s, low) && !Feasible(s, high)
      decreases high - low
    {
      var candidate := (low + high) / 2;
      var patches := CeilDiv(candidate, PATCH) * CeilDiv(s(candidate), PATCH);
      if candidate <= MAX_EDGE && patches <= MAX_PATCHES {
        low := candidate;
      } else {
        high := candidate;
      }
    }
    forall x | low < x <= width ensures !Feasible(s, x) {
      if Feasible(s, x) {
        FeasibleDownwards(s, width, height, high, x);
      }
    }
    w, h := low, s(low);
  }

  // -------------------------------------------------------------- exact rounding

  /** The short edge with exact arithmetic: the quotient rounded to the nearest, at least one. */
  function Rounded(width: nat, height: nat, w: nat): nat
    requires width >= 1
  {
    var r := (2 * (w * height) + width) / (2 * width);
    if r < 1 then 1 else r
  }

  lemma DivBounds(x: nat, d: nat)
    requires d >= 1
    ensures d * (x / d) <= x < d * (x / d) + d
  {
  }

  /** Division is pinned down by its bounds. */
  lemma DivAtMost(x: nat, d: nat, q: nat)
    requires d >= 1 && x < d * q + d
    ensures x / d <= q
  {
    DivBounds(x, d);
    var p := x / d;
    assert d * p < d * (q + 1);
    if p >= q + 1 {
      ProductMonotone(d, q + 1, d, p);
      assert false;
    }
  }

  lemma DivAtLeast(x: nat, d: nat, q: nat)
    requires d >= 1 && d * q <= x
    ensures x / d >= q
  {
    DivBounds(x, d);
    var p := x / d;
    assert d * q < d * (p + 1);
    if q >= p + 1 {
      ProductMonotone(d, p + 1, d, q);
      assert false;
    }
  }

  lemma RoundedMonotone(width: nat, height: nat, a: nat, b: nat)
    requires width >= 1 && a <= b
    ensures Rounded(width, height, a) <= Rounded(width, height, b)
  {
    ProductMonotone(a, height, b, height);
    var d, x, y := 2 * width, 2 * (a * height) + width, 2 * (b * height) + width;
    DivBounds(x, d);
    DivAtLeast(y, d, x / d);
  }

  lemma RoundedAtMost(width: nat, height: nat, a: nat)
    requires width >= height >= 1 && a >= 1
    ensures 1 <= Rounded(width, height, a) <= a
  {
    ProductMonotone(a, height, a, width);
    var d, x := 2 * width, 2 * (a * height) + width;
    assert d * a == 2 * (a * width);
    DivAtMost(x, d, a);
  }

  lemma RoundedIsExact(width: nat, height: nat)
    requires width >= 1 && height >= 1
    ensures Rounded(width, height, width) == height
  {
    var d, x := 2 * width, 2 * (width * height) + width;
    assert d * height == 2 * (width * height);
    DivAtMost(x, d, height);
    DivAtLeast(x, d, height);
  }

  /** Exact rounding meets what the solver needs of its short edge. */
  lemma RoundedIsProportional(width: nat, height: nat)
    requires width >= height >= 1
    ensures Proportional(w => Rounded(width, height, w), width, height)
  {
    hide Rounded;
    var short := w => Rounded(width, height, w);
    forall a: nat, b: nat | 1 <= a <= b <= width ensures short(a) <= short(b) {
      RoundedMonotone(width, height, a, b);
    }
    forall a: nat | 1 <= a <= width ensures 1 <= short(a) <= a {
      RoundedAtMost(width, height, a);
    }
    RoundedIsExact(width, height);
  }
}
