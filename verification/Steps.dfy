/** Rounding to a step (exchange/normalize.py). `Times` counts steps by addition, so that callers can
    reason about step multiples linearly; the lemmas tie it to division and floor. */
module Steps {
  import opened Types

  function Times(k: int, step: PosReal): real
    decreases Magnitude(k)
  {
    if k == 0 then 0.0 else if k > 0 then Times(k - 1, step) + step else Times(k + 1, step) - step
  }

  function Magnitude(k: int): nat {
    if k < 0 then -k else k
  }

  function Count(x: real, step: PosReal): int {
    (x / step).Floor
  }

  function FloorToStep(x: real, step: PosReal): real {
    (x / step).Floor as real * step
  }

  function CeilToStep(x: real, step: PosReal): real {
    -((-(x / step)).Floor) as real * step
  }

  /** `q % step == 0`. */
  predicate Multiple(q: real, step: PosReal) {
    q == FloorToStep(q, step)
  }

  lemma Distribute(a: real, b: real, s: real)
    ensures (a + b) * s == a * s + b * s
  {}

  lemma MulMonotone(a: real, b: real, s: PosReal)
    requires a <= b
    ensures a * s <= b * s
  {}

  lemma MulStrict(a: real, b: real, s: PosReal)
    requires a < b
    ensures a * s < b * s
  {}

  lemma DivMul(x: real, s: PosReal)
    ensures (x / s) * s == x
    ensures (-x) / s == -(x / s)
  {}

  lemma {:induction false} TimesIsProduct(k: int, step: PosReal)
    ensures Times(k, step) == k as real * step
    decreases Magnitude(k)
  {
    if k > 0 {
      TimesIsProduct(k - 1, step);
      Distribute((k - 1) as real, 1.0, step);
    } else if k < 0 {
      TimesIsProduct(k + 1, step);
      Distribute((k + 1) as real, -1.0, step);
    }
  }

  lemma TimesAdd(a: int, b: int, step: PosReal)
    ensures Times(a + b, step) == Times(a, step) + Times(b, step)
  {
    TimesIsProduct(a, step);
    TimesIsProduct(b, step);
    TimesIsProduct(a + b, step);
    Distribute(a as real, b as real, step);
  }

  lemma {:induction false} TimesAtLeastStep(a: int, step: PosReal)
    requires a >= 1
    ensures Times(a, step) >= step
  {
    if a > 1 {
      TimesAtLeastStep(a - 1, step);
    }
  }

  lemma TimesStrict(a: int, b: int, step: PosReal)
    requires a < b
    ensures Times(a, step) + step <= Times(b, step)
  {
    TimesAdd(a, b - a, step);
    TimesAtLeastStep(b - a, step);
  }

  lemma Between(x: real, y: real, n: int, step: PosReal)
    requires x == y * step && n as real <= y < n as real + 1.0
    ensures n as real * step <= x < n as real * step + step
  {
    MulMonotone(n as real, y, step);
    MulStrict(y, n as real + 1.0, step);
    Distribute(n as real, 1.0, step);
  }

  lemma FloorBounds(x: real, step: PosReal)
    ensures FloorToStep(x, step) == Times(Count(x, step), step)
    ensures FloorToStep(x, step) <= x < FloorToStep(x, step) + step
  {
    DivMul(x, step);
    Between(x, x / step, (x / step).Floor, step);
    TimesIsProduct((x / step).Floor, step);
  }

  /** The count of whole steps in a value is pinned down by the bracketing multiples. */
  lemma CountUnique(x: real, step: PosReal, k: int)
    requires Times(k, step) <= x < Times(k, step) + step
    ensures Count(x, step) == k && FloorToStep(x, step) == Times(k, step)
  {
    FloorBounds(x, step);
    var n := Count(x, step);
    if n < k {
      TimesStrict(n, k, step);
    } else if k < n {
      TimesStrict(k, n, step);
    }
  }

  lemma MultipleOfTimes(k: int, step: PosReal)
    ensures Multiple(Times(k, step), step) && Count(Times(k, step), step) == k
  {
    CountUnique(Times(k, step), step, k);
  }

  /** Rounding down gives the greatest step multiple that does not exceed the value. */
  lemma FloorIsGreatestMultiple(x: real, step: PosReal, k: int)
    ensures Multiple(FloorToStep(x, step), step)
    ensures FloorToStep(x, step) <= x < FloorToStep(x, step) + step
    ensures Times(k, step) <= x ==> Times(k, step) <= FloorToStep(x, step)
  {
    FloorBounds(x, step);
    MultipleOfTimes(Count(x, step), step);
    if Times(k, step) <= x && k > Count(x, step) {
      TimesStrict(Count(x, step), k, step);
    } else if k < Count(x, step) {
      TimesStrict(k, Count(x, step), step);
    }
  }

  lemma CeilIsNegatedFloor(x: real, step: PosReal)
    ensures CeilToStep(x, step) == Times(-Count(-x, step), step)
    ensures CeilToStep(x, step) == -FloorToStep(-x, step)
  {
    DivMul(x, step);
    var n := Count(-x, step);
    TimesIsProduct(-n, step);
    NegateProduct(n as real, step);
  }

  lemma NegateProduct(a: real, s: real)
    ensures (-a) * s == -(a * s)
  {}

  /** Rounding up gives the least step multiple that is not below the value. */
  lemma CeilIsLeastMultiple(x: real, step: PosReal, k: int)
    ensures Multiple(CeilToStep(x, step), step)
    ensures CeilToStep(x, step) - step < x <= CeilToStep(x, step)
    ensures x <= Times(k, step) ==> CeilToStep(x, step) <= Times(k, step)
  {
    CeilIsNegatedFloor(x, step);
    FloorBounds(-x, step);
    var n := -Count(-x, step);
    MultipleOfTimes(n, step);
    if x <= Times(k, step) && k < n {
      TimesStrict(k, n, step);
    } else if n < k {
      TimesStrict(n, k, step);
    }
  }

  lemma MultipleAdd(a: real, b: real, step: PosReal)
    requires Multiple(a, step) && Multiple(b, step)
    ensures Multiple(a + b, step)
  {
    FloorBounds(a, step);
    FloorBounds(b, step);
    TimesAdd(Count(a, step), Count(b, step), step);
    MultipleOfTimes(Count(a, step) + Count(b, step), step);
  }

  lemma {:induction false} MultipleSum(xs: seq<real>, step: PosReal)
    requires forall i :: 0 <= i < |xs| ==> Multiple(xs[i], step)
    ensures Multiple(Sum(xs), step)
  {
    if xs == [] {
      MultipleOfTimes(0, step);
    } else {
      MultipleSum(xs[1..], step);
      MultipleAdd(xs[0], Sum(xs[1..]), step);
    }
  }
}
