/** Addition of rounded fractions (e2e-smoke/python/smoke_math.py). */
module SmokeMath {

  /** A `Fraction`: its denominator is positive. */
  datatype Fraction = Fraction(numerator: int, denominator: int)

  predicate Valid(f: Fraction) { f.denominator > 0 }

  /** `_normalize_fraction_operand`; both divisions are of natural numbers. */
  function Round(f: Fraction): int
    requires Valid(f)
  {
    var half := f.denominator / 2;
    if f.numerator >= 0 then (f.numerator + half) / f.denominator
    else -((-f.numerator + half) / f.denominator)
  }

  function Abs(x: int): nat { if x < 0 then -x else x }

  /** A product that the proofs below handle by its laws only */
  function Times(a: int, b: int): int { a * b }

  /** The multiple `p` of the denominator is nearest to the numerator, and of two nearest ones the one away from zero. */
  predicate Near(p: int, n: int, d: int)
  {
    2 * Abs(p - n) < d || (2 * Abs(p - n) == d && Abs(p) > Abs(n))
  }

  /** `m` is the half-up rounding of the fraction. */
  predicate HalfUp(m: int, f: Fraction) { Near(Times(m, f.denominator), f.numerator, f.denominator) }

  lemma {:induction false} DivBounds(a: int, d: int)
    requires a >= 0 && d > 0
    ensures 0 <= Times(a / d, d) <= a < Times(a / d, d) + d
  {
    var q := a / d;
    assert a == q * d + a % d;
    if q < 0 { Stretch(d, q, 0); }
    Stretch(d, -1, q);
  }

  lemma {:induction false} Stretch(k: int, x: int, y: int)
    requires k > 0
    ensures x < y ==> Times(x, k) < Times(y, k) && Times(k, x) < Times(k, y)
  {
    if x < y { assert (y - x) * k > 0; }
  }

  lemma {:induction false} Laws(a: int, b: int, c: int)
    ensures Times(-a, b) == -Times(a, b) && Times(a, -b) == -Times(a, b)
    ensures Times(a, Times(b, c)) == Times(b, Times(a, c))
    ensures Times(a, b + c) == Times(a, b) + Times(a, c) && Times(a + b, c) == Times(a, c) + Times(b, c)
    ensures Times(1, a) == a
  {
    assert a * (b * c) == b * (a * c);
  }

  /** The result is half-up rounding, for even and odd denominators alike. */
  lemma {:induction false} RoundIsHalfUp(f: Fraction)
    requires Valid(f)
    ensures HalfUp(Round(f), f)
  {
    hide Times;
    var n, d := Abs(f.numerator), f.denominator;
    DivBounds(n + d / 2, d);
    Laws((n + d / 2) / d, d, 0);
  }

  /** Two multiples of `d` that are not equal are `d` apart. */
  lemma {:induction false} Apart(a: int, b: int, d: int)
    requires d > 0 && a != b
    ensures Abs(Times(a, d) - Times(b, d)) >= d
  {
    hide Times;
    Laws(a, 1, d);
    Laws(b, 1, d);
    Laws(d, 0, 0);
    if a > b + 1 { Stretch(d, b + 1, a); }
    if b > a + 1 { Stretch(d, a + 1, b); }
  }

  /** Half-up rounding has exactly one result. */
  lemma {:induction false} HalfUpUnique(a: int, b: int, f: Fraction)
    requires Valid(f) && HalfUp(a, f) && HalfUp(b, f)
    ensures a == b
  {
    hide Times;
    var d := f.denominator;
    Laws(0, 0, d);
    if a != 0 { Apart(a, 0, d); }
    if b != 0 { Apart(b, 0, d); }
    if a != b { Apart(a, b, d); }
  }

  /** No integer is nearer. */
  lemma {:induction false} Nearest(m: int, f: Fraction)
    requires Valid(f)
    ensures Abs(Times(Round(f), f.denominator) - f.numerator) <= Abs(Times(m, f.denominator) - f.numerator)
  {
    hide Times, Round;
    RoundIsHalfUp(f);
    if m != Round(f) { Apart(m, Round(f), f.denominator); }
  }

  /** Rounding is odd. */
  lemma {:induction false} RoundOdd(f: Fraction)
    requires Valid(f)
    ensures Round(Fraction(-f.numerator, f.denominator)) == -Round(f)
  {
    hide Times, Round;
    var g := Fraction(-f.numerator, f.denominator);
    RoundIsHalfUp(f);
    RoundIsHalfUp(g);
    Laws(Round(f), f.denominator, 0);
    HalfUpUnique(Round(g), -Round(f), g);
  }

  lemma {:induction false} StretchAbs(k: int, x: int)
    requires k > 0
    ensures Abs(Times(k, x)) == Times(k, Abs(x))
  {
    hide Times;
    Laws(k, x, 0);
    Laws(k, 0, 0);
    Stretch(k, x, 0);
    Stretch(k, 0, x);
  }

  lemma {:induction false} NearScaled(p: int, n: int, d: int, k: int)
    requires k > 0 && Near(p, n, d)
    ensures Near(Times(k, p), Times(k, n), Times(k, d))
  {
    hide Times;
    Laws(k, p, -n);
    Laws(k, n, 0);
    StretchAbs(k, p - n);
    StretchAbs(k, p);
    StretchAbs(k, n);
    Laws(k, Abs(p - n), Abs(p - n));
    Stretch(k, 2 * Abs(p - n), d);
    Stretch(k, Abs(n), Abs(p));
  }

  /** Equal fractions round alike, however they are reduced. */
  lemma {:induction false} RoundRespectsValue(f: Fraction, k: int)
    requires Valid(f) && k > 0
    ensures var g := Fraction(Times(k, f.numerator), Times(k, f.denominator)); Valid(g) && Round(g) == Round(f)
  {
    hide Times, Round;
    var g := Fraction(Times(k, f.numerator), Times(k, f.denominator));
    Stretch(k, 0, f.denominator);
    Laws(k, 0, 0);
    RoundIsHalfUp(f);
    RoundIsHalfUp(g);
    Laws(k, Round(f), f.denominator);
    NearScaled(Times(Round(f), f.denominator), f.numerator, f.denominator, k);
    HalfUpUnique(Round(g), Round(f), g);
  }

  // ---------- sums ----------

  function Value(f: Fraction): real
    requires Valid(f)
  {
    f.numerator as real / f.denominator as real
  }

  lemma {:induction false} RoundNear(f: Fraction)
    requires Valid(f)
    ensures -0.5 <= Round(f) as real - Value(f) <= 0.5
  {
    hide Round;
    RoundIsHalfUp(f);
    Quotient(Round(f), f.numerator, f.denominator);
  }

  function Scale(x: real, d: real): real { x * d }

  /** Half a unit apart, and half a `d` apart after multiplying by `d` */
  lemma {:induction false} HalfApart(x: real, y: real, d: real)
    requires d > 0.0 && x > y + 0.5
    ensures Scale(x, d) > Scale(y, d) + 0.5 * d
  {
    assert Scale(x - y - 0.5, d) > 0.0;
    Distribute(x - y - 0.5, y + 0.5, d);
    Distribute(y, 0.5, d);
    assert x - y - 0.5 + (y + 0.5) == x;
  }

  lemma {:induction false} Distribute(a: real, b: real, d: real)
    ensures Scale(a + b, d) == Scale(a, d) + Scale(b, d)
    ensures Scale(0.5, d) == 0.5 * d
  {
  }

  lemma {:induction false} ScaleQuotient(m: int, n: int, d: int)
    requires d > 0
    ensures Scale(n as real / d as real, d as real) == n as real
    ensures Scale(m as real, d as real) == Times(m, d) as real
  {
  }

  lemma {:induction false} Quotient(m: int, n: int, d: int)
    requires d > 0 && 2 * Abs(Times(m, d) - n) <= d
    ensures -0.5 <= m as real - n as real / d as real <= 0.5
  {
    hide Scale, Times;
    var r, e, v := m as real, d as real, n as real / d as real;
    ScaleQuotient(m, n, d);
    if r > v + 0.5 { HalfApart(r, v, e); }
    if v > r + 0.5 { HalfApart(v, r, e); }
  }

  /** `_add_normalized_operands`, with its two identity branches */
  function AddNormalized(left: int, right: int): (r: int)
    ensures r == left + right
  {
    if left == 0 then right else if right == 0 then left else left + right
  }

  function Add(a: Fraction, b: Fraction): int
    requires Valid(a) && Valid(b)
  {
    AddNormalized(Round(a), Round(b))
  }

  function Add3(a: Fraction, b: Fraction, c: Fraction): int
    requires Valid(a) && Valid(b) && Valid(c)
  {
    AddNormalized(AddNormalized(Round(a), Round(b)), Round(c))
  }

  /** `add` is within 1 of the exact sum. */
  lemma {:induction false} AddWithinOne(a: Fraction, b: Fraction)
    requires Valid(a) && Valid(b)
    ensures -1.0 <= Add(a, b) as real - (Value(a) + Value(b)) <= 1.0
  {
    hide Round, Value;
    RoundNear(a);
    RoundNear(b);
  }

  /** `add3` is within 3/2 of the exact sum. */
  lemma {:induction false} Add3WithinThreeHalves(a: Fraction, b: Fraction, c: Fraction)
    requires Valid(a) && Valid(b) && Valid(c)
    ensures -1.5 <= Add3(a, b, c) as real - (Value(a) + Value(b) + Value(c)) <= 1.5
  {
    hide Round, Value;
    RoundNear(a);
    RoundNear(b);
    RoundNear(c);
  }

  /** Both bounds are met: no smaller ones hold. */
  lemma {:induction false} BoundsAreTight()
    ensures var half := Fraction(1, 2);
            && Add(half, half) as real - (Value(half) + Value(half)) == 1.0
            && Add3(half, half, half) as real - (Value(half) + Value(half) + Value(half)) == 1.5
  {
  }
}
