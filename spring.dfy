/// The spring step of `Particle.update`, over exact reals: each frame a
/// coordinate moves the fraction `ease` of the way to its anchor.
module Spring {

  /** The restoring gain the particle sets in its constructor. */
  const Ease: real := 0.05

  /** One frame of `pos += (origin - pos) * ease`. */
  function Approach(pos: real, origin: real, ease: real): real
  {
    pos + (origin - pos) * ease
  }

  /** `b` raised to the `n`th power. */
  function Pow(b: real, n: nat): real
  {
    if n == 0 then 1.0 else b * Pow(b, n - 1)
  }

  /** The coordinate after `n` frames with nothing but the spring acting. */
  function ApproachFrames(pos: real, origin: real, ease: real, n: nat): real
  {
    if n == 0 then pos else Approach(ApproachFrames(pos, origin, ease, n - 1), origin, ease)
  }

  /** One frame shrinks the offset to the anchor by the factor `1 - ease`. */
  lemma ApproachContracts(pos: real, origin: real, ease: real)
    ensures origin - Approach(pos, origin, ease) == (1.0 - ease) * (origin - pos)
  {
  }

  /** After `n` frames the offset to the anchor is `(1 - ease)^n` times the
      initial offset. */
  lemma {:induction false} ApproachFramesOffset(pos: real, origin: real, ease: real, n: nat)
    ensures origin - ApproachFrames(pos, origin, ease, n) == Pow(1.0 - ease, n) * (origin - pos)
  {
    if n > 0 {
      ApproachFramesOffset(pos, origin, ease, n - 1);
      var prev, p, d0 := ApproachFrames(pos, origin, ease, n - 1), Pow(1.0 - ease, n - 1), origin - pos;
      ApproachContracts(prev, origin, ease);
      MulAssociates(1.0 - ease, p, d0);
    }
  }

  lemma MulAssociates(a: real, b: real, c: real)
    ensures a * (b * c) == (a * b) * c
  {
  }

  /** A power of a base in `[0, 1)` lies in `[0, 1]`, and below 1 once the
      exponent is positive. */
  lemma {:induction false} PowOfFraction(b: real, n: nat)
    requires 0.0 <= b < 1.0
    ensures 0.0 <= Pow(b, n) <= 1.0
    ensures n > 0 ==> Pow(b, n) < 1.0
  {
    if n > 0 {
      PowOfFraction(b, n - 1);
      var p := Pow(b, n - 1);
      assert Pow(b, n) == b * p;
      assert 0.0 <= b * p;
      assert b * p <= b * 1.0 by {
        assert b * 1.0 - b * p == b * (1.0 - p);
      }
    }
  }

  /** Scaling by a factor in `[0, 1]` keeps the sign and does not grow the
      magnitude; a factor below 1 strictly shrinks a non-zero value. */
  lemma ScaleByFraction(p: real, d: real, scaled: real)
    requires 0.0 <= p <= 1.0 && scaled == p * d
    ensures d >= 0.0 ==> 0.0 <= scaled <= d
    ensures d <= 0.0 ==> d <= scaled <= 0.0
    ensures p < 1.0 && d != 0.0 ==> Abs(scaled) < Abs(d)
  {
    assert d - scaled == (1.0 - p) * d;
    MulSigns(p, d);
    MulSigns(1.0 - p, d);
  }

  /** The sign of a product from the signs of its factors. */
  lemma MulSigns(a: real, b: real)
    ensures a >= 0.0 && b >= 0.0 ==> a * b >= 0.0
    ensures a > 0.0 && b > 0.0 ==> a * b > 0.0
    ensures a >= 0.0 && b <= 0.0 ==> a * b <= 0.0
    ensures a > 0.0 && b < 0.0 ==> a * b < 0.0
  {
  }

  /** With `0 < ease < 1` the spring never overshoots: after any number of
      frames the particle is still on the same side of its anchor, no
      farther away, and strictly closer once at least one frame has run. */
  lemma ApproachFramesNoOvershoot(pos: real, origin: real, ease: real, n: nat)
    requires 0.0 < ease < 1.0
    ensures var d := origin - ApproachFrames(pos, origin, ease, n);
            (origin - pos >= 0.0 ==> 0.0 <= d <= origin - pos) &&
            (origin - pos <= 0.0 ==> origin - pos <= d <= 0.0)
    ensures n > 0 && pos != origin ==>
              Abs(origin - ApproachFrames(pos, origin, ease, n)) < Abs(origin - pos)
  {
    ApproachFramesOffset(pos, origin, ease, n);
    PowOfFraction(1.0 - ease, n);
    ScaleByFraction(Pow(1.0 - ease, n), origin - pos, origin - ApproachFrames(pos, origin, ease, n));
  }

  /** Bernoulli's bound: `(1 - e)^n` is at most `1 / (1 + n * e)`. */
  lemma {:induction false} PowBernoulli(e: real, n: nat)
    requires 0.0 < e <= 1.0
    ensures Pow(1.0 - e, n) * (1.0 + n as real * e) <= 1.0
  {
    if n > 0 {
      PowBernoulli(e, n - 1);
      PowOfFraction(1.0 - e, n - 1);
      var m := (n - 1) as real;
      assert n as real == m + 1.0;
      BernoulliStep(Pow(1.0 - e, n - 1), e, m);
    }
  }

  /** The inductive step of Bernoulli's bound, over the reals. */
  lemma BernoulliStep(p: real, e: real, m: real)
    requires 0.0 <= p && 0.0 < e <= 1.0 && m >= 0.0
    requires p * (1.0 + m * e) <= 1.0
    ensures (1.0 - e) * p * (1.0 + (m + 1.0) * e) <= 1.0
  {
    assert (1.0 - e) * (1.0 + (m + 1.0) * e) == 1.0 + m * e - (m + 1.0) * e * e;
    MulSigns(m + 1.0, e * e);
    MulMonotone(p, (1.0 - e) * (1.0 + (m + 1.0) * e), 1.0 + m * e);
    assert (1.0 - e) * p * (1.0 + (m + 1.0) * e) == p * ((1.0 - e) * (1.0 + (m + 1.0) * e));
  }

  lemma MulMonotone(p: real, a: real, b: real)
    requires p >= 0.0 && a <= b
    ensures p * a <= p * b
  {
    MulSigns(p, b - a);
  }

  /** The spring brings a coordinate as close to its anchor as wanted: once
      `n * ease * eps` reaches the initial distance, after `n` frames the
      distance is below `eps`. */
  lemma ApproachFramesWithin(pos: real, origin: real, ease: real, eps: real, n: nat)
    requires 0.0 < ease < 1.0 && eps > 0.0
    requires n as real * ease * eps >= Abs(origin - pos)
    ensures Abs(origin - ApproachFrames(pos, origin, ease, n)) < eps
  {
    ApproachFramesOffset(pos, origin, ease, n);
    PowShrinks(ease, eps, n, origin - pos, origin - ApproachFrames(pos, origin, ease, n));
  }

  /** `(1 - ease)^n` takes an offset of size up to `n * ease * eps` below
      `eps`. */
  lemma PowShrinks(ease: real, eps: real, n: nat, d: real, offset: real)
    requires 0.0 < ease < 1.0 && eps > 0.0
    requires n as real * ease * eps >= Abs(d)
    requires offset == Pow(1.0 - ease, n) * d
    ensures Abs(offset) < eps
  {
    PowOfFraction(1.0 - ease, n);
    PowBernoulli(ease, n);
    ScaledBelow(Pow(1.0 - ease, n), d, n as real * ease, eps, offset);
  }

  /** Scaling by such a factor takes any offset of size up to `k * eps`
      below `eps`. */
  lemma ScaledBelow(p: real, d: real, k: real, eps: real, offset: real)
    requires 0.0 <= p && p * (1.0 + k) <= 1.0
    requires k * eps >= Abs(d) && eps > 0.0
    requires offset == p * d
    ensures Abs(offset) < eps
  {
    MulSigns(p, d);
    assert Abs(offset) == p * Abs(d);
    ShrunkBelow(p, Abs(d), k, eps);
  }

  /** A factor `p` with `p * (1 + k) <= 1` takes anything up to `k * eps`
      below `eps`. */
  lemma ShrunkBelow(p: real, a: real, k: real, eps: real)
    requires 0.0 <= p && p * (1.0 + k) <= 1.0
    requires 0.0 <= a <= k * eps && eps > 0.0
    ensures p * a < eps
  {
    MulMonotone(p, a, k * eps);
    MulMonotone(eps, p * (1.0 + k), 1.0);
    assert p * (k * eps) == eps * (p * (1.0 + k)) - p * eps;
    MulSigns(p, eps);
    assert p > 0.0 || p * a == 0.0;
  }

  function Abs(r: real): real
  {
    if r < 0.0 then -r else r
  }
}
