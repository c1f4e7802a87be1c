/**
 * The scale transform of a fixed-point field: a decimal value is stored as the
 * integer nearest to `value * base^width`, and read back as `stored / base^width`.
 *
 * Ruby's `Float` is modelled by `real`, so every product and quotient here is
 * exact; the rounding that `Float#round` performs (half away from zero) is
 * written out in `Round`.
 */
module Conversion {
  import opened Wrappers

  /** Digits after the point when no `:width` option is given. */
  const DefaultWidth: int := 2
  /** Number system when no `:base` option is given. */
  const DefaultBase: int := 10

  /** A base for which `base**width` is a positive integer. */
  type Base = b: int | b >= 1 witness 1

  /**
   * The `(width, base)` pair a field is registered with. The source does not
   * check its options; a negative width or a base below one is outside the model.
   */
  datatype Scale = Scale(width: nat, base: Base)

  /** The scale used when neither option is given: cents of a decimal currency. */
  const DefaultScale: Scale := Scale(DefaultWidth, DefaultBase)

  /** Integer exponentiation, Ruby's `Integer#**` for a non-negative exponent. */
  function Pow(base: int, width: nat): (p: int)
    ensures base >= 1 ==> p >= 1
    decreases width
  {
    if width == 0 then 1
    else
      var q := Pow(base, width - 1);
      assert base >= 1 ==> base * q >= 1 by {
        if base >= 1 { MulMonotone(base, q); }
      }
      base * q
  }

  lemma MulMonotone(a: int, b: int)
    requires a >= 1 && b >= 1
    ensures a * b >= b
  {
    assert a * b == (a - 1) * b + b;
    assert (a - 1) * b >= 0;
  }

  /** The conversion factor `base**width`; positive for every valid scale. */
  function Factor(s: Scale): (f: int)
    ensures f >= 1
  {
    Pow(s.base, s.width)
  }

  /**
   * `Float#round`: the integer nearest to `x`, a tie going away from zero.
   * The two intervals pin the result down uniquely (see `RoundUnique`).
   */
  function Round(x: real): (n: int)
    ensures x >= 0.0 ==> x - 0.5 < n as real <= x + 0.5
    ensures x < 0.0 ==> x - 0.5 <= n as real < x + 0.5
  {
    if x >= 0.0 then (x + 0.5).Floor else -((-x + 0.5).Floor)
  }

  /** The value `set_floating_point` hands to `write_attribute`. */
  function ToStored(x: real, s: Scale): int
  {
    Round(x * Factor(s) as real)
  }

  /** The division `read_floating_point` performs on a stored integer. */
  function FromStoredValue(raw: int, s: Scale): (x: real)
    ensures x * Factor(s) as real == raw as real
  {
    raw as real / Factor(s) as real
  }

  /** `read_floating_point`: nil stays nil, an integer is divided by the factor. */
  function FromStored(raw: Option<int>, s: Scale): (r: Option<real>)
    ensures r.Some? <==> raw.Some?
    ensures r.Some? ==> r.value * Factor(s) as real == raw.value as real
  {
    match raw
    case None => None
    case Some(n) => Some(FromStoredValue(n, s))
  }

  /** Any integer within the rounding interval of `x` is `Round(x)`. */
  lemma RoundUnique(x: real, m: int)
    requires x >= 0.0 ==> x - 0.5 < m as real <= x + 0.5
    requires x < 0.0 ==> x - 0.5 <= m as real < x + 0.5
    ensures m == Round(x)
  {
    var n := Round(x);
    assert -1.0 < m as real - n as real < 1.0;
  }

  /** No integer is closer to `x` than `Round(x)`. */
  lemma {:induction false} RoundIsNearest(x: real, m: int)
    ensures Abs(x - Round(x) as real) <= Abs(x - m as real)
  {
    var n := Round(x);
    if m < n {
      assert m as real <= n as real - 1.0;
    } else if m > n {
      assert m as real >= n as real + 1.0;
    }
  }

  /** On an exact half, `Round` moves away from zero. */
  lemma RoundTiesAwayFromZero(x: real)
    requires Abs(x - Round(x) as real) == 0.5
    ensures Abs(Round(x) as real) > Abs(x)
  {
  }

  /** Rounding preserves order, so the stored integers keep the order of the values. */
  lemma {:induction false} RoundMonotone(x: real, y: real)
    requires x <= y
    ensures Round(x) <= Round(y)
  {
  }

  /** `Round` moves its argument by at most one half. */
  lemma RoundWithinHalf(x: real)
    ensures Abs(x - Round(x) as real) <= 0.5
  {
  }

  /** An integral value is stored as itself. */
  lemma RoundOfInteger(i: int)
    ensures Round(i as real) == i
  {
    RoundUnique(i as real, i);
  }

  /** Dividing a distance of at most one half by `f` gives at most `0.5 / f`. */
  lemma ScaledDistance(back: real, x: real, f: real, y: real, n: real)
    requires f > 0.0 && back * f == n && x * f == y
    requires Abs(y - n) <= 0.5
    ensures Abs(back - x) * f <= 0.5
  {
    assert (back - x) * f == n - y;
    if back < x {
      assert Abs(back - x) * f == y - n;
    }
  }

  function Abs(x: real): real {
    if x < 0.0 then -x else x
  }

  /**
   * Raw round trip: reading a stored integer as a decimal and writing that
   * decimal back through the float setter stores the same integer.
   */
  lemma RawRoundTrip(raw: int, s: Scale)
    ensures ToStored(FromStoredValue(raw, s), s) == raw
  {
    var x := FromStoredValue(raw, s);
    assert x * Factor(s) as real == raw as real;
    assert ToStored(x, s) == Round(raw as real);
    RoundOfInteger(raw);
  }

  /**
   * Lossy round trip: a decimal written and read back differs from the
   * original by at most half a unit of the last stored digit.
   */
  lemma StoreErrorBound(x: real, s: Scale)
    ensures Abs(FromStoredValue(ToStored(x, s), s) - x) * Factor(s) as real <= 0.5
  {
    var f := Factor(s) as real;
    var n := ToStored(x, s);
    assert n == Round(x * f);
    var back := FromStoredValue(n, s);
    assert back * f == n as real;
    ErrorBoundFor(x, f, n, back);
  }

  /** The error bound for an arbitrary positive factor `f`. */
  lemma ErrorBoundFor(x: real, f: real, n: int, back: real)
    requires f > 0.0 && n == Round(x * f) && back * f == n as real
    ensures Abs(back - x) * f <= 0.5
  {
    var y := x * f;
    RoundWithinHalf(y);
    ScaledDistance(back, x, f, y, n as real);
  }

  /** Storing is idempotent: a value read back from storage is stored unchanged. */
  lemma StoreIdempotent(x: real, s: Scale)
    ensures ToStored(FromStoredValue(ToStored(x, s), s), s) == ToStored(x, s)
  {
    RawRoundTrip(ToStored(x, s), s);
  }

  /** The default scale stores 10.3 as 1030 and 1.1 as 110, and reads 103 as 1.03. */
  lemma DefaultScaleExamples()
    ensures Factor(DefaultScale) == 100
    ensures ToStored(10.3, DefaultScale) == 1030
    ensures ToStored(1.1, DefaultScale) == 110
    ensures FromStored(Some(103), DefaultScale) == Some(1.03)
    ensures FromStored(Some(1030), DefaultScale) == Some(10.3)
    ensures FromStored(Some(110), DefaultScale) == Some(1.1)
    ensures FromStored(Some(1310), DefaultScale) == Some(13.10)
    ensures FromStored(Some(570), DefaultScale) == Some(5.70)
  {
    RoundOfInteger(1030);
    RoundOfInteger(110);
  }

  /** Width 1 keeps one digit after the point: 10.3 is stored as 103. */
  lemma WidthOneExample()
    ensures ToStored(10.3, Scale(1, 10)) == 103
  {
    RoundOfInteger(103);
  }

  /** Base 20 gives factor 400: 10.3 is stored as 4120 and reads back as 10.3. */
  lemma CustomScaleExamples()
    ensures Factor(Scale(2, 20)) == 400
    ensures ToStored(10.3, Scale(2, 20)) == 4120
    ensures FromStored(Some(4120), Scale(2, 20)) == Some(10.3)
  {
    RoundOfInteger(4120);
  }
}
