/** The linear conversion between raw and physical signal values, over the rationals: what the
    encoder's and the decoder's truncations can cost. */
module Scaling {

  /** Python's `int(x)`: rounding toward zero. */
  function Trunc(x: real): int {
    if x >= 0.0 then x.Floor else -(-x).Floor
  }

  function Abs(x: real): real {
    if x >= 0.0 then x else -x
  }

  lemma TruncError(x: real)
    ensures Abs(Trunc(x) as real - x) < 1.0
    ensures x >= 0.0 ==> 0 <= Trunc(x) && Trunc(x) as real <= x
    ensures x <= 0.0 ==> Trunc(x) <= 0 && Trunc(x) as real >= x
  {
  }

  lemma TruncInteger(n: int)
    ensures Trunc(n as real) == n
  {
  }

  /** What `encode` packs for the value `x`. */
  function ToRaw(x: real, scale: real, offset: real): int
    requires scale != 0.0
  {
    Trunc((x - offset) / scale)
  }

  /** The value `decode` returns for a raw value. */
  function FromRaw(raw: int, scale: real, offset: real): real
    requires scale != 0.0
  {
    (Trunc(Physical(raw, scale, offset)) as real - offset) / scale
  }

  /** The value the message database means by a raw value. */
  function Physical(raw: int, scale: real, offset: real): real {
    scale * raw as real + offset
  }

  lemma PositiveTimes(b: real, d: real)
    requires b > 0.0
    ensures b * d > 0.0 <==> d > 0.0
  {
  }

  lemma Distribute(s: real, a: real, b: real)
    ensures s * (a - b) == s * a - s * b
  {
  }

  lemma TimesNegated(s: real, d: real)
    ensures -s * d == -(s * d)
  {
  }

  lemma LessTimes(p: real, a: real, b: real)
    requires p > 0.0
    ensures a < b <==> p * a < p * b
  {
    Distribute(p, b, a);
    PositiveTimes(p, b - a);
  }

  /** Scaling up keeps a number within its bounds, and nothing else does. */
  lemma Between(p: real, d: real, c: real)
    requires p > 0.0
    ensures -c < d < c <==> -(p * c) < p * d < p * c
  {
    LessTimes(p, d, c);
    LessTimes(p, -c, d);
    Distribute(p, 0.0, c);
  }

  lemma BelowScaled(s: real, d: real, c: real)
    requires s != 0.0 && Abs(d) < c
    ensures Abs(s * d) < Abs(s) * c
  {
    if s > 0.0 {
      Between(s, d, c);
    } else {
      Between(-s, d, c);
      TimesNegated(s, d);
    }
  }

  lemma ScaledBelow(s: real, d: real, c: real)
    requires s != 0.0 && Abs(s * d) < Abs(s) * c
    ensures Abs(d) < c
  {
    if s > 0.0 {
      Between(s, d, c);
    } else {
      Between(-s, d, c);
      TimesNegated(s, d);
    }
  }

  lemma DivMul(a: real, b: real)
    requires b != 0.0
    ensures b * (a / b) == a
  {
  }

  lemma StepError(x: real, s: real, o: real, q: real, t: real)
    requires s != 0.0 && s * q == x - o && Abs(t - q) < 1.0
    ensures Abs(s * t + o - x) < Abs(s)
  {
    Distribute(s, t, q);
    BelowScaled(s, t - q, 1.0);
  }

  /** What the encoder packs stands for the given value to within one step of the scale. */
  lemma EncodingError(x: real, scale: real, offset: real)
    requires scale != 0.0
    ensures ToRaw(x, scale, offset) == Trunc((x - offset) / scale)
    ensures Abs(scale * ToRaw(x, scale, offset) as real + offset - x) < Abs(scale)
  {
    var q := (x - offset) / scale;
    DivMul(x - offset, scale);
    TruncError(q);
    StepError(x, scale, offset, q, Trunc(q) as real);
  }

  /** The decoder's arithmetic: to physical scale, to a whole number, and back. */
  lemma FromRawIs(raw: int, scale: real, offset: real)
    requires scale != 0.0
    ensures FromRaw(raw, scale, offset) == (Trunc(scale * raw as real + offset) as real - offset) / scale
  {
  }

  lemma FromRawTimesScale(raw: int, scale: real, offset: real)
    requires scale != 0.0
    ensures var y := Physical(raw, scale, offset);
            scale * (FromRaw(raw, scale, offset) - raw as real) == Trunc(y) as real - y
  {
    var y := Physical(raw, scale, offset);
    DivMul(Trunc(y) as real - offset, scale);
    Distribute(scale, FromRaw(raw, scale, offset), raw as real);
  }

  /** The decoder's value is the raw value to within one part of the scale. */
  lemma DecodingError(raw: int, scale: real, offset: real)
    requires scale != 0.0
    ensures Abs(FromRaw(raw, scale, offset) - raw as real) < 1.0 / Abs(scale)
  {
    var y := Physical(raw, scale, offset);
    FromRawTimesScale(raw, scale, offset);
    TruncError(y);
    WithinOnePart(scale, FromRaw(raw, scale, offset) - raw as real, Trunc(y) as real - y);
  }

  lemma WithinOnePart(s: real, e: real, z: real)
    requires s != 0.0 && s * e == z && Abs(z) < 1.0
    ensures Abs(e) < 1.0 / Abs(s)
  {
    DivMul(1.0, Abs(s));
    BelowPart(s, e, z, Abs(s), 1.0 / Abs(s));
  }

  lemma BelowPart(s: real, e: real, z: real, p: real, c: real)
    requires s != 0.0 && s * e == z && Abs(z) < 1.0 && p == Abs(s) && p * c == 1.0
    ensures Abs(e) < c
  {
    ScaledBelow(s, e, c);
  }

  lemma {:induction false} WholeProduct(a: nat, b: int)
    ensures a as real * b as real == (a * b) as real
  {
    if a > 0 {
      WholeProduct(a - 1, b);
      Successor((a - 1) as real, b as real);
      assert a * b == (a - 1) * b + b;
    }
  }

  lemma Successor(x: real, y: real)
    ensures (x + 1.0) * y == x * y + y
  {
  }

  lemma IntegerProduct(a: int, b: int)
    ensures a as real * b as real == (a * b) as real
  {
    if a >= 0 {
      WholeProduct(a, b);
    } else {
      WholeProduct(-a, b);
      TimesNegated(a as real, b as real);
      assert -a * b == -(a * b);
    }
  }

  lemma IntegerPhysical(raw: int, scale: int, offset: int)
    ensures Physical(raw, scale as real, offset as real) == (scale * raw + offset) as real
  {
    IntegerProduct(scale, raw);
  }

  lemma ZeroFactor(s: real, d: real)
    requires s != 0.0 && s * d == 0.0
    ensures d == 0.0
  {
  }

  /** With an integer scale and offset it is exactly the raw value. */
  lemma IntegerScaleIsExact(raw: int, scale: int, offset: int)
    requires scale != 0
    ensures FromRaw(raw, scale as real, offset as real) == raw as real
  {
    IntegerPhysical(raw, scale, offset);
    TruncInteger(scale * raw + offset);
    FromRawTimesScale(raw, scale as real, offset as real);
    ZeroFactor(scale as real, FromRaw(raw, scale as real, offset as real) - raw as real);
  }

  /** Putting the decoder's value back through the scale gives a whole number... */
  lemma RescaledIsWhole(raw: int, scale: real, offset: real)
    requires scale != 0.0
    ensures scale * FromRaw(raw, scale, offset) + offset == Trunc(scale * raw as real + offset) as real
  {
    FromRawIs(raw, scale, offset);
    Rescaled(Trunc(scale * raw as real + offset) as real, scale, offset, FromRaw(raw, scale, offset));
  }

  lemma Rescaled(w: real, s: real, o: real, v: real)
    requires s != 0.0 && v == (w - o) / s
    ensures s * v + o == w
  {
    DivMul(w - o, s);
  }

  /** ...which is the encoded value to within one unit more than the encoder lost. */
  lemma RoundTripError(x: real, scale: real, offset: real)
    requires scale != 0.0
    ensures Abs(Trunc(scale * ToRaw(x, scale, offset) as real + offset) as real - x) < Abs(scale) + 1.0
  {
    EncodingError(x, scale, offset);
    WholeNear(ToRaw(x, scale, offset) as real, scale, offset, x);
  }

  lemma WholeNear(t: real, scale: real, offset: real, x: real)
    requires Abs(scale * t + offset - x) < Abs(scale)
    ensures Abs(Trunc(scale * t + offset) as real - x) < Abs(scale) + 1.0
  {
    WholeError(scale * t + offset, x);
  }

  lemma WholeError(y: real, x: real)
    ensures Abs(Trunc(y) as real - x) < Abs(y - x) + 1.0
  {
    TruncError(y);
  }

  lemma Triangle(a: real, b: real)
    ensures Abs(a + b) <= Abs(a) + Abs(b)
  {
  }

  /** The decoder returns physical values, as the test suite asks, for every raw value if and
      only if the signal is not scaled at all. */
  lemma PhysicalIffUnscaled(scale: real, offset: real)
    requires scale != 0.0
    ensures (forall raw: nat :: FromRaw(raw, scale, offset) == scale * raw as real + offset)
       <==> scale == 1.0 && offset == 0.0
  {
    assert forall raw: nat :: Physical(raw, scale, offset) == scale * raw as real + offset;
    if scale == 1.0 && offset == 0.0 {
      forall raw: nat
        ensures FromRaw(raw, scale, offset) == Physical(raw, scale, offset)
      {
        IntegerScaleIsExact(raw, 1, 0);
      }
    } else if scale == 1.0 {
      ShiftedIsOff(offset);
    } else {
      var raw := FarRaw(scale, offset);
    }
  }

  lemma ShiftedIsOff(offset: real)
    requires offset != 0.0
    ensures FromRaw(0, 1.0, offset) != Physical(0, 1.0, offset)
  {
    FromRawTimesScale(0, 1.0, offset);
    TruncError(offset);
    assert FromRaw(0, 1.0, offset) == Trunc(offset) as real - offset;
  }

  /** Where the two differ for a scale other than 1: anywhere far enough out. */
  lemma FarRaw(scale: real, offset: real) returns (raw: nat)
    requires scale != 0.0 && scale != 1.0
    ensures FromRaw(raw, scale, offset) != Physical(raw, scale, offset)
  {
    var c := (scale - 1.0) * scale;
    assert c != 0.0;
    raw := FarOut(c, 1.0 + Abs(scale * offset));
    Triangle(c * raw as real + scale * offset, -(scale * offset));
    Gap(raw, scale, offset, c);
  }

  lemma FarOut(c: real, far: real) returns (raw: nat)
    requires c != 0.0 && far >= 0.0
    ensures Abs(c * raw as real) >= far
  {
    var p := Abs(c);
    var need := far / p;
    DivMul(far, p);
    PositiveTimes(p, need);
    raw := need.Floor + 1;
    PositiveTimes(p, raw as real - need);
    Distribute(p, raw as real, need);
    PositiveTimes(p, raw as real);
    assert c * raw as real == p * raw as real || c * raw as real == -(p * raw as real);
  }

  /** The two differ wherever the conversion moves a raw value by a whole unit or more. */
  lemma Gap(raw: int, scale: real, offset: real, c: real)
    requires scale != 0.0 && c == (scale - 1.0) * scale
    requires Abs(c * raw as real + scale * offset) >= 1.0
    ensures FromRaw(raw, scale, offset) != Physical(raw, scale, offset)
  {
    var y := Physical(raw, scale, offset);
    FromRawTimesScale(raw, scale, offset);
    TruncError(y);
    Expand(scale, offset, raw as real);
  }

  lemma Expand(s: real, o: real, r: real)
    ensures s * (s * r + o - r) == (s - 1.0) * s * r + s * o
  {
  }

  /** For an integer scale and offset, exactly when the conversion leaves that raw value alone. */
  lemma IntegerPhysicalIff(raw: int, scale: int, offset: int)
    requires scale != 0
    ensures FromRaw(raw, scale as real, offset as real) == Physical(raw, scale as real, offset as real)
       <==> (scale - 1) * raw + offset == 0
  {
    IntegerScaleIsExact(raw, scale, offset);
    IntegerPhysical(raw, scale, offset);
    assert (scale - 1) * raw == scale * raw - raw;
  }

  /** The least of the signals the decoder gets wrong: raw value 1 at scale 2. */
  lemma ScaledIsNotPhysical()
    ensures FromRaw(1, 2.0, 0.0) == 1.0 && Physical(1, 2.0, 0.0) == 2.0
  {
    IntegerScaleIsExact(1, 2, 0);
  }
}
