/** Per-chip jitter (packages/shared/src/send-config.ts:39-47, apps/core/src/scheduler/scheduler.service.ts:334-347). */
module SendConfig {

  /** A UTF-16 code unit, as `charCodeAt` returns it. */
  type CodeUnit = x: int | 0 <= x < 0x1_0000

  const TWO_32 := 0x1_0000_0000

  /** What `| 0` does to an exact integer: the signed 32-bit residue (ToInt32, section 7.1.6 of ECMA-262). */
  function ToInt32(x: int): int {
    (x + 0x8000_0000) % TWO_32 - 0x8000_0000
  }

  /** The id read as a number in base 31, without any wrap-around. */
  function Polynomial(id: seq<CodeUnit>): int {
    if id == [] then 0 else Polynomial(id[..|id| - 1]) * 31 + id[|id| - 1]
  }

  function Abs(x: int): nat { if x < 0 then -x else x }

  function FactorOf(hash: int): real {
    0.75 + (Abs(hash) % 1000) as real / 1000.0 * 0.6
  }

  /** The factor of a chip, from the unbounded polynomial. */
  function Factor(id: seq<CodeUnit>): real {
    FactorOf(ToInt32(Polynomial(id)))
  }

  /** Wrapping at every step is wrapping once at the end. */
  lemma WrapEarlyOrLate(x: int, c: int)
    ensures ToInt32(ToInt32(x) * 31 + c) == ToInt32(x * 31 + c)
  {
    var q := (x + 0x8000_0000) / TWO_32;
    assert ToInt32(x) == x - TWO_32 * q;
    assert ToInt32(x) * 31 + c + 0x8000_0000 == (x * 31 + c + 0x8000_0000) - TWO_32 * (31 * q);
    ShiftByMultiple(x * 31 + c + 0x8000_0000, 31 * q);
  }

  lemma ShiftByMultiple(y: int, k: int)
    ensures (y - TWO_32 * k) % TWO_32 == y % TWO_32
  {
  }

  /**
   The loop of `perChipFactor`. Each intermediate value is below 2^53 in size, so the source's doubles hold
   it exactly before `| 0`.
   */
  method PerChipFactor(id: seq<CodeUnit>) returns (factor: real)
    ensures factor == Factor(id)
    ensures 0.75 <= factor <= 1.3494
  {
    var h, i := 0, 0;
    while i < |id|
      invariant i <= |id|
      invariant h == ToInt32(Polynomial(id[..i])) && -0x8000_0000 <= h < 0x8000_0000
    {
      assert Abs(h * 31 + id[i]) < 0x20_0000_0000_0000;
      WrapEarlyOrLate(Polynomial(id[..i]), id[i]);
      assert id[..i + 1][..i] == id[..i];
      h := ToInt32(h * 31 + id[i]);
      i := i + 1;
    }
    assert id[..i] == id;
    FactorInRange(h);
    factor := FactorOf(h);
  }

  lemma FactorInRange(hash: int)
    ensures 0.75 <= FactorOf(hash) <= 1.3494
  {
    var m := Abs(hash) % 1000;
    assert 0 <= m <= 999;
  }

  /** `jitterMs` of a flow, or the defaults; a flow may set anything. */
  datatype Jitter = Jitter(min: real, max: real)

  /** `Math.round`: ties go up. */
  function Round(x: real): int {
    (x + 0.5).Floor
  }

  function Spread(j: Jitter): real {
    if j.max - j.min > 1.0 then j.max - j.min else 1.0
  }

  /** `Math.floor` of a draw scaled to `spread`. */
  function Drawn(u: real, spread: real): real {
    (u * spread).Floor as real
  }

  function Base(j: Jitter, u: real): real {
    j.min + Drawn(u, Spread(j))
  }

  /** The delay `armNextSend` draws for the draw `u` of `Math.random`. */
  function Delay(j: Jitter, factor: real, u: real): int {
    Round(Base(j, u) * factor)
  }

  function MinGap(j: Jitter): int {
    Round(0.75 * j.min)
  }

  // ---------------------------------------------------------------- the hash and the factor, in numbers

  function Power31(n: nat): int {
    if n == 0 then 1 else 31 * Power31(n - 1)
  }

  /** The polynomial is positional: an id's front part counts 31 to the length of the rest. */
  lemma {:induction false} PolynomialIsPositional(a: seq<CodeUnit>, b: seq<CodeUnit>)
    ensures Polynomial(a + b) == Polynomial(a) * Power31(|b|) + Polynomial(b)
  {
    if b == [] {
      assert a + b == a;
    } else {
      var n, p := |b| - 1, Power31(|b| - 1);
      assert (a + b)[..|a| + n] == a + b[..n];
      PolynomialIsPositional(a, b[..n]);
      Times31(Polynomial(a), p);
    }
  }

  lemma Times31(x: int, p: int)
    ensures x * p * 31 == x * (31 * p)
  {
  }

  /** The residue is the one in the signed 32-bit range that differs by a multiple of 2^32. */
  lemma ResidueIsSigned(x: int)
    ensures -0x8000_0000 <= ToInt32(x) < 0x8000_0000 && (x - ToInt32(x)) % 0x1_0000_0000 == 0
  {
    ShiftByMultiple(0, -((x + 0x8000_0000) / TWO_32));
    assert x - ToInt32(x) == TWO_32 * ((x + 0x8000_0000) / TWO_32);
  }

  /** A thousand factors, six ten-thousandths apart, by the last three digits of the hash: no two of them alike. */
  lemma FactorsDiffer(hash: int, hash': int)
    ensures FactorOf(hash') - FactorOf(hash) == (Abs(hash') % 1000 - Abs(hash) % 1000) as real * 0.0006
    ensures FactorOf(hash) == FactorOf(hash') <==> Abs(hash) % 1000 == Abs(hash') % 1000
  {
    var m, m' := Abs(hash) % 1000, Abs(hash') % 1000;
    assert FactorOf(hash) == 0.75 + m as real * 0.0006;
    assert FactorOf(hash') == 0.75 + m' as real * 0.0006;
    assert (m' - m) as real == m' as real - m as real;
  }

  lemma FactorEnds()
    ensures FactorOf(0) == 0.75 && FactorOf(999) == 1.3494 && FactorOf(-999) == 1.3494
  {
  }

  // ---------------------------------------------------------------- the delay

  lemma ProductIsMonotone(x: real, y: real, factor: real)
    requires x <= y && 0.0 <= factor
    ensures x * factor <= y * factor
  {
    assert (y - x) * factor >= 0.0;
  }

  /** To the nearest whole number, and up from the middle. */
  lemma RoundIsNearest(x: real, n: int)
    ensures Round(x) == n <==> n as real - 0.5 <= x < n as real + 0.5
  {
    assert (x + 0.5).Floor as real <= x + 0.5 < (x + 0.5).Floor as real + 1.0;
  }

  lemma RoundIsMonotone(x: real, y: real)
    requires x <= y
    ensures Round(x) <= Round(y)
  {
  }

  /** The draw only adds to the minimum. */
  lemma BaseIsAtLeastMin(u: real, spread: real)
    requires 0.0 <= u && 0.0 <= spread
    ensures 0.0 <= Drawn(u, spread)
  {
    ProductIsMonotone(0.0, u, spread);
    assert 0.0 * spread == 0.0;
  }

  lemma GapOfBase(min: real, base: real, factor: real)
    requires 0.0 <= min <= base && 0.75 <= factor
    ensures Round(0.75 * min) <= Round(base * factor)
  {
    ProductIsMonotone(0.75, factor, base);
    RoundIsMonotone(0.75 * min, base * factor);
  }

  lemma DelayOfFactor(j: Jitter, factor: real, u: real)
    requires 0.0 <= u && 0.0 <= j.min && 0.75 <= factor
    ensures MinGap(j) <= Delay(j, factor, u)
  {
    BaseIsAtLeastMin(u, Spread(j));
    GapOfBase(j.min, Base(j, u), factor);
  }

  /** Whatever the chip and the draw, the delay is at least three quarters of the configured minimum. */
  lemma DelayIsAtLeastMinGap(j: Jitter, id: seq<CodeUnit>, u: real)
    requires 0.0 <= u < 1.0
    ensures MinGap(j) <= Delay(j, Factor(id), u) || MinGap(j) <= 0
  {
    FactorInRange(ToInt32(Polynomial(id)));
    if j.min < 0.0 {
      RoundIsMonotone(0.75 * j.min, 0.0);
    } else {
      DelayOfFactor(j, Factor(id), u);
    }
  }

  /** The least delay a chip can be armed with under these settings: what a draw of 0 gives. */
  function LeastDelay(j: Jitter, id: seq<CodeUnit>): int {
    Delay(j, Factor(id), 0.0)
  }

  lemma ScaledIsMonotone(base: real, base': real, factor: real)
    requires base <= base' && 0.0 <= factor
    ensures Round(base * factor) <= Round(base' * factor)
  {
    ProductIsMonotone(base, base', factor);
    RoundIsMonotone(base * factor, base' * factor);
  }

  lemma NothingDrawn(spread: real)
    ensures Drawn(0.0, spread) == 0.0
  {
    assert 0.0 * spread == 0.0;
  }

  lemma LeastOfFactor(j: Jitter, factor: real, u: real)
    requires 0.0 <= u && 0.0 <= factor
    ensures Delay(j, factor, 0.0) <= Delay(j, factor, u)
  {
    BaseIsAtLeastMin(u, Spread(j));
    NothingDrawn(Spread(j));
    ScaledIsMonotone(Base(j, 0.0), Base(j, u), factor);
  }

  lemma LeastDelayIsLeast(j: Jitter, id: seq<CodeUnit>, u: real)
    requires 0.0 <= u < 1.0
    ensures LeastDelay(j, id) <= Delay(j, Factor(id), u)
  {
    FactorInRange(ToInt32(Polynomial(id)));
    LeastOfFactor(j, Factor(id), u);
  }

  /** What is drawn is what the floor says: the whole part of the scaled draw. */
  lemma DrawnIsWhole(u: real, spread: real)
    requires 0.0 <= u < 1.0 && 0.0 < spread
    ensures 0.0 <= Drawn(u, spread) <= u * spread < Drawn(u, spread) + 1.0
    ensures u * spread < spread
  {
    BaseIsAtLeastMin(u, spread);
    assert (1.0 - u) * spread > 0.0;
  }

  /** The base stays below the maximum, and is the minimum where there is no room between them. */
  lemma BaseIsInRange(j: Jitter, u: real)
    requires 0.0 <= u < 1.0
    ensures j.min <= Base(j, u)
    ensures j.max - j.min > 1.0 ==> Base(j, u) < j.max
    ensures j.max - j.min <= 1.0 ==> Base(j, u) == j.min
  {
    DrawnIsWhole(u, Spread(j));
  }

  lemma FloorOfWhole(k: int, x: real)
    requires x == k as real
    ensures x.Floor == k && x == x.Floor as real
  {
  }

  lemma DrawnHasFloor(u: real, spread: real)
    ensures Drawn(u, spread) == Drawn(u, spread).Floor as real
  {
    FloorOfWhole((u * spread).Floor, Drawn(u, spread));
  }

  lemma StepBelow(steps: int, x: real)
    requires 0.0 <= x < steps as real
    ensures 0 <= x.Floor < steps
  {
  }

  /** Scaled to a whole number of steps, the draw is one of them. */
  lemma DrawnIsAStep(u: real, steps: int, spread: real)
    requires 0.0 <= u < 1.0 && 0 < steps && spread == steps as real
    ensures Drawn(u, spread) == Drawn(u, spread).Floor as real && 0 <= Drawn(u, spread).Floor < steps
  {
    DrawnIsWhole(u, spread);
    DrawnHasFloor(u, spread);
    StepBelow(steps, Drawn(u, spread));
  }

  function Whole(lo: int, hi: int): Jitter {
    Jitter(lo as real, hi as real)
  }

  /**
   With whole bounds the base is drawn from all whole numbers from the minimum up to the maximum: it is one of
   them, and each of them is drawn by some `u`.
   */
  lemma BaseIsWhole(lo: int, hi: int, u: real)
    requires lo < hi && 0.0 <= u < 1.0
    ensures var base := Base(Whole(lo, hi), u); base == base.Floor as real && lo <= base.Floor < hi
  {
    SpreadOfWhole(lo, hi);
    DrawnIsAStep(u, hi - lo, Spread(Whole(lo, hi)));
    SumIsWhole(lo, Drawn(u, Spread(Whole(lo, hi))).Floor, Base(Whole(lo, hi), u));
  }

  lemma SpreadOfWhole(lo: int, hi: int)
    requires lo < hi
    ensures Spread(Whole(lo, hi)) == (hi - lo) as real
  {
    assert (hi - lo) as real == hi as real - lo as real;
  }

  lemma SumIsWhole(a: int, b: int, x: real)
    requires x == a as real + b as real
    ensures x.Floor == a + b && x == x.Floor as real
  {
    assert x == (a + b) as real;
  }

  lemma EveryBaseIsDrawn(lo: int, hi: int, b: int)
    requires lo <= b < hi
    ensures var u := (b - lo) as real / (hi - lo) as real;
      0.0 <= u < 1.0 && Base(Whole(lo, hi), u) == b as real
  {
    var j, n, d := Whole(lo, hi), (b - lo) as real, (hi - lo) as real;
    SpreadOfWhole(lo, hi);
    QuotientTimes(n, d);
    DrawnIsGiven(n / d, d, b - lo);
    SumIsWhole(lo, b - lo, lo as real + n);
  }

  lemma DrawnIsGiven(u: real, spread: real, k: int)
    requires u * spread == k as real
    ensures Drawn(u, spread) == k as real
  {
    FloorOfWhole(k, u * spread);
  }

  lemma QuotientTimes(n: real, d: real)
    requires 0.0 <= n < d
    ensures n / d * d == n && 0.0 <= n / d < 1.0
  {
    assert n / d * d == n;
    if n / d >= 1.0 {
      ProductIsMonotone(1.0, n / d, d);
    }
  }

  /** A greater draw never gives a smaller base. */
  lemma BaseRises(j: Jitter, u: real, u': real)
    requires 0.0 <= u <= u'
    ensures Base(j, u) <= Base(j, u')
  {
    DrawnRises(u, u', Spread(j));
  }

  lemma DrawnRises(u: real, u': real, spread: real)
    requires u <= u' && 0.0 <= spread
    ensures Drawn(u, spread) <= Drawn(u', spread)
  {
    ProductIsMonotone(u, u', spread);
    FloorRises(u * spread, u' * spread);
  }

  lemma FloorRises(x: real, y: real)
    requires x <= y
    ensures x.Floor <= y.Floor
  {
    assert x.Floor as real <= x && y < y.Floor as real + 1.0;
  }

  /** The delay keeps below the maximum scaled by the chip's factor. */
  lemma DelayIsAtMost(j: Jitter, id: seq<CodeUnit>, u: real)
    requires 0.0 <= u < 1.0
    ensures j.max - j.min > 1.0 ==> Delay(j, Factor(id), u) <= Round(j.max * Factor(id))
    ensures j.max - j.min <= 1.0 ==> Delay(j, Factor(id), u) == Round(j.min * Factor(id))
  {
    FactorInRange(ToInt32(Polynomial(id)));
    BaseIsInRange(j, u);
    DelayOfBase(j, Factor(id), u);
  }

  lemma DelayOfBase(j: Jitter, factor: real, u: real)
    requires 0.0 <= factor && (if j.max - j.min > 1.0 then Base(j, u) < j.max else Base(j, u) == j.min)
    ensures j.max - j.min > 1.0 ==> Delay(j, factor, u) <= Round(j.max * factor)
    ensures j.max - j.min <= 1.0 ==> Delay(j, factor, u) == Round(j.min * factor)
  {
    if j.max - j.min > 1.0 {
      ScaledIsMonotone(Base(j, u), j.max, factor);
    }
  }

  /** Every whole base between the bounds gives its delay: no part of the configured range is left out. */
  lemma EveryDelayIsDrawn(lo: int, hi: int, id: seq<CodeUnit>, b: int)
    requires lo <= b < hi
    ensures exists u: real :: 0.0 <= u < 1.0 && Delay(Whole(lo, hi), Factor(id), u) == Round(b as real * Factor(id))
  {
    EveryBaseIsDrawn(lo, hi, b);
    var u := (b - lo) as real / (hi - lo) as real;
    assert Delay(Whole(lo, hi), Factor(id), u) == Round(b as real * Factor(id));
  }

  /** In numbers: half of the default jitter from 45 to 180 seconds, for the chip with the smallest factor. */
  lemma HalfOfTheDefault()
    ensures Delay(Jitter(45000.0, 180000.0), 0.75, 0.5) == 84375
  {
    assert Drawn(0.5, 135000.0) == 67500.0;
    assert Base(Jitter(45000.0, 180000.0), 0.5) == 112500.0;
  }

  /** The delay drawn for a chip, as `armNextSend` computes it. */
  method DrawDelay(j: Jitter, id: seq<CodeUnit>, u: real) returns (delay: int)
    requires 0.0 <= u < 1.0
    ensures delay == Delay(j, Factor(id), u)
    ensures MinGap(j) <= delay || MinGap(j) <= 0
    ensures LeastDelay(j, id) <= delay
    ensures j.max - j.min > 1.0 ==> delay <= Round(j.max * Factor(id))
    ensures j.max - j.min <= 1.0 ==> delay == Round(j.min * Factor(id))
  {
    DelayIsAtLeastMinGap(j, id, u);
    LeastDelayIsLeast(j, id, u);
    DelayIsAtMost(j, id, u);
    var base := DrawBase(j, u);
    var factor := PerChipFactor(id);
    delay := Round(base * factor);
  }

  method DrawBase(j: Jitter, u: real) returns (base: real)
    requires 0.0 <= u < 1.0
    ensures base == Base(j, u) && j.min <= base
    ensures j.max - j.min > 1.0 ==> base < j.max
    ensures j.max - j.min <= 1.0 ==> base == j.min
  {
    var spread := if j.max - j.min > 1.0 then j.max - j.min else 1.0;
    BaseIsInRange(j, u);
    base := j.min + Drawn(u, spread);
  }
}
