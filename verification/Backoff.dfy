/** The worker's wait before a retry, in Go's 64-bit arithmetic. */
module Backoff {

  const SECOND: int := 1_000_000_000
  const TWO_TO_THE_63: int := 0x8000_0000_0000_0000
  const TWO_TO_THE_64: int := 0x1_0000_0000_0000_0000

  function Pow2(n: nat): nat {
    if n == 0 then 1 else 2 * Pow2(n - 1)
  }

  /** The signed 64-bit number an integer is stored as. */
  function Wrap64(x: int): int {
    (x + TWO_TO_THE_63) % TWO_TO_THE_64 - TWO_TO_THE_63
  }

  /** Line 187. */
  function Product(attempts: nat): int
    requires attempts >= 1
  {
    Wrap64(Wrap64(Pow2(attempts - 1)) * SECOND)
  }

  /** Lines 187-190, for a shift count that is not negative. */
  function Delay(attempts: nat): int
    requires attempts >= 1
  {
    var backoff := Product(attempts);
    if backoff > 30 * SECOND then 30 * SECOND else backoff
  }

  /** Doubling from one second, capped at thirty. */
  function Intended(attempts: nat): int
    requires attempts >= 1
  {
    (if Pow2(attempts - 1) < 30 then Pow2(attempts - 1) else 30) * SECOND
  }

  lemma {:induction false} PowAdd(m: nat, n: nat)
    ensures Pow2(m + n) == Pow2(m) * Pow2(n)
  {
    if m > 0 {
      PowAdd(m - 1, n);
      assert Pow2(m + n) == 2 * Pow2(m - 1 + n);
      Regroup(Pow2(m - 1), Pow2(n));
    }
  }

  lemma Regroup(x: int, y: int)
    ensures 2 * (x * y) == 2 * x * y
  {
  }

  lemma {:induction false} PowGrows(m: nat, n: nat)
    requires m <= n
    ensures Pow2(m) <= Pow2(n)
  {
    if m < n {
      PowGrows(m, n - 1);
    }
  }

  lemma WrapSmall(x: int)
    requires -TWO_TO_THE_63 <= x < TWO_TO_THE_63
    ensures Wrap64(x) == x
  {
  }

  lemma WrapMultiple(x: int, m: int)
    ensures Wrap64(x + m * TWO_TO_THE_64) == Wrap64(x)
  {
    ModShift(x + TWO_TO_THE_63, m);
    assert x + m * TWO_TO_THE_64 + TWO_TO_THE_63 == x + TWO_TO_THE_63 + m * TWO_TO_THE_64;
  }

  lemma {:induction false} ModShift(x: int, m: int)
    ensures (x + m * TWO_TO_THE_64) % TWO_TO_THE_64 == x % TWO_TO_THE_64
    decreases if m < 0 then -m else m
  {
    if m > 0 {
      ModShift(x, m - 1);
    } else if m < 0 {
      ModShift(x, m + 1);
    }
  }

  /** Up to attempt 34 the product fits: the delay is the intended one. */
  lemma EarlyDelay(attempts: nat)
    requires 1 <= attempts <= 34
    ensures Delay(attempts) == Intended(attempts)
  {
    hide Wrap64, Pow2;
    PowGrows(attempts - 1, 33);
    assert Pow2(33) == 0x2_0000_0000 by {
      PowThirtyThree();
    }
    WrapSmall(Pow2(attempts - 1));
    WrapSmall(Pow2(attempts - 1) * SECOND);
  }

  lemma PowThirtyThree()
    ensures Pow2(33) == 0x2_0000_0000
  {
    assert Pow2(8) == 0x100;
    PowAdd(8, 8);
    PowAdd(16, 16);
    assert Pow2(33) == 2 * Pow2(32);
  }

  lemma PowFiftyFive()
    ensures Pow2(55) == 0x80_0000_0000_0000
  {
    PowThirtyThree();
    PowAdd(33, 22);
    assert Pow2(22) == 0x40_0000;
  }

  /** It never decreases from one attempt to the next, while it fits. */
  lemma EarlyMonotone(a: nat, b: nat)
    requires 1 <= a <= b <= 34
    ensures Delay(a) <= Delay(b)
  {
    EarlyDelay(a);
    EarlyDelay(b);
    PowGrows(a - 1, b - 1);
  }

  /** From attempt 56 on there is no wait at all. */
  lemma LateDelay(attempts: nat)
    requires 56 <= attempts
    ensures Delay(attempts) == 0
  {
    hide Wrap64, Pow2;
    var shift := attempts - 1;
    PowFiftyFive();
    PowAdd(55, shift - 55);
    var rest := Pow2(shift - 55);
    var m := Quotient(Pow2(shift));
    assert Wrap64(Pow2(shift)) * SECOND == (rest * 1953125 - m * SECOND) * TWO_TO_THE_64;
    WrapMultiple(0, rest * 1953125 - m * SECOND);
    WrapSmall(0);
  }

  /** What wrapping subtracts. */
  lemma Quotient(x: int) returns (m: int)
    ensures Wrap64(x) == x - m * TWO_TO_THE_64
  {
    m := (x + TWO_TO_THE_63) / TWO_TO_THE_64;
  }

  /** The products of attempts 34 to 56. */
  const PRODUCTS: seq<int> := [
    8_589_934_592_000_000_000, -1_266_874_889_709_551_616, -2_533_749_779_419_103_232, -5_067_499_558_838_206_464,
    8_311_744_956_033_138_688, -1_823_254_161_643_274_240, -3_646_508_323_286_548_480, -7_293_016_646_573_096_960,
    3_860_710_780_563_357_696, 7_721_421_561_126_715_392, -3_003_900_951_456_120_832, -6_007_801_902_912_241_664,
    6_431_140_267_885_068_288, -5_584_463_537_939_415_040, 7_277_816_997_830_721_536, -3_891_110_078_048_108_544,
    -7_782_220_156_096_217_088, 2_882_303_761_517_117_440, 5_764_607_523_034_234_880, -6_917_529_027_641_081_856,
    4_611_686_018_427_387_904, -9_223_372_036_854_775_808, 0]

  lemma WrapDouble(x: int)
    ensures Wrap64(2 * Wrap64(x)) == Wrap64(2 * x)
  {
    hide Wrap64;
    var m := Quotient(x);
    WrapMultiple(2 * x, -2 * m);
    assert 2 * x + -2 * m * TWO_TO_THE_64 == 2 * (x - m * TWO_TO_THE_64);
  }

  lemma ProductDoubles(attempts: nat)
    requires 1 <= attempts <= 62
    ensures Product(attempts + 1) == Wrap64(2 * Product(attempts))
  {
    hide Wrap64, Pow2;
    PowSixtyTwo(attempts);
    WrapSmall(Pow2(attempts - 1));
    WrapSmall(Pow2(attempts));
    WrapDouble(Pow2(attempts - 1) * SECOND);
  }

  lemma PowSixtyTwo(n: nat)
    requires 1 <= n <= 62
    ensures 0 < Pow2(n) == 2 * Pow2(n - 1) < TWO_TO_THE_63
  {
    PowThirtyThree();
    PowAdd(33, 29);
    PowAdd(29, 4);
    PowGrows(n, 62);
    PowGrows(0, n);
  }

  lemma ProductsDouble(i: nat)
    requires i < 22
    ensures Wrap64(2 * PRODUCTS[i]) == PRODUCTS[i + 1]
  {
  }

  lemma {:induction false} ProductAt(i: nat)
    requires i <= 22
    ensures Product(34 + i) == PRODUCTS[i]
  {
    if i == 0 {
      PowThirtyThree();
    } else {
      ProductAt(i - 1);
      ProductDoubles(33 + i);
      ProductsDouble(i - 1);
    }
  }

  /** Exactly the attempts whose wait is the intended one. At all others there is no wait. */
  lemma DelayAsIntended(attempts: nat)
    requires attempts >= 1
    ensures Delay(attempts) == Intended(attempts) <==> attempts <= 34 || attempts in {38, 42, 43, 46, 48, 51, 52, 54}
    ensures Delay(attempts) == Intended(attempts) || Delay(attempts) <= 0
  {
    hide Wrap64, Pow2;
    if attempts <= 34 {
      EarlyDelay(attempts);
    } else {
      IntendedLate(attempts);
      if attempts <= 56 {
        ProductAt(attempts - 34);
        ProductSigns(attempts - 34);
      } else {
        LateDelay(attempts);
      }
    }
  }

  lemma ProductSigns(i: nat)
    requires 1 <= i <= 22
    ensures i + 34 in {38, 42, 43, 46, 48, 51, 52, 54} <==> PRODUCTS[i] > 30 * SECOND
    ensures PRODUCTS[i] > 30 * SECOND || PRODUCTS[i] <= 0
  {
  }

  lemma IntendedLate(attempts: nat)
    requires attempts > 34
    ensures Intended(attempts) == 30 * SECOND
  {
    PowThirtyThree();
    PowGrows(33, attempts - 1);
  }
}
