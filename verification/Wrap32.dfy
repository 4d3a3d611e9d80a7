/** The 32-bit integers of the control words: wrap-around, masks and powers of two. */
module Wrap32 {

  const TWO31 := 0x8000_0000
  const TWO32 := 0x1_0000_0000

  /** JavaScript's `x | 0`. */
  function ToInt32(x: int): (r: int)
    ensures -TWO31 <= r < TWO31 && (x - r) % TWO32 == 0
  {
    (x + TWO31) % TWO32 - TWO31
  }

  function Pow2(n: nat): (p: nat)
    ensures p > 0
  {
    if n == 0 then 1 else 2 * Pow2(n - 1)
  }

  /** Bitwise and with a non-negative mask, on the two's complement of x. */
  function And(x: int, mask: nat): nat
    decreases mask
  {
    if mask == 0 then 0 else (if x % 2 == 1 && mask % 2 == 1 then 1 else 0) + 2 * And(x / 2, mask / 2)
  }

  /** Counters that differ by less than 2^31 keep their distance through the wrap. */
  lemma DistanceSurvivesWrap(a: int, b: int)
    requires -TWO31 <= a - b < TWO31
    ensures ToInt32(ToInt32(a) - ToInt32(b)) == a - b
  {
  }

  /** Moving a wrapped counter on is wrapping the counter moved on. */
  lemma AdvanceSurvivesWrap(a: int, n: int)
    ensures ToInt32(ToInt32(a) + n) == ToInt32(a + n)
  {
  }

  lemma HalfMod(x: int, k: int)
    requires k > 0
    ensures x % (2 * k) == x % 2 + 2 * ((x / 2) % k)
  {
    var q := (x / 2) / k;
    assert x / 2 == q * k + (x / 2) % k;
    assert x == 2 * (x / 2) + x % 2;
    assert x == q * (2 * k) + (x % 2 + 2 * ((x / 2) % k));
    ModUnique(x, 2 * k, q, x % 2 + 2 * ((x / 2) % k));
  }

  lemma ModUnique(x: int, m: int, q: int, r: int)
    requires m > 0 && x == q * m + r && 0 <= r < m
    ensures x % m == r
  {
    var d := x / m - q;
    assert x == (x / m) * m + x % m;
    assert d * m == r - x % m;
    Multiple(d, m);
  }

  /** A multiple of m other than 0 is at least m away from it. */
  lemma Multiple(d: int, m: int)
    requires m > 0
    ensures d >= 1 ==> d * m >= m
    ensures d <= -1 ==> d * m <= -m
  {
  }

  lemma MaskStep(x: int, k: int)
    requires k > 0 && And(x / 2, k - 1) == (x / 2) % k
    ensures And(x, 2 * k - 1) == x % (2 * k)
  {
    AndOnes(x, k);
    HalfMod(x, k);
  }

  lemma AndOnes(x: int, k: int)
    requires k > 0
    ensures And(x, 2 * k - 1) == x % 2 + 2 * And(x / 2, k - 1)
  {
    assert (2 * k - 1) / 2 == k - 1 && (2 * k - 1) % 2 == 1;
  }

  /** `pos & (2^n - 1)` is the ring index: pos modulo the ring size, also for negative words. */
  lemma {:induction false} MaskIsMod(x: int, n: nat)
    ensures And(x, Pow2(n) - 1) == x % Pow2(n)
    decreases n
  {
    if n == 0 {
      assert x % 1 == 0;
    } else {
      var k := Pow2(n - 1);
      MaskIsMod(x / 2, n - 1);
      MaskStep(x, k);
    }
  }

  lemma Doubles(x: int, y: int)
    ensures 2 * (x * y) == (2 * x) * y
  {
  }

  lemma {:induction false} Pow2Adds(a: nat, b: nat)
    ensures Pow2(a + b) == Pow2(a) * Pow2(b)
    decreases a
  {
    if a > 0 {
      Pow2Adds(a - 1, b);
      Doubles(Pow2(a - 1), Pow2(b));
    }
  }

  lemma {:induction false} Pow2Grows(a: nat, b: nat)
    requires a <= b
    ensures Pow2(a) <= Pow2(b)
    decreases b
  {
    if a < b {
      Pow2Grows(a, b - 1);
    }
  }

  lemma Pow2Is32()
    ensures Pow2(8) == 256 && Pow2(16) == 65536 && Pow2(30) == 0x4000_0000 && Pow2(31) == TWO31 && Pow2(32) == TWO32
  {
    assert Pow2(8) == 256;
    Pow2Adds(8, 8);
    Pow2Adds(14, 16);
    Pow2Adds(6, 8);
    assert Pow2(6) == 64;
    Pow2Adds(1, 30);
    Pow2Adds(1, 31);
    assert Pow2(1) == 2;
  }

  /** Adding multiples of a multiple of m changes nothing modulo m. */
  lemma ShiftMod(x: int, m: int, k: int, t: int)
    requires m > 0
    ensures (x + t * (k * m)) % m == x % m
  {
    var q := x / m;
    assert t * (k * m) == (t * k) * m;
    assert (q + t * k) * m == q * m + (t * k) * m;
    ModUnique(x + t * (k * m), m, q + t * k, x % m);
  }

  /** Wrapping a counter does not change its ring index. */
  lemma IndexSurvivesWrap(p: int, n: nat)
    requires n <= 32
    ensures ToInt32(p) % Pow2(n) == p % Pow2(n)
    ensures And(ToInt32(p), Pow2(n) - 1) == p % Pow2(n)
  {
    WrapIsShift(p, n);
    MaskIsMod(ToInt32(p), n);
  }

  lemma WrapIsShift(p: int, n: nat)
    requires n <= 32
    ensures ToInt32(p) % Pow2(n) == p % Pow2(n)
  {
    var t := WrapCount(p);
    TopPower(n);
    ShiftMod(p, Pow2(n), Pow2(32 - n), t);
  }

  lemma TopPower(n: nat)
    requires n <= 32
    ensures Pow2(32 - n) * Pow2(n) == TWO32
  {
    Pow2Is32();
    Pow2Adds(32 - n, n);
  }

  lemma WrapCount(p: int) returns (t: int)
    ensures ToInt32(p) == p + t * TWO32
  {
    t := (ToInt32(p) - p) / TWO32;
  }

  // --- isPowerOfTwo --------------------------------------------------------------

  /** Bitwise and of the low k bits. */
  function AndBits(a: int, b: int, k: nat): nat
    decreases k
  {
    if k == 0 then 0 else (if a % 2 == 1 && b % 2 == 1 then 1 else 0) + 2 * AndBits(a / 2, b / 2, k - 1)
  }

  /** The bits of a word; a length rather than a literal, so that proofs do not unfold 32 levels. */
  const WORD := "31.............16..............0"

  /** ring-layout.ts: an integer above zero with no bit in common with its predecessor, on 32 bits. */
  predicate IsPowerOfTwo(n: int)
  {
    n > 0 && AndBits(n, n - 1, |WORD|) == 0
  }

  ghost predicate Power(n: int, below: nat)
  {
    exists j :: 0 <= j < below && n == Pow2(j)
  }

  lemma {:induction false} AndSelf(a: int, k: nat)
    ensures AndBits(a, a, k) == a % Pow2(k)
    decreases k
  {
    if k > 0 {
      AndSelf(a / 2, k - 1);
      HalfMod(a, Pow2(k - 1));
    }
  }

  lemma OddBit(n: int, k: nat)
    requires n % 2 == 1 && k > 0
    ensures AndBits(n, n - 1, k) == 0 <==> n % Pow2(k) == 1
  {
    HalfMod(n, Pow2(k - 1));
    assert (n - 1) / 2 == n / 2 && (n - 1) % 2 == 0;
    AndSelf(n / 2, k - 1);
  }

  lemma EvenBit(n: int, k: nat)
    requires n % 2 == 0 && k > 0
    ensures AndBits(n, n - 1, k) == 2 * AndBits(n / 2, n / 2 - 1, k - 1)
    ensures n % Pow2(k) == 2 * ((n / 2) % Pow2(k - 1))
  {
    HalfMod(n, Pow2(k - 1));
    assert (n - 1) / 2 == n / 2 - 1 && (n - 1) % 2 == 1;
  }

  lemma PowersDouble(r: int, k: nat)
    requires k > 0
    ensures Power(2 * r, k) <==> Power(r, k - 1)
  {
    if Power(2 * r, k) {
      var j :| 0 <= j < k && 2 * r == Pow2(j);
      assert j != 0;
      assert r == Pow2(j - 1);
    }
    if Power(r, k - 1) {
      var j :| 0 <= j < k - 1 && r == Pow2(j);
      assert 2 * r == Pow2(j + 1);
    }
  }

  lemma OddPowerIsOne(r: int, k: nat)
    requires r % 2 == 1 && k > 0
    ensures Power(r, k) <==> r == 1
  {
    assert Pow2(0) == 1;
    if Power(r, k) {
      var j :| 0 <= j < k && r == Pow2(j);
      assert j == 0;
    }
  }

  lemma {:induction false} NoCommonBit(n: int, k: nat)
    ensures AndBits(n, n - 1, k) == 0 <==> n % Pow2(k) == 0 || Power(n % Pow2(k), k)
    decreases k
  {
    if k == 0 {
      assert n % 1 == 0;
    } else if n % 2 == 1 {
      OddBit(n, k);
      HalfMod(n, Pow2(k - 1));
      OddPowerIsOne(n % Pow2(k), k);
    } else {
      EvenBit(n, k);
      NoCommonBit(n / 2, k - 1);
      PowersDouble((n / 2) % Pow2(k - 1), k);
    }
  }

  /** The test sees only the low 32 bits: it accepts when those are zero or a power of two. */
  lemma PowerOfTwoTest(n: int)
    requires n > 0
    ensures IsPowerOfTwo(n) <==> n % TWO32 == 0 || Power(n % TWO32, 32)
  {
    Pow2Is32();
    NoCommonBit(n, 32);
  }

  lemma SmallMod(n: int)
    requires 0 < n < TWO32
    ensures n % TWO32 == n
  {
  }

  /** So it is exact below 2^32. */
  lemma PowerOfTwoTestIsExactBelow(n: int)
    requires 0 < n < TWO32
    ensures IsPowerOfTwo(n) <==> Power(n, 32)
  {
    SmallMod(n);
    PowerOfTwoTest(n);
  }

  lemma OddPower(j: nat)
    ensures Pow2(j) == 1 || exists h :: Pow2(j) == 2 * Pow2(h)
  {
    if j > 0 {
      assert Pow2(j) == 2 * Pow2(j - 1);
    }
  }

  /** And wrong above: it takes 2^32 + 1, which is no power of two. */
  lemma PowerOfTwoTestFailsAbove(j: nat)
    ensures IsPowerOfTwo(TWO32 + 1)
    ensures Pow2(j) != TWO32 + 1
  {
    OddPower(j);
    PowerOfTwoTest(TWO32 + 1);
    assert Pow2(0) == 1;
    assert (TWO32 + 1) % TWO32 == 1;
    assert Power(1, 32);
  }

  // --- setEof --------------------------------------------------------------------------

  /** The end-of-stream word equals the stream length exactly for lengths below 2^31; a longer
      stream is announced as endless or as shorter than it is. */
  lemma EofWord(length: nat)
    ensures ToInt32(length) == length <==> length < TWO31
    ensures length >= TWO31 ==> ToInt32(length) < 0 || ToInt32(length) < length
  {
  }
}
