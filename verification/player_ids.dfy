/**
 * Player id allocation. The counter is a process-wide static that starts at
 * the process id shifted into the upper half-word; each registration keeps
 * the upper 16 bits and increments the lower 16 bits modulo 2^16.
 *
 * All reasoning stays in 32-bit arithmetic: a count of registrations `k` is
 * carried into a bit-vector by `Bits(k)`, which reads off k's binary digits.
 */
module PlayerIds {

  const HighMask: bv32 := 0xFFFF_0000
  const LowMask: bv32 := 0x0000_FFFF
  const Window: nat := 0x1_0000

  /** The value of the static counter before the first registration. */
  function InitialCounter(processId: bv32): (r: bv32)
    ensures r & LowMask == 0
  {
    processId << 16
  }

  /** The id one registration allocates after `prev`, as the source computes it. */
  function NextId(prev: bv32): (r: bv32)
    ensures r & HighMask == prev & HighMask
    ensures r & LowMask == (prev + 1) & LowMask
  {
    (prev & HighMask) | ((prev + 1) & LowMask)
  }

  /**
   * The counter after `k` registrations starting from `counter`: whatever the
   * starting value, its upper half-word is never touched.
   */
  function Allocate(counter: bv32, k: nat): (r: bv32)
    ensures r & HighMask == counter & HighMask
  {
    if k == 0 then counter else NextId(Allocate(counter, k - 1))
  }

  // ---------------------------------------------------------------------------
  // Counting in 32 bits

  /** Appends one binary digit to `a`. */
  function Digit(a: bv32, odd: bool): bv32 {
    if odd then (a << 1) | 1 else a << 1
  }

  /** `d` modulo 2^32, built from its binary digits. */
  function Bits(d: nat): bv32 {
    if d == 0 then 0 else Digit(Bits(d / 2), d % 2 == 1)
  }

  /** 2^n, and the mask of n low one-bits. */
  function Pow2(n: nat): nat {
    if n == 0 then 1 else 2 * Pow2(n - 1)
  }

  function Ones(n: nat): bv32 {
    if n == 0 then 0 else Digit(Ones(n - 1), true)
  }

  lemma SixteenBits()
    ensures Pow2(16) == Window && Ones(16) == LowMask
  {
    assert Pow2(1) == 2 && Ones(1) == 0x1;
    assert Pow2(2) == 4 && Ones(2) == 0x3;
    assert Pow2(3) == 8 && Ones(3) == 0x7;
    assert Pow2(4) == 16 && Ones(4) == 0xF;
    assert Pow2(5) == 32 && Ones(5) == 0x1F;
    assert Pow2(6) == 64 && Ones(6) == 0x3F;
    assert Pow2(7) == 128 && Ones(7) == 0x7F;
    assert Pow2(8) == 256 && Ones(8) == 0xFF;
    assert Pow2(9) == 512 && Ones(9) == 0x1FF;
    assert Pow2(10) == 1024 && Ones(10) == 0x3FF;
    assert Pow2(11) == 2048 && Ones(11) == 0x7FF;
    assert Pow2(12) == 4096 && Ones(12) == 0xFFF;
    assert Pow2(13) == 8192 && Ones(13) == 0x1FFF;
    assert Pow2(14) == 16384 && Ones(14) == 0x3FFF;
    assert Pow2(15) == 32768 && Ones(15) == 0x7FFF;
  }

  /**
   * The sixteen-bit instances, for a width passed as a variable: written with
   * the literal 16, Ones(16) would be unfolded sixteen levels deep wherever
   * it occurs.
   */
  lemma PowSixteen(n: nat)
    requires n == 16
    ensures Pow2(n) == Window
  {
    SixteenBits();
  }

  lemma OnesSixteen(n: nat, m: bv32)
    requires n == 16 && m == Ones(n)
    ensures m == LowMask
  {
    SixteenBits();
  }

  // ---------------------------------------------------------------------------
  // Proof layout. The solver handles bit-vector facts cheaply only a few at a
  // time. So every lemma below states its facts about variables bound by
  // `requires`, passes integer relations as integer parameters, and leaves
  // the bit-level work to one small lemma over bit-vectors alone.

  // Facts about single binary digits, over bit-vectors only.

  lemma DigitSuccEven(x: bv32, y: bv32, a: bv32)
    requires x == Digit(a, false) && y == Digit(a, true)
    ensures y == x + 1
  {
  }

  lemma DigitSuccOdd(x: bv32, y: bv32, a: bv32, c: bv32)
    requires x == Digit(a, true) && c == a + 1 && y == Digit(c, false)
    ensures y == x + 1
  {
  }

  lemma DigitMaskEqual(x: bv32, y: bv32, a: bv32, b: bv32, m: bv32, mm: bv32, odd: bool)
    requires x == Digit(a, odd) && y == Digit(b, odd) && mm == Digit(m, true)
    requires a & m == b & m
    ensures x & mm == y & mm
  {
  }

  lemma DigitFits(x: bv32, a: bv32, m: bv32, mm: bv32, odd: bool)
    requires x == Digit(a, odd) && mm == Digit(m, true) && a & !m == 0
    ensures x & !mm == 0
  {
  }

  lemma DigitInjective(x: bv32, y: bv32, a: bv32, b: bv32, odd1: bool, odd2: bool)
    requires x == Digit(a, odd1) && y == Digit(b, odd2) && x == y
    requires a & !LowMask == 0 && b & !LowMask == 0
    ensures a == b && odd1 == odd2
  {
  }

  lemma SubmaskTransitive(a: bv32, b: bv32, c: bv32)
    requires a & !b == 0 && b & !c == 0
    ensures a & !c == 0
  {
  }

  lemma SameLowTransitive(a: bv32, b: bv32, c: bv32)
    requires a & LowMask == b & LowMask && b & LowMask == c & LowMask
    ensures a & LowMask == c & LowMask
  {
  }

  lemma MaskIsLowHalf(x: bv32, y: bv32, m: bv32)
    requires m == LowMask && x & m == y & m
    ensures x & LowMask == y & LowMask
  {
  }

  lemma FitsLowHalf(r: bv32, m: bv32)
    requires m == LowMask && r & !m == 0
    ensures r & LowMask == r
  {
  }

  lemma LowChain(x: bv32, r: bv32)
    requires x & LowMask == r & LowMask && r & LowMask == r
    ensures x & LowMask == r
  {
  }

  // Facts about halving, over integers only.

  lemma HalfOfSucc(d: nat, e: nat)
    requires e == d + 1
    ensures d % 2 == 1 ==> e / 2 == d / 2 + 1 && e % 2 == 0
    ensures d % 2 == 0 ==> e / 2 == d / 2 && e % 2 == 1
  {
  }

  lemma HalfOfShift(k: nat, k': nat, n: nat)
    requires n > 0 && k' == k + Pow2(n)
    ensures k' / 2 == k / 2 + Pow2(n - 1) && k' % 2 == k % 2
  {
  }

  lemma HalfBelow(d: nat, n: nat)
    requires n > 0 && d < Pow2(n)
    ensures d / 2 < Pow2(n - 1)
  {
  }

  lemma PositiveBelow(d: nat, n: nat)
    requires 0 < d < Pow2(n)
    ensures n > 0
  {
  }

  lemma HalvesDetermine(p: nat, q: nat)
    requires p / 2 == q / 2 && p % 2 == q % 2
    ensures p == q
  {
  }

  lemma ResidueBack(k: nat, res: nat)
    requires k >= Window && res == (k - Window) % Window
    ensures res == k % Window
  {
  }

  lemma ResidueForward(k: nat, res: nat)
    requires k >= Window && res == k % Window
    ensures res == (k - Window) % Window
  {
  }

  lemma SmallResidue(k: nat, res: nat)
    requires k < Window && res == k % Window
    ensures res == k
  {
  }

  lemma ResiduesDistinct(i: nat, j: nat)
    requires i < j < i + Window
    ensures i % Window != j % Window
  {
  }

  // Unfolding the recursive definitions once, about variables.

  lemma BitsUnfoldAt(d: nat, h: nat, odd: bool, x: bv32, a: bv32)
    requires h == d / 2 && odd == (d % 2 == 1) && x == Bits(d) && a == Bits(h)
    ensures x == Digit(a, odd)
  {
    if d == 0 {
      assert Digit(0, false) == 0;
    }
  }

  lemma OnesUnfoldAt(n: nat, m: bv32, m': bv32)
    requires n > 0 && m == Ones(n) && m' == Ones(n - 1)
    ensures m == Digit(m', true)
  {
  }

  // Facts about Bits.

  lemma SuccOddStep(d: nat, e: nat, x: bv32, y: bv32, a: bv32, c: bv32)
    requires d % 2 == 1 && e == d + 1 && x == Bits(d) && y == Bits(e)
    requires a == Bits(d / 2) && c == Bits(d / 2 + 1) && c == a + 1
    ensures y == x + 1
  {
    HalfOfSucc(d, e);
    BitsUnfoldAt(d, d / 2, true, x, a);
    BitsUnfoldAt(e, d / 2 + 1, false, y, c);
    DigitSuccOdd(x, y, a, c);
  }

  lemma SuccEvenStep(d: nat, e: nat, x: bv32, y: bv32, a: bv32)
    requires d % 2 == 0 && e == d + 1 && x == Bits(d) && y == Bits(e) && a == Bits(d / 2)
    ensures y == x + 1
  {
    HalfOfSucc(d, e);
    BitsUnfoldAt(d, d / 2, false, x, a);
    BitsUnfoldAt(e, d / 2, true, y, a);
    DigitSuccEven(x, y, a);
  }

  /** Bits commutes with the successor. */
  lemma {:induction false} BitsSuccAt(d: nat, e: nat, x: bv32, y: bv32)
    requires e == d + 1 && x == Bits(d) && y == Bits(e)
    ensures y == x + 1
    decreases d
  {
    if d % 2 == 1 {
      BitsSuccAt(d / 2, d / 2 + 1, Bits(d / 2), Bits(d / 2 + 1));
      SuccOddStep(d, e, x, y, Bits(d / 2), Bits(d / 2 + 1));
    } else {
      SuccEvenStep(d, e, x, y, Bits(d / 2));
    }
  }

  lemma PeriodStep(k: nat, k': nat, n: nat, x: bv32, y: bv32, m: bv32, a: bv32, b: bv32, m': bv32)
    requires n > 0 && k' == k + Pow2(n) && x == Bits(k') && y == Bits(k) && m == Ones(n)
    requires a == Bits(k / 2 + Pow2(n - 1)) && b == Bits(k / 2) && m' == Ones(n - 1)
    requires a & m' == b & m'
    ensures x & m == y & m
  {
    HalfOfShift(k, k', n);
    BitsUnfoldAt(k', k / 2 + Pow2(n - 1), k % 2 == 1, x, a);
    BitsUnfoldAt(k, k / 2, k % 2 == 1, y, b);
    OnesUnfoldAt(n, m, m');
    DigitMaskEqual(x, y, a, b, m', m, k % 2 == 1);
  }

  /** The low n bits of Bits repeat with period 2^n. */
  lemma {:induction false} BitsPeriodicAt(k: nat, k': nat, n: nat, x: bv32, y: bv32, m: bv32)
    requires k' == k + Pow2(n) && x == Bits(k') && y == Bits(k) && m == Ones(n)
    ensures x & m == y & m
    decreases n
  {
    if n > 0 {
      var h := k / 2;
      var h' := h + Pow2(n - 1);
      var a, b, m' := Bits(h'), Bits(h), Ones(n - 1);
      BitsPeriodicAt(h, h', n - 1, a, b, m');
      PeriodStep(k, k', n, x, y, m, a, b, m');
    }
  }

  lemma PeriodicAtWidth(k: nat, k': nat, n: nat, x: bv32, y: bv32)
    requires n == 16 && k' == k + Window && x == Bits(k') && y == Bits(k)
    ensures x & LowMask == y & LowMask
  {
    PowSixteen(n);
    var m := Ones(n);
    BitsPeriodicAt(k, k', n, x, y, m);
    OnesSixteen(n, m);
    MaskIsLowHalf(x, y, m);
  }

  lemma LowHalfStep(k: nat, x: bv32, p: bv32, r: bv32)
    requires k >= Window && x == Bits(k) && p == Bits(k - Window)
    requires p & LowMask == r & LowMask
    ensures x & LowMask == r & LowMask
  {
    PeriodicAtWidth(k - Window, k, 16, x, p);
    SameLowTransitive(x, p, r);
  }

  /** The low half-word of Bits(k) depends only on k modulo 2^16. */
  lemma {:induction false} BitsLowHalfAt(k: nat, res: nat, x: bv32, r: bv32)
    requires res == k % Window && x == Bits(k) && r == Bits(res)
    ensures x & LowMask == r & LowMask
    decreases k
  {
    if k >= Window {
      var p := Bits(k - Window);
      ResidueForward(k, res);
      BitsLowHalfAt(k - Window, res, p, r);
      LowHalfStep(k, x, p, r);
    } else {
      SmallResidue(k, res);
      assert x == r;
    }
  }

  lemma FitStep(d: nat, n: nat, x: bv32, m: bv32, a: bv32, m': bv32)
    requires n > 0 && x == Bits(d) && m == Ones(n) && a == Bits(d / 2) && m' == Ones(n - 1)
    requires a & !m' == 0
    ensures x & !m == 0
  {
    BitsUnfoldAt(d, d / 2, d % 2 == 1, x, a);
    OnesUnfoldAt(n, m, m');
    DigitFits(x, a, m', m, d % 2 == 1);
  }

  /** A number below 2^n has no bits above the n-th. */
  lemma {:induction false} BitsFitAt(d: nat, n: nat, x: bv32, m: bv32)
    requires d < Pow2(n) && x == Bits(d) && m == Ones(n)
    ensures x & !m == 0
    decreases n
  {
    if d > 0 {
      PositiveBelow(d, n);
      HalfBelow(d, n);
      BitsFitAt(d / 2, n - 1, Bits(d / 2), Ones(n - 1));
      FitStep(d, n, x, m, Bits(d / 2), Ones(n - 1));
    }
  }

  lemma OnesGrowStep(n: nat, m: bv32, mm: bv32, m': bv32)
    requires n > 0 && m == Ones(n) && mm == Ones(n + 1) && m' == Ones(n - 1)
    requires m' & !m == 0
    ensures m & !mm == 0
  {
    OnesUnfoldAt(n, m, m');
    OnesUnfoldAt(n + 1, mm, m);
    DigitFits(m, m', m, mm, true);
  }

  lemma {:induction false} OnesGrowAt(n: nat, m: bv32, mm: bv32)
    requires m == Ones(n) && mm == Ones(n + 1)
    ensures m & !mm == 0
    decreases n
  {
    if n > 0 {
      OnesGrowAt(n - 1, Ones(n - 1), m);
      OnesGrowStep(n, m, mm, Ones(n - 1));
    }
  }

  lemma {:induction false} OnesWithinHalfAt(n: nat, m: bv32)
    requires n <= 16 && m == Ones(n)
    ensures m & !LowMask == 0
    decreases 16 - n
  {
    if n < 16 {
      OnesWithinHalfAt(n + 1, Ones(n + 1));
      OnesGrowAt(n, m, Ones(n + 1));
      SubmaskTransitive(m, Ones(n + 1), LowMask);
    } else {
      OnesSixteen(n, m);
    }
  }

  lemma HalfWithinLow(d: nat, n: nat, a: bv32)
    requires 0 < n <= 16 && d < Pow2(n) && a == Bits(d / 2)
    ensures a & !LowMask == 0
  {
    HalfBelow(d, n);
    var m := Ones(n - 1);
    BitsFitAt(d / 2, n - 1, a, m);
    OnesWithinHalfAt(n - 1, m);
    SubmaskTransitive(a, m, LowMask);
  }

  lemma InjectiveStep(p: nat, q: nat, x: bv32, y: bv32, a: bv32, b: bv32, odd1: bool, odd2: bool)
    requires x == Bits(p) && y == Bits(q) && x == y
    requires a == Bits(p / 2) && b == Bits(q / 2)
    requires a & !LowMask == 0 && b & !LowMask == 0
    requires odd1 == (p % 2 == 1) && odd2 == (q % 2 == 1)
    ensures a == b && odd1 == odd2
  {
    BitsUnfoldAt(p, p / 2, odd1, x, a);
    BitsUnfoldAt(q, q / 2, odd2, y, b);
    DigitInjective(x, y, a, b, odd1, odd2);
  }

  /** Below 2^16, distinct numbers have distinct bit patterns. */
  lemma {:induction false} BitsInjectiveAt(p: nat, q: nat, n: nat, x: bv32, y: bv32)
    requires n <= 16 && p < Pow2(n) && q < Pow2(n)
    requires x == Bits(p) && y == Bits(q) && x == y
    ensures p == q
    decreases n
  {
    if p > 0 || q > 0 {
      PositiveBelow(if p > 0 then p else q, n);
      HalfBelow(p, n);
      HalfBelow(q, n);
      var a, b := Bits(p / 2), Bits(q / 2);
      HalfWithinLow(p, n, a);
      HalfWithinLow(q, n, b);
      InjectiveStep(p, q, x, y, a, b, p % 2 == 1, q % 2 == 1);
      BitsInjectiveAt(p / 2, q / 2, n - 1, a, b);
      HalvesDetermine(p, q);
    }
  }

  lemma ResidueFits(res: nat, n: nat, r: bv32)
    requires n == 16 && res < Window && r == Bits(res)
    ensures r & LowMask == r
  {
    PowSixteen(n);
    var m := Ones(n);
    BitsFitAt(res, n, r, m);
    OnesSixteen(n, m);
    FitsLowHalf(r, m);
  }

  /** The low half-word of Bits(k) is the pattern of k modulo 2^16. */
  lemma LowIsResidueAt(k: nat, res: nat, x: bv32, r: bv32)
    requires res == k % Window && x == Bits(k) && r == Bits(res)
    ensures x & LowMask == r
  {
    BitsLowHalfAt(k, res, x, r);
    ResidueFits(res, 16, r);
    LowChain(x, r);
  }

  lemma InjectiveAtWidth(p: nat, q: nat, n: nat)
    requires n == 16 && p < Window && q < Window && Bits(p) == Bits(q)
    ensures p == q
  {
    PowSixteen(n);
    BitsInjectiveAt(p, q, n, Bits(p), Bits(q));
  }

  lemma HalfDistinct(p: nat, q: nat)
    requires p < Window && q < Window && p != q
    ensures Bits(p) != Bits(q)
  {
    if Bits(p) == Bits(q) {
      InjectiveAtWidth(p, q, 16);
      assert false;
    }
  }

  // ---------------------------------------------------------------------------
  // Properties of allocation
  //
  // They hold for every counter whose low half-word is zero, which is how
  // InitialCounter leaves it for every process id.

  lemma NextOfClosedForm(counter: bv32, prev: bv32, pb: bv32, x: bv32, b: bv32)
    requires counter & LowMask == 0 && prev == counter | (pb & LowMask)
    requires x == NextId(prev) && b == pb + 1
    ensures x == counter | (b & LowMask)
  {
  }

  lemma AllocateUnfoldAt(counter: bv32, k: nat, x: bv32, prev: bv32)
    requires k > 0 && x == Allocate(counter, k) && prev == Allocate(counter, k - 1)
    ensures x == NextId(prev)
  {
  }

  lemma ClosedFormStep(counter: bv32, k: nat, x: bv32, b: bv32, prev: bv32, pb: bv32)
    requires counter & LowMask == 0 && k > 0
    requires x == Allocate(counter, k) && b == Bits(k)
    requires prev == Allocate(counter, k - 1) && pb == Bits(k - 1)
    requires prev == counter | (pb & LowMask)
    ensures x == counter | (b & LowMask)
  {
    BitsSuccAt(k - 1, k, pb, b);
    AllocateUnfoldAt(counter, k, x, prev);
    NextOfClosedForm(counter, prev, pb, x, b);
  }

  lemma ClosedFormBase(counter: bv32, x: bv32, b: bv32)
    requires x == counter && b == 0
    ensures x == counter | (b & LowMask)
  {
  }

  /** After k registrations the counter is its upper half over k modulo 2^16. */
  lemma {:induction false} AllocateClosedFormAt(counter: bv32, k: nat, x: bv32, b: bv32)
    requires counter & LowMask == 0 && x == Allocate(counter, k) && b == Bits(k)
    ensures x == counter | (b & LowMask)
    decreases k
  {
    if k > 0 {
      AllocateClosedFormAt(counter, k - 1, Allocate(counter, k - 1), Bits(k - 1));
      ClosedFormStep(counter, k, x, b, Allocate(counter, k - 1), Bits(k - 1));
    } else {
      ClosedFormBase(counter, x, b);
    }
  }

  lemma ClosedFormHigh(counter: bv32, x: bv32, b: bv32)
    requires counter & LowMask == 0 && x == counter | (b & LowMask)
    ensures x & HighMask == counter
  {
  }

  lemma ClosedFormLow(counter: bv32, x: bv32, b: bv32, r: bv32)
    requires counter & LowMask == 0 && x == counter | (b & LowMask) && b & LowMask == r
    ensures x & LowMask == r
  {
  }

  lemma HalvesDetermineId(x: bv32, y: bv32, high: bv32, low: bv32)
    requires x & HighMask == high && y & HighMask == high
    requires x & LowMask == low && y & LowMask == low
    ensures x == y
  {
  }

  /** Allocation never changes the upper half-word of the counter. */
  lemma AllocatedHighHalf(counter: bv32, k: nat, id: bv32)
    requires counter & LowMask == 0 && id == Allocate(counter, k)
    ensures id & HighMask == counter
  {
    AllocateClosedFormAt(counter, k, id, Bits(k));
    ClosedFormHigh(counter, id, Bits(k));
  }

  /** The low half of the k-th allocated id is k modulo 2^16, in binary. */
  lemma AllocatedLowHalf(counter: bv32, k: nat, res: nat, id: bv32)
    requires counter & LowMask == 0 && id == Allocate(counter, k) && res == k % Window
    ensures id & LowMask == Bits(res)
  {
    var b, r := Bits(k), Bits(res);
    AllocateClosedFormAt(counter, k, id, b);
    LowIsResidueAt(k, res, b, r);
    ClosedFormLow(counter, id, b, r);
  }

  /** Every id a process allocates carries the process id in its upper half. */
  lemma AllocatedIdsCarryProcess(processId: bv32, k: nat, id: bv32)
    requires id == Allocate(InitialCounter(processId), k)
    ensures id & HighMask == processId << 16
  {
    AllocatedHighHalf(InitialCounter(processId), k, id);
  }

  /** Any 2^16 consecutive registrations hand out pairwise distinct ids. */
  lemma WindowIdsDistinct(counter: bv32, i: nat, j: nat, first: bv32, second: bv32)
    requires counter & LowMask == 0 && i < j < i + Window
    requires first == Allocate(counter, i) && second == Allocate(counter, j)
    ensures first != second
  {
    ResiduesDistinct(i, j);
    HalfDistinct(i % Window, j % Window);
    AllocatedLowHalf(counter, i, i % Window, first);
    AllocatedLowHalf(counter, j, j % Window, second);
  }

  /** The registration 2^16 after any other returns the same id again. */
  lemma IdsRepeatAfterWindow(counter: bv32, i: nat, earlier: bv32, later: bv32)
    requires counter & LowMask == 0
    requires earlier == Allocate(counter, i) && later == Allocate(counter, i + Window)
    ensures later == earlier
  {
    var res := i % Window;
    var low := Bits(res);
    ResidueBack(i + Window, res);
    AllocatedLowHalf(counter, i, res, earlier);
    AllocatedLowHalf(counter, i + Window, res, later);
    AllocatedHighHalf(counter, i, earlier);
    AllocatedHighHalf(counter, i + Window, later);
    HalvesDetermineId(later, earlier, counter, low);
  }
}
