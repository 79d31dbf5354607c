/** `fls` of bitmap.h: the position of the last set bit, found by halving. */
module BitLength {
  import opened Words

  /** The number of binary digits of x. */
  function Length(x: nat): nat {
    if x == 0 then 0 else 1 + Length(x / 2)
  }

  /** When x has nothing under `mask`, shift it up by k of its 32 bits. */
  function FlsStep(x: nat, r: nat, mask: nat, k: nat): (res: (nat, nat))
    requires k <= r
  {
    if And(x, mask) == 0 then (Low(Up(x, k), 32), r - k) else (x, r)
  }

  function Fls(x: nat): int
    requires x < 0x1_0000_0000
  {
    if x == 0 then 0
    else
      var (x1, r1) := FlsStep(x, 32, 0xffff_0000, 16);
      var (x2, r2) := FlsStep(x1, r1, 0xff00_0000, 8);
      var (x3, r3) := FlsStep(x2, r2, 0xf000_0000, 4);
      var (x4, r4) := FlsStep(x3, r3, 0xc000_0000, 2);
      FlsStep(x4, r4, 0x8000_0000, 1).1
  }

  lemma {:induction false} LengthIs(x: nat, r: nat)
    requires r > 0 && Pow2(r - 1) <= x < Pow2(r)
    ensures Length(x) == r
    decreases r
  {
    if r > 1 {
      LengthIs(x / 2, r - 1);
    } else {
      assert x == 1;
    }
  }

  lemma {:induction false} LengthBounds(x: nat)
    ensures x < Pow2(Length(x))
    ensures x > 0 ==> Pow2(Length(x) - 1) <= x
  {
    if x > 0 {
      LengthBounds(x / 2);
    }
  }

  /** x has at most n digits just when it is below 2^n. */
  lemma LengthAtMost(x: nat, n: nat)
    ensures Length(x) <= n <==> x < Pow2(n)
  {
    LengthBounds(x);
    if Length(x) <= n {
      Pow2Monotone(Length(x), n);
    } else {
      Pow2Monotone(n, Length(x) - 1);
    }
  }

  /** Appending n digits to a non-zero number. */
  lemma {:induction false} LengthUp(x: nat, low: nat, n: nat)
    requires x > 0 && low < Pow2(n)
    ensures Length(Up(x, n) + low) == Length(x) + n
    decreases n
  {
    if n > 0 {
      LengthUp(x, low / 2, n - 1);
      assert (Up(x, n) + low) / 2 == Up(x, n - 1) + low / 2;
      UpPositive(x, n);
    }
  }

  lemma {:induction false} UpPositive(x: nat, n: nat)
    requires x > 0
    ensures Up(x, n) > 0
  {
    if n > 0 {
      UpPositive(x, n - 1);
    }
  }

  /** One halving step: x stays x0 * 2^(32 - r), and its top k bits become non-zero
      when its top 2k bits were. */
  lemma Halve(x0: nat, x: nat, r: nat, k: nat, top: nat)
    requires k <= r <= 32 && top + k <= 32
    requires x < Pow2(32) && x == Up(x0, 32 - r) && Pow2(top) <= x
    requires Pow2(32 - k) <= Pow2(top + k)
    ensures Pow2(32) - Pow2(32 - k) >= 0
    ensures var (x', r') := FlsStep(x, r, Pow2(32) - Pow2(32 - k), k);
      x' < Pow2(32) && x' == Up(x0, 32 - r') && Pow2(32 - k) <= x' && r - k <= r' <= r
  {
    hide And, Low, Up, Down, Pow2;
    AndHighMask(x, 32, 32 - k);
    if x < Pow2(32 - k) {
      LowSmall(x, 32 - k);
      UpUp(x0, 32 - r, k);
      UpBelow(x, 32 - k, k);
      LowSmall(Up(x, k), 32);
      UpAtLeast(x, top, k);
    } else {
      LowBelow(x, 32 - k);
    }
  }

  lemma {:induction false} UpAtLeast(x: nat, a: nat, n: nat)
    requires Pow2(a) <= x
    ensures Pow2(a + n) <= Up(x, n)
  {
    if n > 0 {
      UpAtLeast(x, a, n - 1);
    }
  }

  lemma FlsMasks()
    ensures 0xffff_0000 == Pow2(32) - Pow2(16) && 0xff00_0000 == Pow2(32) - Pow2(24)
    ensures 0xf000_0000 == Pow2(32) - Pow2(28) && 0xc000_0000 == Pow2(32) - Pow2(30)
    ensures 0x8000_0000 == Pow2(32) - Pow2(31)
  {
    Pow2Small();
    assert Pow2(28) == 16 * Pow2(24);
    assert Pow2(30) == 4 * Pow2(28) && Pow2(31) == 2 * Pow2(30);
  }

  /** x is x0 shifted up so that it has a bit among its top 32 - `top`, and r tells by how much. */
  ghost predicate Shifting(x0: nat, x: nat, r: nat, top: nat, least: nat) {
    least <= r <= 32 && x < Pow2(32) && x == Up(x0, 32 - r) && Pow2(top) <= x
  }

  lemma FlsWide(x: nat)
    requires 0 < x < 0x1_0000_0000
    ensures var (x1, r1) := FlsStep(x, 32, 0xffff_0000, 16);
      r1 >= 8 && var (x2, r2) := FlsStep(x1, r1, 0xff00_0000, 8); Shifting(x, x2, r2, 24, 8)
  {
    hide FlsStep, And, Low, Up, Pow2;
    FlsMasks();
    Pow2Small();
    UpNone(x);
    Halve(x, x, 32, 16, 0);
    var (x1, r1) := FlsStep(x, 32, 0xffff_0000, 16);
    Halve(x, x1, r1, 8, 16);
  }

  lemma FlsNarrow(x0: nat, x: nat, r: nat)
    requires Shifting(x0, x, r, 24, 8)
    ensures var (x3, r3) := FlsStep(x, r, 0xf000_0000, 4);
      r3 >= 2 && var (x4, r4) := FlsStep(x3, r3, 0xc000_0000, 2);
      r4 >= 1 && var (x5, r5) := FlsStep(x4, r4, 0x8000_0000, 1); Shifting(x0, x5, r5, 31, 1)
  {
    hide FlsStep, And, Low, Up, Pow2;
    FlsMasks();
    Pow2Small();
    Halve(x0, x, r, 4, 24);
    var (x3, r3) := FlsStep(x, r, 0xf000_0000, 4);
    Halve(x0, x3, r3, 2, 28);
    var (x4, r4) := FlsStep(x3, r3, 0xc000_0000, 2);
    Halve(x0, x4, r4, 1, 30);
  }

  /** `fls` is the number of binary digits. */
  lemma FlsIsLength(x: nat)
    requires x < 0x1_0000_0000
    ensures Fls(x) == Length(x)
  {
    if x > 0 {
      hide FlsStep, Up, Pow2;
      FlsWide(x);
      var (x1, r1) := FlsStep(x, 32, 0xffff_0000, 16);
      var (x2, r2) := FlsStep(x1, r1, 0xff00_0000, 8);
      FlsNarrow(x, x2, r2);
      var (x3, r3) := FlsStep(x2, r2, 0xf000_0000, 4);
      var (x4, r4) := FlsStep(x3, r3, 0xc000_0000, 2);
      var (x5, r5) := FlsStep(x4, r4, 0x8000_0000, 1);
      Normalized(x, x5, r5);
    }
  }

  lemma UpNone(x: nat)
    ensures Up(x, 0) == x && Pow2(0) == 1
  {
  }

  /** With the top bit in place, the shift tells the number of digits. */
  lemma Normalized(x0: nat, x: nat, r: nat)
    requires 0 < x0 && 1 <= r <= 32
    requires Pow2(31) <= x < Pow2(32) && x == Up(x0, 32 - r)
    ensures Length(x0) == r
  {
    hide Up, Pow2;
    if x0 < Pow2(r - 1) {
      UpBelow(x0, r - 1, 32 - r);
    }
    if Pow2(r) <= x0 {
      UpAtLeast(x0, r, 32 - r);
    }
    LengthIs(x0, r);
  }
}
