/** Arithmetic of `unsigned long` words: shifts, masks and bitwise operators
    on naturals, what they mean bit by bit and what they mean as numbers.

    Multiplying by, dividing by and reducing modulo a power of two are the
    recursive functions `Up`, `Down` and `Low`, one binary digit at a time;
    `UpIsTimes`, `DownIsQuotient` and `LowIsRemainder` tie them to `*`, `/`
    and `%`. */
module Words {

  const BITS_PER_LONG := 64
  const WORD_SIZE := 0x1_0000_0000_0000_0000

  type Word = w: nat | w < WORD_SIZE

  function Pow2(n: nat): (p: nat)
    ensures p >= 1
  {
    if n == 0 then 1 else 2 * Pow2(n - 1)
  }

  /** x * 2^n */
  function Up(x: nat, n: nat): nat {
    if n == 0 then x else 2 * Up(x, n - 1)
  }

  /** x / 2^n, rounded down */
  function Down(x: nat, n: nat): (r: nat)
    ensures r <= x
  {
    if n == 0 then x else Down(x / 2, n - 1)
  }

  /** x mod 2^n */
  function Low(x: nat, n: nat): (r: nat)
    ensures r <= x
  {
    if n == 0 then 0 else 2 * Low(x / 2, n - 1) + x % 2
  }

  /** Bit number `i` of a number. */
  predicate Bit(x: nat, i: nat) {
    if i == 0 then x % 2 == 1 else Bit(x / 2, i - 1)
  }

  function And(x: nat, y: nat): (r: nat)
    ensures r <= x && r <= y
  {
    if x == 0 || y == 0 then 0
    else 2 * And(x / 2, y / 2) + (if x % 2 == 1 && y % 2 == 1 then 1 else 0)
  }

  function Or(x: nat, y: nat): nat {
    if x == 0 then y else if y == 0 then x
    else 2 * Or(x / 2, y / 2) + (if x % 2 == 1 || y % 2 == 1 then 1 else 0)
  }

  function Xor(x: nat, y: nat): nat {
    if x == 0 then y else if y == 0 then x
    else 2 * Xor(x / 2, y / 2) + (if x % 2 != y % 2 then 1 else 0)
  }

  /** `~w` on a 64-bit word. */
  function Not(w: Word): Word {
    WORD_SIZE - 1 - w
  }

  /** `w << k` on 64 bits.  A full-width shift only ever meets a zero word. */
  function Shl(w: Word, k: nat): Word {
    Pow2Long();
    LowBelow(Up(w, k), BITS_PER_LONG);
    Low(Up(w, k), BITS_PER_LONG)
  }

  /** `w >> k` on 64 bits. */
  function Shr(w: Word, k: nat): Word {
    Down(w, k)
  }

  // ---- powers of two ----

  lemma {:induction false} Pow2Add(a: nat, b: nat)
    ensures Pow2(a + b) == Up(Pow2(b), a)
  {
    if a > 0 {
      Pow2Add(a - 1, b);
    }
  }

  lemma Pow2Small()
    ensures Pow2(4) == 16 && Pow2(8) == 0x100 && Pow2(16) == 0x1_0000
    ensures Pow2(28) == 0x1000_0000 && Pow2(32) == 0x1_0000_0000
  {
    assert Pow2(4) == 16 && Pow2(8) == 0x100;
    assert Pow2(12) == 0x1000 && Pow2(16) == 0x1_0000;
    assert Pow2(20) == 0x10_0000 && Pow2(24) == 0x100_0000;
    assert Pow2(28) == 0x1000_0000 && Pow2(32) == 0x1_0000_0000;
  }

  lemma Pow2Long()
    ensures Pow2(BITS_PER_LONG) == WORD_SIZE
  {
    Pow2Small();
    assert Pow2(40) == 0x100_0000_0000 && Pow2(48) == 0x1_0000_0000_0000;
    assert Pow2(56) == 0x100_0000_0000_0000 && Pow2(64) == WORD_SIZE;
  }

  lemma {:induction false} Pow2Monotone(a: nat, b: nat)
    requires a <= b
    ensures Pow2(a) <= Pow2(b)
    ensures a < b ==> 2 * Pow2(a) <= Pow2(b)
  {
    if a < b {
      Pow2Monotone(a, b - 1);
    }
  }

  // ---- Up, Down and Low are *, / and % ----

  lemma {:induction false} UpIsTimes(x: nat, n: nat)
    ensures Up(x, n) == x * Pow2(n)
  {
    if n > 0 {
      UpIsTimes(x, n - 1);
    }
  }

  lemma MultipleSize(k: int, d: int)
    requires d > 0
    ensures k >= 1 ==> k * d >= d
    ensures k <= -1 ==> k * d <= -d
  {
    if k >= 1 {
      assert k * d == (k - 1) * d + d && (k - 1) * d >= 0;
    } else if k <= -1 {
      assert k * d == (k + 1) * d - d && (k + 1) * d <= 0;
    }
  }

  lemma DivModUnique(x: int, d: int, q: int, r: int)
    requires d > 0 && 0 <= r < d && x == q * d + r
    ensures x / d == q && x % d == r
  {
    var q', r' := x / d, x % d;
    assert x == q' * d + r' && 0 <= r' < d;
    assert (q - q') * d == q * d - q' * d;
    MultipleSize(q - q', d);
  }

  lemma DownIsQuotient(x: nat, n: nat)
    ensures Down(x, n) == x / Pow2(n)
  {
    Split(x, n);
    LowBelow(x, n);
    UpIsTimes(Down(x, n), n);
    DivModUnique(x, Pow2(n), Down(x, n), Low(x, n));
  }

  lemma LowIsRemainder(x: nat, n: nat)
    ensures Low(x, n) == x % Pow2(n)
  {
    Split(x, n);
    LowBelow(x, n);
    UpIsTimes(Down(x, n), n);
    DivModUnique(x, Pow2(n), Down(x, n), Low(x, n));
  }

  lemma {:induction false} LowBelow(x: nat, n: nat)
    ensures Low(x, n) < Pow2(n)
    decreases n
  {
    if n > 0 {
      LowBelow(x / 2, n - 1);
    }
  }

  lemma {:induction false} DownBelow(x: nat, a: nat, b: nat)
    requires x < Pow2(a + b)
    ensures Down(x, a) < Pow2(b)
    decreases a
  {
    if a > 0 {
      DownBelow(x / 2, a - 1, b);
    }
  }

  // ---- the laws of Up, Down and Low ----

  lemma {:induction false} Split(x: nat, n: nat)
    ensures x == Up(Down(x, n), n) + Low(x, n)
  {
    if n > 0 {
      Split(x / 2, n - 1);
      UpDouble(Down(x, n), n - 1);
    }
  }

  lemma {:induction false} UpDouble(x: nat, n: nat)
    ensures Up(2 * x, n) == 2 * Up(x, n)
  {
    if n > 0 {
      UpDouble(x, n - 1);
    }
  }

  /** The decomposition into a remainder and a multiple of 2^n is unique. */
  lemma {:induction false} Join(x: nat, r: nat, q: nat, n: nat)
    requires r < Pow2(n) && x == r + Up(q, n)
    ensures Low(x, n) == r && Down(x, n) == q
    decreases n
  {
    if n > 0 {
      Join(x / 2, r / 2, q, n - 1);
    }
  }

  lemma LowSmall(x: nat, n: nat)
    requires x < Pow2(n)
    ensures Low(x, n) == x && Down(x, n) == 0
  {
    UpZero(n);
    Join(x, x, 0, n);
  }

  lemma {:induction false} UpZero(n: nat)
    ensures Up(0, n) == 0
  {
    if n > 0 {
      UpZero(n - 1);
    }
  }

  lemma {:induction false} UpUp(x: nat, a: nat, b: nat)
    ensures Up(Up(x, a), b) == Up(x, a + b)
  {
    if b > 0 {
      UpUp(x, a, b - 1);
    }
  }

  lemma {:induction false} UpPlus(x: nat, y: nat, n: nat)
    ensures Up(x + y, n) == Up(x, n) + Up(y, n)
  {
    if n > 0 {
      UpPlus(x, y, n - 1);
    }
  }

  lemma {:induction false} UpBelow(x: nat, a: nat, n: nat)
    requires x < Pow2(a)
    ensures Up(x, n) < Pow2(a + n)
    ensures Up(x, n) + Pow2(n) <= Pow2(a + n)
  {
    if n > 0 {
      UpBelow(x, a, n - 1);
    }
  }

  lemma {:induction false} DownDown(x: nat, a: nat, b: nat)
    ensures Down(Down(x, a), b) == Down(x, a + b)
    decreases a
  {
    if a > 0 {
      DownDown(x / 2, a - 1, b);
    }
  }

  /** The low a + b bits are the low a bits and, above them, the next b. */
  lemma {:induction false} LowPlus(x: nat, a: nat, b: nat)
    ensures Low(x, a + b) == Low(x, a) + Up(Low(Down(x, a), b), a)
    decreases a
  {
    if a > 0 {
      LowPlus(x / 2, a - 1, b);
    }
  }

  lemma {:induction false} LowLow(x: nat, a: nat, b: nat)
    requires a <= b
    ensures Low(Low(x, b), a) == Low(x, a)
    decreases a
  {
    if a > 0 {
      LowLow(x / 2, a - 1, b - 1);
      assert Low(x, b) / 2 == Low(x / 2, b - 1);
    }
  }

  lemma {:induction false} DownLow(x: nat, a: nat, b: nat)
    ensures Down(Low(x, a + b), a) == Low(Down(x, a), b)
    decreases a
  {
    if a > 0 {
      DownLow(x / 2, a - 1, b);
      assert Low(x, a + b) / 2 == Low(x / 2, a - 1 + b);
    }
  }

  lemma {:induction false} LowUp(x: nat, n: nat, k: nat)
    ensures Low(Up(x, n), n + k) == Up(Low(x, k), n)
  {
    if n > 0 {
      LowUp(x, n - 1, k);
      assert Up(x, n) / 2 == Up(x, n - 1) && Up(x, n) % 2 == 0;
    }
  }

  /** Adding a multiple of 2^n does not change the low n bits. */
  lemma {:induction false} LowAddUp(x: nat, y: nat, n: nat)
    ensures Low(x + Up(y, n), n) == Low(x, n)
    ensures Down(x + Up(y, n), n) == Down(x, n) + y
    decreases n
  {
    if n > 0 {
      LowAddUp(x / 2, y, n - 1);
      assert (x + Up(y, n)) / 2 == x / 2 + Up(y, n - 1);
    }
  }

  // ---- bits ----

  lemma {:induction false} BitZero(i: nat)
    ensures !Bit(0, i)
  {
    if i > 0 {
      BitZero(i - 1);
    }
  }

  lemma {:induction false} BitDown(x: nat, k: nat, i: nat)
    ensures Bit(Down(x, k), i) == Bit(x, i + k)
    decreases k
  {
    if k > 0 {
      BitDown(x / 2, k - 1, i);
    }
  }

  lemma {:induction false} BitLow(x: nat, n: nat, i: nat)
    ensures Bit(Low(x, n), i) <==> i < n && Bit(x, i)
    decreases n
  {
    if n == 0 {
      BitZero(i);
    } else if i > 0 {
      BitLow(x / 2, n - 1, i - 1);
      assert Low(x, n) / 2 == Low(x / 2, n - 1);
    }
  }

  lemma {:induction false} BitAbove(x: nat, n: nat, i: nat)
    requires x < Pow2(n) && n <= i
    ensures !Bit(x, i)
  {
    LowSmall(x, n);
    BitLow(x, n, i);
  }

  lemma {:induction false} BitPow2(n: nat, i: nat)
    ensures Bit(Pow2(n), i) <==> i == n
    decreases n
  {
    if n == 0 {
      if i > 0 {
        BitZero(i - 1);
      }
    } else if i > 0 {
      BitPow2(n - 1, i - 1);
    }
  }

  /** Numbers with the same bits are the same. */
  lemma {:induction false} SameBits(x: nat, y: nat)
    requires forall i: nat :: Bit(x, i) == Bit(y, i)
    ensures x == y
    decreases x + y
  {
    if x != 0 || y != 0 {
      assert Bit(x, 0) == Bit(y, 0);
      forall i: nat
        ensures Bit(x / 2, i) == Bit(y / 2, i)
      {
        assert Bit(x, i + 1) == Bit(y, i + 1);
      }
      SameBits(x / 2, y / 2);
    }
  }

  lemma {:induction false} BitAnd(x: nat, y: nat, i: nat)
    ensures Bit(And(x, y), i) <==> Bit(x, i) && Bit(y, i)
    decreases i
  {
    if x == 0 || y == 0 {
      BitZero(i);
    } else if i > 0 {
      BitAnd(x / 2, y / 2, i - 1);
      assert And(x, y) / 2 == And(x / 2, y / 2);
    }
  }

  lemma {:induction false} BitOr(x: nat, y: nat, i: nat)
    ensures Bit(Or(x, y), i) <==> Bit(x, i) || Bit(y, i)
    decreases i
  {
    if x == 0 || y == 0 {
      BitZero(i);
    } else if i > 0 {
      var h := Or(x / 2, y / 2);
      BitOr(x / 2, y / 2, i - 1);
      assert Or(x, y) == 2 * h + (if x % 2 == 1 || y % 2 == 1 then 1 else 0);
      assert Or(x, y) / 2 == h;
    }
  }

  lemma {:induction false} BitXor(x: nat, y: nat, i: nat)
    ensures Bit(Xor(x, y), i) <==> Bit(x, i) != Bit(y, i)
    decreases i
  {
    if x == 0 || y == 0 {
      BitZero(i);
    } else if i > 0 {
      BitXor(x / 2, y / 2, i - 1);
      assert Xor(x, y) / 2 == Xor(x / 2, y / 2);
    }
  }

  /** The complement of an n-bit number flips its n bits. */
  lemma {:induction false} BitComplement(x: nat, n: nat, i: nat)
    requires x < Pow2(n) && i < n
    ensures Bit(Pow2(n) - 1 - x, i) == !Bit(x, i)
    decreases n
  {
    var y := Pow2(n) - 1 - x;
    assert y / 2 == Pow2(n - 1) - 1 - x / 2;
    if i > 0 {
      BitComplement(x / 2, n - 1, i - 1);
    }
  }

  // ---- masks ----

  lemma {:induction false} OrBound(x: nat, y: nat, n: nat)
    requires x < Pow2(n) && y < Pow2(n)
    ensures Or(x, y) < Pow2(n)
    decreases n
  {
    if x > 0 && y > 0 {
      OrBound(x / 2, y / 2, n - 1);
    }
  }

  lemma {:induction false} XorBound(x: nat, y: nat, n: nat)
    requires x < Pow2(n) && y < Pow2(n)
    ensures Xor(x, y) < Pow2(n)
    decreases n
  {
    if x > 0 && y > 0 {
      XorBound(x / 2, y / 2, n - 1);
    }
  }

  /** Masking with 2^n - 1 keeps the low n bits. */
  lemma {:induction false} AndLowMask(x: nat, n: nat)
    ensures And(x, Pow2(n) - 1) == Low(x, n)
    decreases n
  {
    if n > 0 {
      AndLowMask(x / 2, n - 1);
      assert (Pow2(n) - 1) / 2 == Pow2(n - 1) - 1 && (Pow2(n) - 1) % 2 == 1;
    }
  }

  /** Masking with 2^n - 2^k drops the low k bits. */
  lemma {:induction false} AndHighMask(x: nat, n: nat, k: nat)
    requires k <= n && x < Pow2(n)
    ensures Pow2(n) - Pow2(k) >= 0
    ensures And(x, Pow2(n) - Pow2(k)) == x - Low(x, k)
    decreases k
  {
    Pow2Monotone(k, n);
    if k == 0 {
      AndLowMask(x, n);
      LowSmall(x, n);
    } else {
      AndHighMask(x / 2, n - 1, k - 1);
      var m := Pow2(n) - Pow2(k);
      assert m / 2 == Pow2(n - 1) - Pow2(k - 1) && m % 2 == 0;
    }
  }

  /** Or-ing numbers that do not overlap adds them. */
  lemma {:induction false} OrDisjoint(low: nat, high: nat, n: nat)
    requires low < Pow2(n)
    ensures Or(low, Up(high, n)) == low + Up(high, n)
    ensures Or(Up(high, n), low) == low + Up(high, n)
    decreases n
  {
    if n > 0 {
      OrDisjoint(low / 2, high, n - 1);
      assert Up(high, n) / 2 == Up(high, n - 1) && Up(high, n) % 2 == 0;
    }
  }
}
