/** The population counts of bitmap.h.  `HWeight32` and `HWeight64` add up
    bits in parallel within a word; `Pop` counts them one by one. */
module Popcount {
  import opened Words

  /** The number of set bits among the lowest n. */
  function Pop(x: nat, n: nat): nat {
    if n == 0 then 0 else x % 2 + Pop(x / 2, n - 1)
  }

  function HWeight32(w: nat): nat
    requires w < 0x1_0000_0000
  {
    var a := w - And(Down(w, 1), 0x5555_5555);
    var b := And(a, 0x3333_3333) + And(Down(a, 2), 0x3333_3333);
    var c := And(b + Down(b, 4), 0x0F0F_0F0F);
    var d := c + Down(c, 8);
    And(d + Down(d, 16), 0xFF)
  }

  function HWeight64(w: Word): nat {
    var a := w - And(Shr(w, 1), 0x5555_5555_5555_5555);
    var b: Word := And(a, 0x3333_3333_3333_3333) + And(Shr(a, 2), 0x3333_3333_3333_3333);
    var c: Word := And(b + Shr(b, 4), 0x0F0F_0F0F_0F0F_0F0F);
    Down(Low(c * 0x0101_0101_0101_0101, BITS_PER_LONG), 56)
  }

  // ---- fields: groups of f bits ----

  /** The sum of the lowest n fields of width f. */
  function FieldSum(x: nat, f: nat, n: nat): nat {
    if n == 0 then 0 else Low(x, f) + FieldSum(Down(x, f), f, n - 1)
  }

  /** x has at most n fields of width f and none exceeds `most`. */
  predicate Fields(x: nat, f: nat, n: nat, most: nat) {
    if n == 0 then x == 0 else Low(x, f) <= most && Fields(Down(x, f), f, n - 1, most)
  }

  /** n fields of width f, the low k bits set in each. */
  function FieldMask(f: nat, k: nat, n: nat): nat {
    if n == 0 then 0 else (Pow2(k) - 1) + Up(FieldMask(f, k, n - 1), f)
  }

  /** Peeling the lowest field. */
  lemma Peel(x: nat, d: nat, q: nat, f: nat, n: nat, most: nat)
    requires d < Pow2(f) && x == d + Up(q, f) && n > 0
    ensures FieldSum(x, f, n) == d + FieldSum(q, f, n - 1)
    ensures Fields(x, f, n, most) <==> d <= most && Fields(q, f, n - 1, most)
  {
    Join(x, d, q, f);
  }

  /** Looking at the two lowest fields. */
  lemma TwoFields(x: nat, f: nat, n: nat, most: nat)
    requires n >= 2 && Fields(x, f, n, most)
    ensures var x2 := Down(x, f);
      FieldSum(x, f, n) == Low(x, f) + (Low(x2, f) + FieldSum(Down(x2, f), f, n - 2))
    ensures Low(x, f) <= most && Low(Down(x, f), f) <= most && Fields(Down(Down(x, f), f), f, n - 2, most)
  {
    var x2 := Down(x, f);
    assert FieldSum(x, f, n) == Low(x, f) + FieldSum(x2, f, n - 1);
    assert Fields(x2, f, n - 1, most);
  }

  lemma MaskStep(f: nat, k: nat, n: nat)
    requires n > 0
    ensures FieldMask(f, k, n) == (Pow2(k) - 1) + Up(FieldMask(f, k, n - 1), f)
    ensures Pow2(1) == 2 && Pow2(2) == 4 && Pow2(4) == 16 && Pow2(8) == 256
  {
    Pow2Small();
  }

  lemma LowestField(x: nat, f: nat, n: nat, most: nat)
    requires Fields(x, f, n, most)
    ensures Low(x, f) <= most
  {
    if n == 0 {
      UpZero(f);
      Join(0, 0, 0, f);
    }
  }

  lemma AndHalf(x: nat, y: nat)
    ensures And(x, y) == 2 * And(x / 2, y / 2) + (if x % 2 == 1 && y % 2 == 1 then 1 else 0)
  {
  }

  /** `And` works on fields one by one. */
  lemma {:induction false} AndJoin(x: nat, y: nat, d: nat, q: nat, e: nat, m: nat, b: nat)
    requires d < Pow2(b) && e < Pow2(b)
    requires x == d + Up(q, b) && y == e + Up(m, b)
    ensures And(x, y) == And(d, e) + Up(And(q, m), b)
    decreases b
  {
    if b > 0 {
      hide And;
      AndJoin(x / 2, y / 2, d / 2, q, e / 2, m, b - 1);
      assert x % 2 == d % 2 && y % 2 == e % 2;
      AndHalf(x, y);
      AndHalf(d, e);
    }
  }

  lemma Up2(x: nat)
    ensures Up(x, 2) == 4 * x
  {
    assert Up(x, 1) == 2 * x;
  }

  // ---- x - ((x >> 1) & 0x55...) ----

  lemma PairStep(h: nat, d: nat, q: nat, m: nat, y: nat)
    requires d < 4 && h == (d + 4 * q) / 2 && y == 1 + 4 * m
    ensures And(h, y) == d / 2 + 4 * And(q / 2, m)
  {
    hide And;
    var low := d / 2 + 2 * (q % 2);
    Up2(q / 2);
    Up2(m);
    Up2(And(q / 2, m));
    AndJoin(h, y, low, q / 2, 1, m, 2);
    AndLowMask(low, 1);
  }

  lemma PopPair(x: nat, d: nat, q: nat, n: nat)
    requires d < 4 && x == d + 4 * q && n >= 2
    ensures Pop(x, n) == (d - d / 2) + Pop(q, n - 2)
  {
    assert x / 2 == d / 2 + 2 * q && x / 2 / 2 == q;
    assert Pop(x, n) == x % 2 + (x / 2 % 2 + Pop(q, n - 2));
  }

  lemma PairsStep(x: nat, n: nat, y: nat, d: nat, q: nat, y': nat)
    requires n > 0 && d == Low(x, 2) && q == Down(x, 2) && y' == And(q / 2, FieldMask(2, 1, n - 1)) && y' <= q
    requires y == And(x / 2, FieldMask(2, 1, n))
    ensures y <= x
    ensures FieldSum(x - y, 2, n) == (d - d / 2) + FieldSum(q - y', 2, n - 1)
    ensures Fields(q - y', 2, n - 1, 2) ==> Fields(x - y, 2, n, 2)
    ensures x == d + 4 * q && d < 4
  {
    hide *;
    var m := FieldMask(2, 1, n - 1);
    MaskStep(2, 1, n);
    Split(x, 2);
    LowBelow(x, 2);
    Up2(q);
    Up2(m);
    PairStep(x / 2, d, q, m, FieldMask(2, 1, n));
    Up2(q - y');
    Peel(x - y, d - d / 2, q - y', 2, n, 2);
  }

  /** Every pair of bits becomes its count. */
  lemma {:induction false} Pairs(x: nat, n: nat, y: nat)
    requires x < Pow2(2 * n) && y == And(x / 2, FieldMask(2, 1, n))
    ensures y <= x && FieldSum(x - y, 2, n) == Pop(x, 2 * n) && Fields(x - y, 2, n, 2)
    decreases n
  {
    if n > 0 {
      var d, q := Low(x, 2), Down(x, 2);
      var y' := And(q / 2, FieldMask(2, 1, n - 1));
      hide *;
      DownBelow(x, 2, 2 * (n - 1));
      Pairs(q, n - 1, y');
      PairsStep(x, n, y, d, q, y');
      PopPair(x, d, q, 2 * n);
    }
  }

  // ---- (x & 0x33...) + ((x >> 2) & 0x33...) ----

  lemma Up4(x: nat)
    ensures Up(x, 4) == 16 * x
  {
    UpIsTimes(x, 4);
  }

  lemma Up8(x: nat)
    ensures Up(x, 8) == 256 * x
  {
    UpIsTimes(x, 8);
  }

  /** Masking with ...0011. */
  lemma And3(x: nat, a: nat, b: nat, q: nat, y: nat, m: nat)
    requires a < 4 && b < 4 && x == a + 4 * b + 16 * q && y == 3 + 16 * m
    ensures And(x, y) == a + 16 * And(q, m)
  {
    hide And;
    Up4(q);
    Up4(m);
    Up4(And(q, m));
    AndJoin(x, y, a + 4 * b, q, 3, m, 4);
    AndLowMask(a + 4 * b, 2);
    Up2(b);
    Join(a + 4 * b, a, b, 2);
  }

  lemma QuadsStep(x: nat, n: nat, y: nat, a: nat, x2: nat, b: nat, q: nat, y': nat)
    requires n > 0 && a == Low(x, 2) && x2 == Down(x, 2) && b == Low(x2, 2) && q == Down(x2, 2) && a <= 2 && b <= 2
    requires y == And(x, FieldMask(4, 2, n)) + And(x2, FieldMask(4, 2, n))
    requires y' == And(q, FieldMask(4, 2, n - 1)) + And(Down(q, 2), FieldMask(4, 2, n - 1))
    ensures FieldSum(y, 4, n) == a + b + FieldSum(y', 4, n - 1)
    ensures Fields(y', 4, n - 1, 4) ==> Fields(y, 4, n, 4)
  {
    hide *;
    var m := FieldMask(4, 2, n - 1);
    MaskStep(4, 2, n);
    TwoDigits(x, a, x2, b, q);
    TwoDigits(x2, b, q, Low(q, 2), Down(q, 2));
    Up4(m);
    Up4(y');
    And3(x, a, b, q, FieldMask(4, 2, n), m);
    And3(x2, b, Low(q, 2), Down(q, 2), FieldMask(4, 2, n), m);
    Peel(y, a + b, y', 4, n, 4);
  }

  /** Neighbouring pairs are added. */
  lemma {:induction false} Quads(x: nat, n: nat, y: nat)
    requires Fields(x, 2, 2 * n, 2)
    requires y == And(x, FieldMask(4, 2, n)) + And(Down(x, 2), FieldMask(4, 2, n))
    ensures FieldSum(y, 4, n) == FieldSum(x, 2, 2 * n) && Fields(y, 4, n, 4)
    decreases n
  {
    if n > 0 {
      hide *;
      var x2 := Down(x, 2);
      var q := Down(x2, 2);
      var y' := And(q, FieldMask(4, 2, n - 1)) + And(Down(q, 2), FieldMask(4, 2, n - 1));
      TwoFields(x, 2, 2 * n, 2);
      Quads(q, n - 1, y');
      QuadsStep(x, n, y, Low(x, 2), x2, Low(x2, 2), q, y');
    }
  }

  lemma TwoDigits(x: nat, a: nat, x2: nat, b: nat, q: nat)
    requires a == Low(x, 2) && x2 == Down(x, 2) && b == Low(x2, 2) && q == Down(x2, 2)
    ensures x == a + 4 * b + 16 * q && a < 4 && b < 4
  {
    Split(x, 2);
    Split(x2, 2);
    Up2(x2);
    Up2(q);
    LowBelow(x, 2);
    LowBelow(x2, 2);
  }

  // ---- (x + (x >> 4)) & 0x0f... ----

  /** Masking with ...00001111. */
  lemma And15(x: nat, a: nat, b: nat, q: nat, y: nat, m: nat)
    requires a < 16 && b < 16 && x == a + 16 * b + 256 * q && y == 15 + 256 * m
    ensures And(x, y) == a + 256 * And(q, m)
  {
    hide And;
    Up8(q);
    Up8(m);
    Up8(And(q, m));
    Pow2Small();
    AndJoin(x, y, a + 16 * b, q, 15, m, 8);
    AndLowMask(a + 16 * b, 4);
    Up4(b);
    Join(a + 16 * b, a, b, 4);
  }

  lemma NibbleSplit(x: nat)
    ensures x == Low(x, 4) + 16 * Down(x, 4) && Low(x, 4) < 16
  {
    Split(x, 4);
    Up4(Down(x, 4));
    LowBelow(x, 4);
  }

  lemma BytesStep(x: nat, n: nat, y: nat, l: nat, x2: nat, h: nat, q: nat, y': nat)
    requires n > 0 && l == Low(x, 4) && x2 == Down(x, 4) && h == Low(x2, 4) && q == Down(x2, 4) && l <= 4 && h <= 4
    requires Low(q, 4) <= 4
    requires y == And(x + x2, FieldMask(8, 4, n))
    requires y' == And(q + Down(q, 4), FieldMask(8, 4, n - 1))
    ensures FieldSum(y, 8, n) == l + h + FieldSum(y', 8, n - 1)
    ensures Fields(y', 8, n - 1, 8) ==> Fields(y, 8, n, 8)
  {
    hide *;
    var m := FieldMask(8, 4, n - 1);
    MaskStep(8, 4, n);
    NibbleSplit(x);
    NibbleSplit(x2);
    NibbleSplit(q);
    Up8(m);
    Up8(y');
    And15(x + x2, l + h, h + Low(q, 4), q + Down(q, 4), FieldMask(8, 4, n), m);
    Peel(y, l + h, y', 8, n, 8);
  }

  /** Neighbouring nibbles are added: no carry leaves a nibble. */
  lemma {:induction false} Bytes(x: nat, n: nat, y: nat)
    requires Fields(x, 4, 2 * n, 4)
    requires y == And(x + Down(x, 4), FieldMask(8, 4, n))
    ensures FieldSum(y, 8, n) == FieldSum(x, 4, 2 * n) && Fields(y, 8, n, 8)
    decreases n
  {
    if n > 0 {
      hide *;
      var x2 := Down(x, 4);
      var q := Down(x2, 4);
      var y' := And(q + Down(q, 4), FieldMask(8, 4, n - 1));
      TwoFields(x, 4, 2 * n, 4);
      LowestField(q, 4, 2 * n - 2, 4);
      Bytes(q, n - 1, y');
      BytesStep(x, n, y, Low(x, 4), x2, Low(x2, 4), q, y');
    }
  }

  // ---- adding the bytes up ----

  /** A word of byte-sized counts, taken apart. */
  lemma ByteSplit(x: nat, n: nat)
    requires n > 0 && Fields(x, 8, n, 8)
    ensures x == Low(x, 8) + 256 * Down(x, 8) && Low(x, 8) <= 8 && Fields(Down(x, 8), 8, n - 1, 8)
    ensures FieldSum(x, 8, n) == Low(x, 8) + FieldSum(Down(x, 8), 8, n - 1)
  {
    Split(x, 8);
    Up8(Down(x, 8));
  }

  /** Four bytes. */
  lemma FourBytes(x: nat, n: nat) returns (a: nat, b: nat, c: nat, d: nat, rest: nat)
    requires n >= 4 && Fields(x, 8, n, 8)
    ensures x == a + 0x100 * b + 0x1_0000 * c + 0x100_0000 * d + 0x1_0000_0000 * rest
    ensures a <= 8 && b <= 8 && c <= 8 && d <= 8 && Fields(rest, 8, n - 4, 8)
    ensures FieldSum(x, 8, n) == a + b + c + d + FieldSum(rest, 8, n - 4)
  {
    hide *;
    var x1 := Down(x, 8);
    var x2 := Down(x1, 8);
    var x3 := Down(x2, 8);
    ByteSplit(x, n);
    ByteSplit(x1, n - 1);
    ByteSplit(x2, n - 2);
    ByteSplit(x3, n - 3);
    a, b, c, d, rest := Low(x, 8), Low(x1, 8), Low(x2, 8), Low(x3, 8), Down(x3, 8);
  }

  /** The product of eight small bytes with 0x01...01, byte by byte. */
  lemma GatherNumbers(t: nat, c0: nat, c1: nat, c2: nat, c3: nat, c4: nat, c5: nat, c6: nat, c7: nat)
    requires c0 <= 8 && c1 <= 8 && c2 <= 8 && c3 <= 8 && c4 <= 8 && c5 <= 8 && c6 <= 8 && c7 <= 8
    requires t == c0 + 0x100 * c1 + 0x1_0000 * c2 + 0x100_0000 * c3
               + 0x1_0000_0000 * (c4 + 0x100 * c5 + 0x1_0000 * c6 + 0x100_0000 * c7)
    ensures Down(Low(t * 0x0101_0101_0101_0101, BITS_PER_LONG), 56) == c0 + c1 + c2 + c3 + (c4 + c5 + c6 + c7)
  {
    hide Pow2, Up, Low, Down;
    var s1 := c0 + c1;
    var s2 := s1 + c2;
    var s3 := s2 + c3;
    var s4 := s3 + c4;
    var s5 := s4 + c5;
    var s6 := s5 + c6;
    var s7 := s6 + c7;
    var low := c0 + 0x100 * s1 + 0x1_0000 * s2 + 0x100_0000 * s3 + 0x1_0000_0000 * s4
             + 0x100_0000_0000 * s5 + 0x1_0000_0000_0000 * s6;
    var high := (s7 - c0) + 0x100 * (s7 - s1) + 0x1_0000 * (s7 - s2) + 0x100_0000 * (s7 - s3)
              + 0x1_0000_0000 * (s7 - s4) + 0x100_0000_0000 * (s7 - s5) + 0x1_0000_0000_0000 * (s7 - s6);
    var p := t * 0x0101_0101_0101_0101;
    var mid := low + 0x100_0000_0000_0000 * s7;
    assert p == mid + 0x1_0000_0000_0000_0000 * high;
    Pow2Top();
    UpTop(s7);
    UpTop(high);
    Join(p, mid, high, BITS_PER_LONG);
    Join(mid, low, s7, 56);
  }

  /** Multiplying by 0x01...01 gathers all bytes in the top one. */
  lemma Gather64(c: nat)
    requires Fields(c, 8, 8, 8)
    ensures Down(Low(c * 0x0101_0101_0101_0101, BITS_PER_LONG), 56) == FieldSum(c, 8, 8)
  {
    hide *;
    var c0: nat, c1: nat, c2: nat, c3: nat, h: nat := FourBytes(c, 8);
    var c4: nat, c5: nat, c6: nat, c7: nat, z: nat := FourBytes(h, 4);
    NoFields(z);
    GatherNumbers(c, c0, c1, c2, c3, c4, c5, c6, c7);
  }

  lemma NoFields(z: nat)
    requires Fields(z, 8, 0, 8)
    ensures z == 0 && FieldSum(z, 8, 0) == 0
  {
  }

  lemma Pow2Top()
    ensures Pow2(56) == 0x100_0000_0000_0000 && Pow2(BITS_PER_LONG) == 0x1_0000_0000_0000_0000
  {
    Pow2Long();
    assert Pow2(64) == 2 * Pow2(63) == 4 * Pow2(62) == 8 * Pow2(61);
    assert Pow2(61) == 2 * Pow2(60) == 4 * Pow2(59) == 8 * Pow2(58) == 16 * Pow2(57) == 32 * Pow2(56);
  }

  lemma UpTop(x: nat)
    ensures Up(x, 56) == 0x100_0000_0000_0000 * x && Up(x, BITS_PER_LONG) == 0x1_0000_0000_0000_0000 * x
  {
    Pow2Top();
    UpIsTimes(x, 56);
    UpIsTimes(x, BITS_PER_LONG);
  }

  lemma Gather32Numbers(c: nat, d: nat, c0: nat, c1: nat, c2: nat, c3: nat)
    requires c0 <= 8 && c1 <= 8 && c2 <= 8 && c3 <= 8
    requires c == c0 + 0x100 * c1 + 0x1_0000 * c2 + 0x100_0000 * c3 && d == c + Down(c, 8)
    ensures And(d + Down(d, 16), 0xFF) == c0 + c1 + c2 + c3
  {
    hide *;
    var c' := c1 + 0x100 * c2 + 0x1_0000 * c3;
    var top := (c2 + c3) + 0x100 * c3;
    var rest := (c1 + c2) + c3 + 0x100 * (c2 + c3) + 0x1_0000 * c3;
    Pow2Small();
    Up8(c');
    Join(c, c0, c', 8);
    UpIsTimes(top, 16);
    Join(d, (c0 + c1) + 0x100 * (c1 + c2), top, 16);
    Up8(rest);
    Join(d + top, c0 + c1 + c2 + c3, rest, 8);
    AndLowMask(d + top, 8);
  }

  /** Two shifted additions gather the four bytes in the lowest one. */
  lemma Gather32(c: nat, d: nat)
    requires Fields(c, 8, 4, 8) && d == c + Down(c, 8)
    ensures And(d + Down(d, 16), 0xFF) == FieldSum(c, 8, 4)
  {
    hide *;
    var c0: nat, c1: nat, c2: nat, c3: nat, z: nat := FourBytes(c, 4);
    NoFields(z);
    Gather32Numbers(c, d, c0, c1, c2, c3);
  }

  lemma {:induction false} MaskPlus(f: nat, k: nat, a: nat, b: nat, w: nat)
    requires w == f * a
    ensures FieldMask(f, k, a + b) == FieldMask(f, k, a) + Up(FieldMask(f, k, b), w)
    decreases a
  {
    if a > 0 {
      assert f * (a - 1) == w - f && w - f >= 0;
      MaskPlus(f, k, a - 1, b, w - f);
      UpPlus(FieldMask(f, k, a - 1), Up(FieldMask(f, k, b), w - f), f);
      UpUp(FieldMask(f, k, b), w - f, f);
    }
  }

  lemma MaskDouble(f: nat, k: nat, a: nat, w: nat)
    requires w == f * a
    ensures FieldMask(f, k, 2 * a) == FieldMask(f, k, a) + FieldMask(f, k, a) * Pow2(w)
  {
    MaskPlus(f, k, a, a, w);
    UpIsTimes(FieldMask(f, k, a), w);
  }

  lemma Masks()
    ensures FieldMask(2, 1, 32) == 0x5555_5555_5555_5555 && FieldMask(2, 1, 16) == 0x5555_5555
    ensures FieldMask(4, 2, 16) == 0x3333_3333_3333_3333 && FieldMask(4, 2, 8) == 0x3333_3333
    ensures FieldMask(8, 4, 8) == 0x0F0F_0F0F_0F0F_0F0F && FieldMask(8, 4, 4) == 0x0F0F_0F0F
  {
    Pow2Small();
    assert FieldMask(2, 1, 4) == 0x55;
    MaskDouble(2, 1, 4, 8);
    MaskDouble(2, 1, 8, 16);
    MaskDouble(2, 1, 16, 32);
    assert FieldMask(4, 2, 2) == 0x33;
    MaskDouble(4, 2, 2, 8);
    MaskDouble(4, 2, 4, 16);
    MaskDouble(4, 2, 8, 32);
    assert FieldMask(8, 4, 1) == 0x0F;
    MaskDouble(8, 4, 1, 8);
    MaskDouble(8, 4, 2, 16);
    MaskDouble(8, 4, 4, 32);
  }

  lemma DownOne(x: nat)
    ensures Down(x, 1) == x / 2
  {
  }

  /** The 64-bit count is the number of set bits. */
  lemma HWeight64Counts(w: Word)
    ensures HWeight64(w) == Pop(w, BITS_PER_LONG)
  {
    hide And, FieldMask, Pop, FieldSum, Fields, Low, Up, Down, Pow2;
    var s := And(Shr(w, 1), 0x5555_5555_5555_5555);
    var a: Word := w - s;
    var b: Word := And(a, 0x3333_3333_3333_3333) + And(Shr(a, 2), 0x3333_3333_3333_3333);
    var c := And(b + Shr(b, 4), 0x0F0F_0F0F_0F0F_0F0F);
    Masks();
    Pow2Long();
    DownOne(w);
    Pairs(w, 32, s);
    Quads(a, 16, b);
    Bytes(b, 8, c);
    Gather64(c);
  }

  /** The 32-bit count is the number of set bits. */
  lemma HWeight32Counts(w: nat)
    requires w < 0x1_0000_0000
    ensures HWeight32(w) == Pop(w, 32)
  {
    hide And, FieldMask, Pop, FieldSum, Fields, Low, Up, Down, Pow2;
    var s := And(Down(w, 1), 0x5555_5555);
    var a := w - s;
    var b := And(a, 0x3333_3333) + And(Down(a, 2), 0x3333_3333);
    var c := And(b + Down(b, 4), 0x0F0F_0F0F);
    Masks();
    Pow2Small();
    DownOne(w);
    Pairs(w, 16, s);
    Quads(a, 8, b);
    Bytes(b, 4, c);
    Gather32(c, c + Down(c, 8));
  }
}
