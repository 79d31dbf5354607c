/** Bitmaps as sets of bit numbers: the predicates, the counting and the set
    operations of bitmap.c, and the single-bit operations of non-atomic.h.
    Unused bits of the inputs never matter. */
module BitSets {
  import opened Words
  import opened Bitmap
  import opened Popcount

  predicate BitAt(s: seq<Word>, i: nat)
    requires i < BITS_PER_LONG * |s|
  {
    Bit(s[i / BITS_PER_LONG], i % BITS_PER_LONG)
  }

  /** The bits below n that are set. */
  function SetBelow(s: seq<Word>, n: nat): set<nat>
    requires n <= BITS_PER_LONG * |s|
  {
    set i | 0 <= i < n && BitAt(s, i)
  }

  /** The set a bitmap of `bits` bits stands for. */
  function Bits(s: seq<Word>, bits: nat): set<nat>
    requires |s| >= Longs(bits)
  {
    LongsEnough(bits);
    SetBelow(s, bits)
  }

  /** The word that holds bit i, and the bit's place in it. */
  lemma Place(i: nat, k: nat, b: nat)
    requires i == BITS_PER_LONG * k + b && b < BITS_PER_LONG
    ensures i / BITS_PER_LONG == k && i % BITS_PER_LONG == b
  {
  }

  lemma BitsAreValueBits(s: seq<Word>, bits: nat, i: nat)
    requires |s| >= Longs(bits)
    ensures i in Bits(s, bits) <==> i < bits && Bit(Value(s), i)
  {
    ValueBit(s, i);
    LongsEnough(bits);
  }

  // ---- single words ----

  ghost predicate NoBits(w: nat, n: nat) {
    forall b: nat | b < n :: !Bit(w, b)
  }

  /** A word is zero below n just when it has no bit set there. */
  lemma LowZero(w: nat, n: nat)
    ensures Low(w, n) == 0 <==> NoBits(w, n)
  {
    if Low(w, n) == 0 {
      forall b: nat | b < n
        ensures !Bit(w, b)
      {
        BitLow(w, n, b);
        BitZero(b);
      }
    }
    if NoBits(w, n) {
      forall i: nat
        ensures Bit(Low(w, n), i) == Bit(0, i)
      {
        BitLow(w, n, i);
        BitZero(i);
      }
      SameBits(Low(w, n), 0);
    }
  }

  lemma LastMask(w: nat, bits: nat)
    requires bits % BITS_PER_LONG != 0
    ensures And(w, LastWordMask(bits)) == Low(w, bits % BITS_PER_LONG)
  {
    AndLowMask(w, bits % BITS_PER_LONG);
  }

  // ---- weight ----

  lemma {:induction false} PopNext(w: nat, n: nat)
    ensures Pop(w, n + 1) == Pop(w, n) + (if Bit(w, n) then 1 else 0)
    decreases n
  {
    if n > 0 {
      PopNext(w / 2, n - 1);
    }
  }

  lemma {:induction false} PopLow(w: nat, n: nat, m: nat)
    requires n <= m
    ensures Pop(Low(w, n), m) == Pop(w, n)
    decreases m
  {
    if n == 0 {
      PopZero(m);
    } else {
      assert Low(w, n) / 2 == Low(w / 2, n - 1);
      PopLow(w / 2, n - 1, m - 1);
    }
  }

  lemma {:induction false} PopZero(m: nat)
    ensures Pop(0, m) == 0
  {
    if m > 0 {
      PopZero(m - 1);
    }
  }

  /** A word contributes as many elements as it has bits set. */
  lemma {:induction false} BelowGrows(s: seq<Word>, k: nat, n: nat)
    requires k < |s| && n <= BITS_PER_LONG
    ensures |SetBelow(s, BITS_PER_LONG * k + n)| == |SetBelow(s, BITS_PER_LONG * k)| + Pop(s[k], n)
    decreases n
  {
    if n > 0 {
      var i := BITS_PER_LONG * k + (n - 1);
      BelowGrows(s, k, n - 1);
      PopNext(s[k], n - 1);
      Place(i, k, n - 1);
      assert SetBelow(s, i + 1) == SetBelow(s, i) + (if BitAt(s, i) then {i} else {});
    }
  }

  lemma LastWeight(s: seq<Word>, k: nat, bits: nat)
    requires |s| >= Longs(bits) && bits % BITS_PER_LONG != 0 && k == bits / BITS_PER_LONG
    ensures |Bits(s, bits)| == |SetBelow(s, BITS_PER_LONG * k)| + HWeight64(And(s[k], LastWordMask(bits)))
  {
    hide Pop, Low, HWeight64, And, Bit, SetBelow;
    BelowGrows(s, k, bits % BITS_PER_LONG);
    LastMask(s[k], bits);
    PopLow(s[k], bits % BITS_PER_LONG, BITS_PER_LONG);
    HWeight64Counts(And(s[k], LastWordMask(bits)));
  }

  lemma WordWeight(s: seq<Word>, k: nat)
    requires k < |s|
    ensures |SetBelow(s, BITS_PER_LONG * (k + 1))| == |SetBelow(s, BITS_PER_LONG * k)| + HWeight64(s[k])
  {
    hide Pop, HWeight64, Bit, SetBelow;
    BelowGrows(s, k, BITS_PER_LONG);
    HWeight64Counts(s[k]);
  }

  /** `__bitmap_weight`: the number of bits set. */
  method Weight(bitmap: array<Word>, bits: nat) returns (w: nat)
    requires bitmap.Length >= Longs(bits)
    ensures w == |Bits(bitmap[..], bits)|
  {
    hide HWeight64;
    w := 0;
    var lim := bits / BITS_PER_LONG;
    ghost var s := bitmap[..];
    var k := 0;
    while k < lim
      invariant 0 <= k <= lim && w == |SetBelow(s, BITS_PER_LONG * k)|
    {
      WordWeight(s, k);
      w := w + HWeight64(bitmap[k]);
      k := k + 1;
    }
    if bits % BITS_PER_LONG != 0 {
      LastWeight(s, k, bits);
      w := w + HWeight64(And(bitmap[k], LastWordMask(bits)));
    }
  }

  // ---- predicates ----

  /** Below word k there is no bit that satisfies p in the given reading of two bitmaps. */
  ghost predicate NoneBelow(s: seq<Word>, t: seq<Word>, n: nat)
    requires n <= BITS_PER_LONG * |s| && n <= BITS_PER_LONG * |t|
  {
    forall i | 0 <= i < n :: !(BitAt(s, i) && BitAt(t, i))
  }

  ghost predicate AgreeBelow(s: seq<Word>, t: seq<Word>, n: nat)
    requires n <= BITS_PER_LONG * |s| && n <= BITS_PER_LONG * |t|
  {
    forall i | 0 <= i < n :: BitAt(s, i) == BitAt(t, i)
  }

  lemma NoneNext(s: seq<Word>, t: seq<Word>, k: nat, n: nat)
    requires k < |s| && k < |t| && n <= BITS_PER_LONG
    ensures NoneBelow(s, t, BITS_PER_LONG * k + n)
      <==> NoneBelow(s, t, BITS_PER_LONG * k) && Low(And(s[k], t[k]), n) == 0
  {
    var at := BITS_PER_LONG * k;
    LowZero(And(s[k], t[k]), n);
    forall b: nat | b < n
      ensures (BitAt(s, at + b) && BitAt(t, at + b)) == Bit(And(s[k], t[k]), b)
    {
      Place(at + b, k, b);
      BitAnd(s[k], t[k], b);
    }
    if NoneBelow(s, t, at) && Low(And(s[k], t[k]), n) == 0 {
      forall i | 0 <= i < at + n
        ensures !(BitAt(s, i) && BitAt(t, i))
      {
        if i >= at {
          assert !Bit(And(s[k], t[k]), i - at);
        }
      }
    }
    if NoneBelow(s, t, at + n) {
      forall b: nat | b < n
        ensures !Bit(And(s[k], t[k]), b)
      {
        assert !(BitAt(s, at + b) && BitAt(t, at + b));
      }
    }
  }

  lemma AgreeNext(s: seq<Word>, t: seq<Word>, k: nat, n: nat)
    requires k < |s| && k < |t| && n <= BITS_PER_LONG
    ensures AgreeBelow(s, t, BITS_PER_LONG * k + n)
      <==> AgreeBelow(s, t, BITS_PER_LONG * k) && Low(Xor(s[k], t[k]), n) == 0
  {
    var at := BITS_PER_LONG * k;
    LowZero(Xor(s[k], t[k]), n);
    forall b: nat | b < n
      ensures (BitAt(s, at + b) != BitAt(t, at + b)) == Bit(Xor(s[k], t[k]), b)
    {
      Place(at + b, k, b);
      BitXor(s[k], t[k], b);
    }
    if AgreeBelow(s, t, at) && Low(Xor(s[k], t[k]), n) == 0 {
      forall i | 0 <= i < at + n
        ensures BitAt(s, i) == BitAt(t, i)
      {
        if i >= at {
          assert !Bit(Xor(s[k], t[k]), i - at);
        }
      }
    }
    if AgreeBelow(s, t, at + n) {
      forall b: nat | b < n
        ensures !Bit(Xor(s[k], t[k]), b)
      {
        assert BitAt(s, at + b) == BitAt(t, at + b);
      }
    }
  }

  lemma WholeWord(w: Word)
    ensures Low(w, BITS_PER_LONG) == w
  {
    Pow2Long();
    LowSmall(w, BITS_PER_LONG);
  }

  lemma XorWhole(v: Word, w: Word)
    ensures Low(Xor(v, w), BITS_PER_LONG) == 0 <==> v == w
  {
    Pow2Long();
    XorBound(v, w, BITS_PER_LONG);
    LowSmall(Xor(v, w), BITS_PER_LONG);
    if Xor(v, w) == 0 {
      forall i: nat
        ensures Bit(v, i) == Bit(w, i)
      {
        BitXor(v, w, i);
        BitZero(i);
      }
      SameBits(v, w);
    } else if v == w {
      forall i: nat
        ensures Bit(Xor(v, w), i) == Bit(0, i)
      {
        BitXor(v, w, i);
        BitZero(i);
      }
      SameBits(Xor(v, w), 0);
    }
  }

  /** `__bitmap_intersects` */
  method Intersects(bitmap1: array<Word>, bitmap2: array<Word>, bits: nat) returns (r: bool)
    requires bitmap1.Length >= Longs(bits) && bitmap2.Length >= Longs(bits)
    ensures r <==> Bits(bitmap1[..], bits) * Bits(bitmap2[..], bits) != {}
  {
    var lim := bits / BITS_PER_LONG;
    ghost var s, t := bitmap1[..], bitmap2[..];
    DisjointMeans(s, t, bits);
    var k := 0;
    while k < lim
      invariant 0 <= k <= lim && NoneBelow(s, t, BITS_PER_LONG * k)
    {
      NoneNext(s, t, k, BITS_PER_LONG);
      WholeWord(And(s[k], t[k]));
      if And(bitmap1[k], bitmap2[k]) != 0 {
        assert !NoneBelow(s, t, BITS_PER_LONG * (k + 1));
        return true;
      }
      k := k + 1;
    }
    if bits % BITS_PER_LONG != 0 {
      NoneNext(s, t, k, bits % BITS_PER_LONG);
      LastMask(And(s[k], t[k]), bits);
      if And(And(bitmap1[k], bitmap2[k]), LastWordMask(bits)) != 0 {
        return true;
      }
    }
    return false;
  }

  lemma DisjointMeans(s: seq<Word>, t: seq<Word>, bits: nat)
    requires |s| >= Longs(bits) && |t| >= Longs(bits)
    ensures bits <= BITS_PER_LONG * |s| && bits <= BITS_PER_LONG * |t|
    ensures NoneBelow(s, t, bits) <==> Bits(s, bits) * Bits(t, bits) == {}
  {
    LongsEnough(bits);
    if !NoneBelow(s, t, bits) {
      var i :| 0 <= i < bits && BitAt(s, i) && BitAt(t, i);
      assert i in Bits(s, bits) * Bits(t, bits);
    }
    if Bits(s, bits) * Bits(t, bits) != {} {
      var i :| i in Bits(s, bits) * Bits(t, bits);
      assert BitAt(s, i) && BitAt(t, i);
    }
  }

  lemma EqualMeans(s: seq<Word>, t: seq<Word>, bits: nat)
    requires |s| >= Longs(bits) && |t| >= Longs(bits)
    ensures bits <= BITS_PER_LONG * |s| && bits <= BITS_PER_LONG * |t|
    ensures AgreeBelow(s, t, bits) <==> Bits(s, bits) == Bits(t, bits)
  {
    LongsEnough(bits);
    forall i | 0 <= i < bits
      ensures i in Bits(s, bits) <==> BitAt(s, i)
      ensures i in Bits(t, bits) <==> BitAt(t, i)
    {
    }
  }

  /** `__bitmap_equal` */
  method Equal(bitmap1: array<Word>, bitmap2: array<Word>, bits: nat) returns (r: bool)
    requires bitmap1.Length >= Longs(bits) && bitmap2.Length >= Longs(bits)
    ensures r <==> Bits(bitmap1[..], bits) == Bits(bitmap2[..], bits)
  {
    var lim := bits / BITS_PER_LONG;
    ghost var s, t := bitmap1[..], bitmap2[..];
    EqualMeans(s, t, bits);
    var k := 0;
    while k < lim
      invariant 0 <= k <= lim && AgreeBelow(s, t, BITS_PER_LONG * k)
    {
      AgreeNext(s, t, k, BITS_PER_LONG);
      XorWhole(s[k], t[k]);
      if bitmap1[k] != bitmap2[k] {
        assert !AgreeBelow(s, t, BITS_PER_LONG * (k + 1));
        return false;
      }
      k := k + 1;
    }
    if bits % BITS_PER_LONG != 0 {
      AgreeNext(s, t, k, bits % BITS_PER_LONG);
      LastMask(Xor(s[k], t[k]), bits);
      if And(Xor(bitmap1[k], bitmap2[k]), LastWordMask(bits)) != 0 {
        return false;
      }
    }
    return true;
  }

  // ---- operations ----

  /** `__bitmap_and`; `dst` may be one of the operands. */
  method AndInto(dst: array<Word>, bitmap1: array<Word>, bitmap2: array<Word>, bits: nat)
    requires dst.Length >= Longs(bits) && bitmap1.Length >= Longs(bits) && bitmap2.Length >= Longs(bits)
    modifies dst
    ensures Bits(dst[..], bits) == old(Bits(bitmap1[..], bits)) * old(Bits(bitmap2[..], bits))
    ensures dst[Longs(bits)..] == old(dst[Longs(bits)..])
  {
    var nr := Longs(bits);
    ghost var s, t := bitmap1[..nr], bitmap2[..nr];
    var k := 0;
    while k < nr
      invariant 0 <= k <= nr
      invariant forall j | k <= j < nr :: bitmap1[j] == s[j] && bitmap2[j] == t[j]
      invariant forall j | 0 <= j < k :: dst[j] == And(s[j], t[j])
      invariant dst[nr..] == old(dst[nr..])
    {
      dst[k] := And(bitmap1[k], bitmap2[k]);
      k := k + 1;
    }
    AndMeans(dst[..], old(bitmap1[..]), old(bitmap2[..]), bits);
  }

  lemma AndMeans(d: seq<Word>, s: seq<Word>, t: seq<Word>, bits: nat)
    requires |d| >= Longs(bits) && |s| >= Longs(bits) && |t| >= Longs(bits)
    requires forall j | 0 <= j < Longs(bits) :: d[j] == And(s[j], t[j])
    ensures Bits(d, bits) == Bits(s, bits) * Bits(t, bits)
  {
    LongsEnough(bits);
    forall i | 0 <= i < bits
      ensures BitAt(d, i) <==> BitAt(s, i) && BitAt(t, i)
    {
      BitAnd(s[i / BITS_PER_LONG], t[i / BITS_PER_LONG], i % BITS_PER_LONG);
    }
  }

  /** `__bitmap_complement`; `dst` may be `src`. */
  method Complement(dst: array<Word>, src: array<Word>, bits: nat)
    requires dst.Length >= Longs(bits) && src.Length >= Longs(bits)
    modifies dst
    ensures forall i: nat | i < bits :: i in Bits(dst[..], bits) <==> i !in old(Bits(src[..], bits))
    ensures dst[Longs(bits)..] == old(dst[Longs(bits)..])
    ensures Clean(dst[..Longs(bits)], bits) == dst[..Longs(bits)]
  {
    var lim := bits / BITS_PER_LONG;
    ghost var s := src[..];
    var k := 0;
    while k < lim
      invariant 0 <= k <= lim
      invariant forall j | k <= j < Longs(bits) :: src[j] == s[j]
      invariant forall j | 0 <= j < k :: dst[j] == Not(s[j])
      invariant dst[Longs(bits)..] == old(dst[Longs(bits)..])
    {
      dst[k] := Not(src[k]);
      k := k + 1;
    }
    if bits % BITS_PER_LONG != 0 {
      LastMask(Not(s[k]), bits);
      dst[k] := And(Not(src[k]), LastWordMask(bits));
      CleanAlready(dst[..Longs(bits)], Not(s[k]), bits);
    }
    ComplementMeans(dst[..], s, bits);
  }

  lemma CleanAlready(d: seq<Word>, w: Word, bits: nat)
    requires |d| == Longs(bits) && bits % BITS_PER_LONG != 0 && d[|d| - 1] == Low(w, bits % BITS_PER_LONG)
    ensures Clean(d, bits) == d
  {
    LastMask(d[|d| - 1], bits);
    LowLow(w, bits % BITS_PER_LONG, bits % BITS_PER_LONG);
  }

  lemma ComplementMeans(d: seq<Word>, s: seq<Word>, bits: nat)
    requires |d| >= Longs(bits) && |s| >= Longs(bits)
    requires forall j | 0 <= j < bits / BITS_PER_LONG :: d[j] == Not(s[j])
    requires bits % BITS_PER_LONG != 0 ==>
      d[bits / BITS_PER_LONG] == Low(Not(s[bits / BITS_PER_LONG]), bits % BITS_PER_LONG)
    ensures forall i: nat | i < bits :: i in Bits(d, bits) <==> i !in Bits(s, bits)
  {
    LongsEnough(bits);
    Pow2Long();
    forall i | 0 <= i < bits
      ensures BitAt(d, i) <==> !BitAt(s, i)
    {
      var k, b := i / BITS_PER_LONG, i % BITS_PER_LONG;
      BitComplement(s[k], BITS_PER_LONG, b);
      if k == bits / BITS_PER_LONG {
        BitLow(Not(s[k]), bits % BITS_PER_LONG, b);
      }
    }
  }

  /** `__bitmap_empty` */
  method Empty(bitmap: array<Word>, bits: nat) returns (r: bool)
    requires bitmap.Length >= Longs(bits)
    ensures r <==> Bits(bitmap[..], bits) == {}
  {
    var lim := bits / BITS_PER_LONG;
    ghost var s := bitmap[..];
    DisjointMeans(s, s, bits);
    assert Bits(s, bits) * Bits(s, bits) == Bits(s, bits);
    var k := 0;
    while k < lim
      invariant 0 <= k <= lim && NoneBelow(s, s, BITS_PER_LONG * k)
    {
      NoneNext(s, s, k, BITS_PER_LONG);
      AndSelf(s[k]);
      WholeWord(s[k]);
      if bitmap[k] != 0 {
        assert !NoneBelow(s, s, BITS_PER_LONG * (k + 1));
        return false;
      }
      k := k + 1;
    }
    if bits % BITS_PER_LONG != 0 {
      NoneNext(s, s, k, bits % BITS_PER_LONG);
      AndSelf(s[k]);
      LastMask(s[k], bits);
      if And(bitmap[k], LastWordMask(bits)) != 0 {
        return false;
      }
    }
    return true;
  }

  lemma {:induction false} AndSelf(w: nat)
    ensures And(w, w) == w
  {
    if w > 0 {
      AndSelf(w / 2);
    }
  }

  // ---- single bits ----

  /** `set_bit` */
  method SetBit(nr: nat, addr: array<Word>)
    requires nr < BITS_PER_LONG * addr.Length
    modifies addr
    ensures SetBelow(addr[..], BITS_PER_LONG * addr.Length) == old(SetBelow(addr[..], BITS_PER_LONG * addr.Length)) + {nr}
    ensures forall j | 0 <= j < addr.Length && j != nr / BITS_PER_LONG :: addr[j] == old(addr[j])
  {
    var p := nr / BITS_PER_LONG;
    MaskIsWord(nr % BITS_PER_LONG);
    BitIsWord(nr % BITS_PER_LONG);
    ghost var s := addr[..];
    addr[p] := OrWord(addr[p], Pow2(nr % BITS_PER_LONG));
    forall i | 0 <= i < BITS_PER_LONG * |s|
      ensures BitAt(addr[..], i) <==> BitAt(s, i) || i == nr
    {
      if i / BITS_PER_LONG == p {
        BitOr(s[p], Pow2(nr % BITS_PER_LONG), i % BITS_PER_LONG);
        BitPow2(nr % BITS_PER_LONG, i % BITS_PER_LONG);
      }
    }
  }

  lemma BitIsWord(b: nat)
    requires b < BITS_PER_LONG
    ensures Pow2(b) < WORD_SIZE
  {
    Pow2Monotone(b, BITS_PER_LONG);
    Pow2Long();
  }

  /** `clear_bit` */
  method ClearBit(nr: nat, addr: array<Word>)
    requires nr < BITS_PER_LONG * addr.Length
    modifies addr
    ensures SetBelow(addr[..], BITS_PER_LONG * addr.Length) == old(SetBelow(addr[..], BITS_PER_LONG * addr.Length)) - {nr}
  {
    var p, b := nr / BITS_PER_LONG, nr % BITS_PER_LONG;
    BitIsWord(b);
    ghost var s := addr[..];
    addr[p] := And(addr[p], Not(Pow2(b)));
    Pow2Long();
    forall i | 0 <= i < BITS_PER_LONG * |s|
      ensures BitAt(addr[..], i) <==> BitAt(s, i) && i != nr
    {
      if i / BITS_PER_LONG == p {
        BitAnd(s[p], Not(Pow2(b)), i % BITS_PER_LONG);
        BitComplement(Pow2(b), BITS_PER_LONG, i % BITS_PER_LONG);
        BitPow2(b, i % BITS_PER_LONG);
      }
    }
  }
}
