/** Multi-word bitmaps of bitmap.c and bitmap.h: arrays of 64-bit words that
    the operations change in place.  A bitmap of `bits` bits occupies
    `Longs(bits)` words; bits at and above `bits` in the last word are
    "unused" and may hold anything. */
module Bitmap {
  import opened Words

  /** BITS_TO_LONGS */
  function Longs(bits: nat): nat {
    (bits + BITS_PER_LONG - 1) / BITS_PER_LONG
  }

  /** The number a sequence of words stands for, least significant word first. */
  function Value(s: seq<Word>): nat {
    if s == [] then 0 else s[0] + Up(Value(s[1..]), BITS_PER_LONG)
  }

  /** BITMAP_LAST_WORD_MASK */
  function LastWordMask(bits: nat): (m: Word)
  {
    var left := bits % BITS_PER_LONG;
    MaskIsWord(left);
    if left != 0 then Pow2(left) - 1 else WORD_SIZE - 1
  }

  /** The words with the unused bits cleared. */
  function Clean(s: seq<Word>, bits: nat): (t: seq<Word>)
    requires |s| == Longs(bits)
    ensures |t| == |s|
  {
    if bits % BITS_PER_LONG == 0 then s
    else s[|s| - 1 := And(s[|s| - 1], LastWordMask(bits))]
  }

  function Zeros(n: nat): (s: seq<Word>)
    ensures |s| == n && forall i | 0 <= i < n :: s[i] == 0
  {
    seq(n, _ => 0)
  }

  // ---- words and values ----

  lemma MaskIsWord(left: nat)
    requires left < BITS_PER_LONG
    ensures Pow2(left) - 1 < WORD_SIZE
  {
    Pow2Monotone(left, BITS_PER_LONG);
    Pow2Long();
  }

  lemma {:induction false} ValueAppend(a: seq<Word>, b: seq<Word>)
    ensures Value(a + b) == Value(a) + Up(Value(b), BITS_PER_LONG * |a|)
  {
    if a == [] {
      assert a + b == b;
    } else {
      ValueAppend(a[1..], b);
      assert (a + b)[1..] == a[1..] + b;
      UpPlus(Value(a[1..]), Up(Value(b), BITS_PER_LONG * (|a| - 1)), BITS_PER_LONG);
      UpUp(Value(b), BITS_PER_LONG * (|a| - 1), BITS_PER_LONG);
    }
  }

  lemma {:induction false} ValueBound(s: seq<Word>)
    ensures Value(s) < Pow2(BITS_PER_LONG * |s|)
  {
    if s != [] {
      ValueBound(s[1..]);
      Pow2Long();
      UpBelow(Value(s[1..]), BITS_PER_LONG * (|s| - 1), BITS_PER_LONG);
    }
  }

  lemma ValueSingle(w: Word)
    ensures Value([w]) == w
  {
    UpZero(BITS_PER_LONG);
  }

  lemma {:induction false} ValueZeros(n: nat)
    ensures Value(Zeros(n)) == 0
  {
    if n > 0 {
      ValueZeros(n - 1);
      assert Zeros(n)[1..] == Zeros(n - 1);
      UpZero(BITS_PER_LONG);
    }
  }

  /** Dropping words divides, keeping words takes the remainder. */
  lemma ValueSplit(s: seq<Word>, k: nat)
    requires k <= |s|
    ensures Value(s[..k]) == Low(Value(s), BITS_PER_LONG * k)
    ensures Value(s[k..]) == Down(Value(s), BITS_PER_LONG * k)
  {
    assert s == s[..k] + s[k..];
    ValueAppend(s[..k], s[k..]);
    ValueBound(s[..k]);
    Join(Value(s), Value(s[..k]), Value(s[k..]), BITS_PER_LONG * k);
  }

  lemma ValueWord(s: seq<Word>, k: nat)
    requires k < |s|
    ensures Low(Down(Value(s), BITS_PER_LONG * k), BITS_PER_LONG) == s[k]
  {
    ValueSplit(s, k);
    var t := s[k..];
    Pow2Long();
    LowAddUp(t[0], Value(t[1..]), BITS_PER_LONG);
    LowSmall(t[0], BITS_PER_LONG);
  }

  /** Bit i of the value is bit i mod 64 of word i / 64. */
  lemma ValueBit(s: seq<Word>, i: nat)
    ensures Bit(Value(s), i) <==> i / BITS_PER_LONG < |s| && Bit(s[i / BITS_PER_LONG], i % BITS_PER_LONG)
  {
    var k, b := i / BITS_PER_LONG, i % BITS_PER_LONG;
    if k < |s| {
      ValueWord(s, k);
      BitDown(Value(s), BITS_PER_LONG * k, b);
      BitLow(Down(Value(s), BITS_PER_LONG * k), BITS_PER_LONG, b);
    } else {
      ValueBound(s);
      BitAbove(Value(s), BITS_PER_LONG * |s|, i);
    }
  }

  lemma ValueSnoc(s: seq<Word>, w: Word)
    ensures Value(s + [w]) == Value(s) + Up(w, BITS_PER_LONG * |s|)
  {
    ValueAppend(s, [w]);
    ValueSingle(w);
  }

  lemma LongsTop(bits: nat)
    requires bits % BITS_PER_LONG != 0
    ensures Longs(bits) >= 1
    ensures bits == BITS_PER_LONG * (Longs(bits) - 1) + bits % BITS_PER_LONG
  {
  }

  /** Cleaning the last word keeps exactly the low `bits` bits. */
  lemma CleanValue(s: seq<Word>, bits: nat)
    requires |s| == Longs(bits)
    ensures Value(Clean(s, bits)) == Low(Value(s), bits)
  {
    var left := bits % BITS_PER_LONG;
    if left == 0 {
      assert s[..|s|] == s;
      ValueSplit(s, |s|);
    } else {
      LongsTop(bits);
      CleanTop(s[..|s| - 1], s[|s| - 1], left);
      assert s == s[..|s| - 1] + [s[|s| - 1]];
      AndLowMask(s[|s| - 1], left);
      assert Clean(s, bits) == s[..|s| - 1] + [Low(s[|s| - 1], left)];
    }
  }

  lemma CleanTop(s: seq<Word>, w: Word, left: nat)
    ensures Value(s + [Low(w, left)]) == Low(Value(s + [w]), BITS_PER_LONG * |s| + left)
  {
    var at := BITS_PER_LONG * |s|;
    ValueSnoc(s, w);
    ValueSnoc(s, Low(w, left));
    ValueBound(s);
    Join(Value(s + [w]), Value(s), w, at);
    LowPlus(Value(s + [w]), at, left);
  }

  function OrWord(x: Word, y: Word): Word {
    Pow2Long();
    OrBound(x, y, BITS_PER_LONG);
    Or(x, y)
  }

  lemma LongsEnough(bits: nat)
    ensures bits <= BITS_PER_LONG * Longs(bits)
  {
  }
}
