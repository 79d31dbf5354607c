/** The multi-word shifts of bitmap.c.  Each is a loop over words that takes
    its neighbours' bits along; as numbers they multiply by a power of two
    modulo the bitmap's size and divide by a power of two. */
module Shift {
  import opened Words
  import opened Bitmap

  // ---- left ----

  /** Word k of a shift by less than a word: the top bits of the word below under the shifted word. */
  function LeftWord(u: seq<Word>, k: nat, rem: nat): Word
    requires k < |u| && rem < BITS_PER_LONG
  {
    var lower := if rem != 0 && k > 0 then u[k - 1] else 0;
    OrWord(Shr(lower, BITS_PER_LONG - rem), Shl(u[k], rem))
  }

  function LeftWords(u: seq<Word>, rem: nat): (r: seq<Word>)
    requires rem < BITS_PER_LONG
    ensures |r| == |u|
  {
    seq(|u|, k requires 0 <= k < |u| => LeftWord(u, k, rem))
  }

  /** Zero words below, shifted words above. */
  function RawLeft(u: seq<Word>, shift: nat): (r: seq<Word>)
    requires shift / BITS_PER_LONG <= |u|
    ensures |r| == |u|
  {
    var off := shift / BITS_PER_LONG;
    Zeros(off) + LeftWords(u[..|u| - off], shift % BITS_PER_LONG)
  }

  /** What `__bitmap_shift_left` leaves in the words of a bitmap. */
  function ShiftedLeft(s: seq<Word>, shift: nat, bits: nat): (r: seq<Word>)
    requires |s| == Longs(bits) && shift / BITS_PER_LONG <= |s|
    ensures |r| == |s|
  {
    Clean(RawLeft(Clean(s, bits), shift), bits)
  }

  lemma ShlIs(w: Word, rem: nat)
    requires rem < BITS_PER_LONG
    ensures Shl(w, rem) == Up(Low(w, BITS_PER_LONG - rem), rem)
  {
    LowUp(w, rem, BITS_PER_LONG - rem);
  }

  lemma ShrIs(w: Word, rem: nat)
    requires rem < BITS_PER_LONG
    ensures Shr(w, BITS_PER_LONG - rem) == Down(Up(w, rem), BITS_PER_LONG)
    ensures Shr(w, BITS_PER_LONG - rem) < Pow2(rem)
  {
    LowAddUp(0, w, rem);
    LowSmall(0, rem);
    LowBelow(Down(w, BITS_PER_LONG - rem), rem);
    DownDown(Up(w, rem), rem, BITS_PER_LONG - rem);
    Pow2Long();
    LowSmall(w, BITS_PER_LONG);
    DownLow(w, BITS_PER_LONG - rem, rem);
  }

  /** The two halves a word falls into when it is shifted left. */
  lemma ShiftWord(w: Word, rem: nat)
    requires rem < BITS_PER_LONG
    ensures Up(w, rem) == Shl(w, rem) + Up(Shr(w, BITS_PER_LONG - rem), BITS_PER_LONG)
    ensures Shl(w, rem) == Up(Low(w, BITS_PER_LONG - rem), rem)
    ensures Shr(w, BITS_PER_LONG - rem) < Pow2(rem)
  {
    ShlIs(w, rem);
    ShrIs(w, rem);
    Split(Up(w, rem), BITS_PER_LONG);
  }

  /** The bits that fall out of the first n words. */
  function Carry(u: seq<Word>, n: nat, rem: nat): Word
    requires n <= |u| && rem < BITS_PER_LONG
  {
    if rem != 0 && n > 0 then Shr(u[n - 1], BITS_PER_LONG - rem) else 0
  }

  lemma LeftWordIs(u: seq<Word>, k: nat, rem: nat)
    requires k < |u| && rem < BITS_PER_LONG
    ensures LeftWord(u, k, rem) == Carry(u, k, rem) + Shl(u[k], rem)
  {
    ShiftWord(u[k], rem);
    if rem != 0 && k > 0 {
      ShiftWord(u[k - 1], rem);
    } else {
      Pow2Long();
      LowSmall(0, BITS_PER_LONG - rem);
    }
    OrDisjoint(Carry(u, k, rem), Low(u[k], BITS_PER_LONG - rem), rem);
  }

  lemma {:induction false} LeftWordsValue(u: seq<Word>, n: nat, rem: nat)
    requires n <= |u| && rem < BITS_PER_LONG
    ensures Value(LeftWords(u, rem)[..n]) + Up(Carry(u, n, rem), BITS_PER_LONG * n) == Up(Value(u[..n]), rem)
  {
    if n == 0 {
      UpZero(rem);
    } else {
      var m := n - 1;
      var r := LeftWords(u, rem);
      LeftWordsValue(u, m, rem);
      assert u[..n] == u[..m] + [u[m]];
      assert r[..n] == r[..m] + [r[m]];
      LeftStep(u, m, rem, r[..m], r[m]);
    }
  }

  lemma LeftStep(u: seq<Word>, m: nat, rem: nat, done: seq<Word>, w: Word)
    requires m < |u| && rem < BITS_PER_LONG && |done| == m && w == LeftWord(u, m, rem)
    requires Value(done) + Up(Carry(u, m, rem), BITS_PER_LONG * m) == Up(Value(u[..m]), rem)
    ensures Value(done + [w]) + Up(Carry(u, m + 1, rem), BITS_PER_LONG * (m + 1)) == Up(Value(u[..m] + [u[m]]), rem)
  {
    hide Value, Up, Shl, Shr, LeftWord;
    var x := u[m];
    ValueSnoc(done, w);
    ValueSnoc(u[..m], x);
    LeftWordIs(u, m, rem);
    LeftNumbers(Value(u[..m]), x, Carry(u, m, rem), Value(done), BITS_PER_LONG * m, rem);
    if rem == 0 {
      UpZero(BITS_PER_LONG * (m + 1));
    }
  }

  /** One more word `x`, at position `at`: the carry below it is absorbed, its own carry goes on. */
  lemma LeftNumbers(v: nat, x: Word, c: nat, body: nat, at: nat, rem: nat)
    requires rem < BITS_PER_LONG && body + Up(c, at) == Up(v, rem)
    ensures body + Up(c + Shl(x, rem), at) + Up(Shr(x, BITS_PER_LONG - rem), at + BITS_PER_LONG) == Up(v + Up(x, at), rem)
    ensures rem == 0 ==> Shr(x, BITS_PER_LONG - rem) == 0
  {
    var hi := Shr(x, BITS_PER_LONG - rem);
    ShiftWord(x, rem);
    UpPlus(v, Up(x, at), rem);
    UpUp(x, at, rem);
    UpUp(x, rem, at);
    UpPlus(Shl(x, rem), Up(hi, BITS_PER_LONG), at);
    UpUp(hi, BITS_PER_LONG, at);
    UpPlus(c, Shl(x, rem), at);
  }

  lemma RawValue(u: seq<Word>, off: nat, rem: nat, n: nat)
    requires off + n == |u| && rem < BITS_PER_LONG
    ensures Value(Zeros(off) + LeftWords(u[..n], rem)) == Up(Value(LeftWords(u[..n], rem)), BITS_PER_LONG * off)
    ensures Value(LeftWords(u[..n], rem)) + Up(Carry(u[..n], n, rem), BITS_PER_LONG * n)
         == Up(Low(Value(u), BITS_PER_LONG * n), rem)
  {
    LeftWordsValue(u[..n], n, rem);
    assert u[..n][..n] == u[..n];
    assert LeftWords(u[..n], rem)[..n] == LeftWords(u[..n], rem);
    ValueAppend(Zeros(off), LeftWords(u[..n], rem));
    ValueZeros(off);
    ValueSplit(u, n);
  }

  lemma RawLow(u: seq<Word>, shift: nat, bits: nat)
    requires shift / BITS_PER_LONG <= |u| && bits <= BITS_PER_LONG * |u|
    ensures Low(Value(RawLeft(u, shift)), bits) == Low(Up(Value(u), shift), bits)
  {
    var off, rem := shift / BITS_PER_LONG, shift % BITS_PER_LONG;
    var n := |u| - off;
    RawValue(u, off, rem, n);
    RawShift(Value(u), BITS_PER_LONG * n, BITS_PER_LONG * off, rem, Value(LeftWords(u[..n], rem)), Carry(u[..n], n, rem), bits);
  }

  lemma TimesMod(x: nat, k: nat, n: nat)
    ensures Low(Up(x, k), n) == (x * Pow2(k)) % Pow2(n)
  {
    UpIsTimes(x, k);
    LowIsRemainder(Up(x, k), n);
  }

  /** Left shift is multiplication by 2^shift modulo 2^bits. */
  lemma ShiftedLeftValue(s: seq<Word>, shift: nat, bits: nat)
    requires |s| == Longs(bits) && shift / BITS_PER_LONG <= |s|
    ensures Value(ShiftedLeft(s, shift, bits)) == Low(Up(Value(s), shift), bits)
  {
    var u := Clean(s, bits);
    LongsEnough(bits);
    CleanValue(RawLeft(u, shift), bits);
    RawLow(u, shift, bits);
    CleanValue(s, bits);
    LowUpLow(Value(s), shift, bits);
  }

  lemma ShiftedLeftMultiplies(s: seq<Word>, shift: nat, bits: nat)
    requires |s| == Longs(bits) && shift / BITS_PER_LONG <= |s|
    ensures Value(ShiftedLeft(s, shift, bits)) == (Value(s) * Pow2(shift)) % Pow2(bits)
  {
    ShiftedLeftValue(s, shift, bits);
    TimesMod(Value(s), shift, bits);
  }

  /** `v` is shifted by rem bits and W more; the bits from N up, `hi`, and the carry `c` end above `bits`. */
  lemma RawShift(v: nat, N: nat, W: nat, rem: nat, body: nat, c: nat, bits: nat)
    requires bits <= N + W
    requires body + Up(c, N) == Up(Low(v, N), rem)
    ensures Low(Up(body, W), bits) == Low(Up(v, W + rem), bits)
  {
    var k := c + Up(Down(v, N), rem);
    RawSplit(v, N, rem, body, c);
    UpPlus(body, Up(k, N), W);
    UpUp(k, N, W);
    UpUp(v, rem, W);
    // the extra part is a multiple of 2^bits
    UpUp(k, N + W - bits, bits);
    LowAddUp(Up(body, W), Up(k, N + W - bits), bits);
  }

  lemma RawSplit(v: nat, N: nat, rem: nat, body: nat, c: nat)
    requires body + Up(c, N) == Up(Low(v, N), rem)
    ensures Up(v, rem) == body + Up(c + Up(Down(v, N), rem), N)
  {
    var hi := Down(v, N);
    Split(v, N);
    UpPlus(Low(v, N), Up(hi, N), rem);
    UpUp(hi, N, rem);
    UpUp(hi, rem, N);
    UpPlus(c, Up(hi, rem), N);
  }

  /** Bits at and above the size do not matter to a left shift. */
  lemma LowUpLow(x: nat, shift: nat, bits: nat)
    ensures Low(Up(Low(x, bits), shift), bits) == Low(Up(x, shift), bits)
  {
    var hi := Down(x, bits);
    Split(x, bits);
    UpPlus(Low(x, bits), Up(hi, bits), shift);
    UpUp(hi, bits, shift);
    UpUp(hi, shift, bits);
    LowAddUp(Up(Low(x, bits), shift), Up(hi, shift), bits);
  }

  /** The word of the result that comes from word k of the source. */
  function LeftResultWord(s: seq<Word>, shift: nat, bits: nat, k: nat): Word
    requires |s| == Longs(bits) && shift / BITS_PER_LONG <= |s| && k < |s| - shift / BITS_PER_LONG
  {
    var w := LeftWord(Clean(s, bits), k, shift % BITS_PER_LONG);
    if bits % BITS_PER_LONG != 0 && k + shift / BITS_PER_LONG == |s| - 1 then And(w, LastWordMask(bits)) else w
  }

  lemma ShiftedLeftWords(s: seq<Word>, shift: nat, bits: nat)
    requires |s| == Longs(bits) && shift / BITS_PER_LONG <= |s|
    ensures forall k | 0 <= k < shift / BITS_PER_LONG :: ShiftedLeft(s, shift, bits)[k] == 0
    ensures forall k | 0 <= k < |s| - shift / BITS_PER_LONG ::
              ShiftedLeft(s, shift, bits)[k + shift / BITS_PER_LONG] == LeftResultWord(s, shift, bits, k)
  {
  }

  /** One round of the loop of `__bitmap_shift_left`. */
  method ShiftLeftWord(dst: array<Word>, src: array<Word>, k: nat, shift: nat, bits: nat, ghost s: seq<Word>)
    requires |s| == Longs(bits) <= dst.Length && Longs(bits) <= src.Length
    requires shift / BITS_PER_LONG <= |s| && k < |s| - shift / BITS_PER_LONG
    requires src[k] == s[k] && (k > 0 ==> src[k - 1] == s[k - 1])
    modifies dst
    ensures dst[k + shift / BITS_PER_LONG] == LeftResultWord(s, shift, bits, k)
    ensures forall j | 0 <= j < dst.Length && j != k + shift / BITS_PER_LONG :: dst[j] == old(dst[j])
  {
    var lim, left := Longs(bits), bits % BITS_PER_LONG;
    var off, rem := shift / BITS_PER_LONG, shift % BITS_PER_LONG;
    var lower := if rem != 0 && k > 0 then src[k - 1] else 0;
    var upper := src[k];
    if left != 0 && k == lim - 1 {
      upper := And(upper, LastWordMask(bits));
    }
    dst[k + off] := OrWord(Shr(lower, BITS_PER_LONG - rem), Shl(upper, rem));
    if left != 0 && k + off == lim - 1 {
      dst[k + off] := And(dst[k + off], LastWordMask(bits));
    }
  }

  /** memset(dst, 0, n words) at word `from`. */
  method ZeroWords(dst: array<Word>, from: nat, n: nat)
    requires from + n <= dst.Length
    modifies dst
    ensures dst[..] == old(dst[..from]) + Zeros(n) + old(dst[from + n..])
  {
    for i := 0 to n
      invariant dst[..] == old(dst[..from]) + Zeros(i) + old(dst[from + i..])
    {
      dst[from + i] := 0;
    }
  }

  method ShiftLeftLoop(dst: array<Word>, src: array<Word>, shift: nat, bits: nat, ghost s: seq<Word>, ghost target: seq<Word>)
    requires |target| == |s| == Longs(bits) <= dst.Length && Longs(bits) <= src.Length
    requires shift / BITS_PER_LONG <= |s| && src[..|s|] == s
    requires forall k | 0 <= k < |s| - shift / BITS_PER_LONG ::
               target[k + shift / BITS_PER_LONG] == LeftResultWord(s, shift, bits, k)
    modifies dst
    ensures forall j | shift / BITS_PER_LONG <= j < |s| :: dst[j] == target[j]
    ensures forall j | |s| <= j < dst.Length :: dst[j] == old(dst[j])
  {
    var lim, off := Longs(bits), shift / BITS_PER_LONG;
    var k := lim - off - 1;
    while k >= 0
      invariant -1 <= k < lim - off
      invariant forall j | 0 <= j <= k :: src[j] == s[j]
      invariant forall j | k + off < j < lim :: dst[j] == target[j]
      invariant forall j | lim <= j < dst.Length :: dst[j] == old(dst[j])
    {
      ShiftLeftWord(dst, src, k, shift, bits, s);
      k := k - 1;
    }
  }

  /** `__bitmap_shift_left`; `dst` and `src` may be the same array. */
  method ShiftLeft(dst: array<Word>, src: array<Word>, shift: nat, bits: nat)
    requires Longs(bits) <= dst.Length && Longs(bits) <= src.Length
    requires shift / BITS_PER_LONG <= Longs(bits)
    modifies dst
    ensures dst[..] == ShiftedLeft(old(src[..Longs(bits)]), shift, bits) + old(dst[Longs(bits)..])
    ensures Value(dst[..Longs(bits)]) == (Value(old(src[..Longs(bits)])) * Pow2(shift)) % Pow2(bits)
  {
    ghost var s, tail := src[..Longs(bits)], dst[Longs(bits)..];
    ghost var target := ShiftedLeft(s, shift, bits);
    ShiftedLeftWords(s, shift, bits);
    ShiftLeftLoop(dst, src, shift, bits, s, target);
    ZeroWords(dst, 0, shift / BITS_PER_LONG);
    assert target == Zeros(shift / BITS_PER_LONG) + target[shift / BITS_PER_LONG..];
    assert dst[..Longs(bits)] == target;
    ShiftedLeftMultiplies(s, shift, bits);
  }

  // ---- right ----

  /** Word k of a shift by less than a word: the low bits of the word above over the shifted word. */
  function RightWord(u: seq<Word>, k: nat, rem: nat): Word
    requires k < |u| && rem < BITS_PER_LONG
  {
    var upper := if rem != 0 && k + 1 < |u| then u[k + 1] else 0;
    OrWord(Shl(upper, BITS_PER_LONG - rem), Shr(u[k], rem))
  }

  function RightWords(u: seq<Word>, rem: nat): (r: seq<Word>)
    requires rem < BITS_PER_LONG
    ensures |r| == |u|
  {
    seq(|u|, k requires 0 <= k < |u| => RightWord(u, k, rem))
  }

  /** What `__bitmap_shift_right` leaves in the words of a bitmap. */
  function ShiftedRight(s: seq<Word>, shift: nat, bits: nat): (r: seq<Word>)
    requires |s| == Longs(bits) && shift / BITS_PER_LONG <= |s|
    ensures |r| == |s|
  {
    var off := shift / BITS_PER_LONG;
    RightWords(Clean(s, bits)[off..], shift % BITS_PER_LONG) + Zeros(off)
  }

  lemma RightWordIs(x: Word, upper: Word, rem: nat)
    requires rem < BITS_PER_LONG && (rem == 0 ==> upper == 0)
    ensures OrWord(Shl(upper, BITS_PER_LONG - rem), Shr(x, rem)) == Down(x, rem) + Up(Low(upper, rem), BITS_PER_LONG - rem)
  {
    Pow2Long();
    LowSmall(x, BITS_PER_LONG);
    DownLow(x, rem, BITS_PER_LONG - rem);
    LowBelow(Down(x, rem), BITS_PER_LONG - rem);
    LowUp(upper, BITS_PER_LONG - rem, rem);
    OrDisjoint(Down(x, rem), Low(upper, rem), BITS_PER_LONG - rem);
  }

  /** Shifting x + t * 2^64 right by rem bits. */
  lemma RightNumbers(x: nat, t: nat, rem: nat)
    requires rem < BITS_PER_LONG
    ensures Down(x + Up(t, BITS_PER_LONG), rem)
         == Down(x, rem) + Up(Low(t, rem), BITS_PER_LONG - rem) + Up(Down(t, rem), BITS_PER_LONG)
  {
    UpUp(t, BITS_PER_LONG - rem, rem);
    LowAddUp(x, Up(t, BITS_PER_LONG - rem), rem);
    Split(t, rem);
    UpPlus(Up(Down(t, rem), rem), Low(t, rem), BITS_PER_LONG - rem);
    UpUp(Down(t, rem), rem, BITS_PER_LONG - rem);
  }

  lemma {:induction false} RightWordsValue(u: seq<Word>, rem: nat)
    requires rem < BITS_PER_LONG
    ensures Value(RightWords(u, rem)) == Down(Value(u), rem)
  {
    if u == [] {
    } else {
      var t := u[1..];
      RightWordsValue(t, rem);
      assert RightWords(u, rem)[1..] == RightWords(t, rem);
      RightNumbers(u[0], Value(t), rem);
      var upper := if rem != 0 && 1 < |u| then u[1] else 0;
      RightWordIs(u[0], upper, rem);
      LowOfValue(t, upper, rem);
    }
  }

  lemma LowOfValue(t: seq<Word>, upper: Word, rem: nat)
    requires rem < BITS_PER_LONG && upper == if rem != 0 && 0 < |t| then t[0] else 0
    ensures Low(Value(t), rem) == Low(upper, rem)
  {
    if rem != 0 && t != [] {
      UpUp(Value(t[1..]), BITS_PER_LONG - rem, rem);
      LowAddUp(t[0], Up(Value(t[1..]), BITS_PER_LONG - rem), rem);
    }
  }

  /** Right shift is division by 2^shift of the bits below the size. */
  lemma ShiftedRightValue(s: seq<Word>, shift: nat, bits: nat)
    requires |s| == Longs(bits) && shift / BITS_PER_LONG <= |s|
    ensures Value(ShiftedRight(s, shift, bits)) == Down(Low(Value(s), bits), shift)
  {
    CleanValue(s, bits);
    RightRaw(Clean(s, bits), shift / BITS_PER_LONG, shift % BITS_PER_LONG);
  }

  lemma ShiftedRightDivides(s: seq<Word>, shift: nat, bits: nat)
    requires |s| == Longs(bits) && shift / BITS_PER_LONG <= |s|
    ensures Value(ShiftedRight(s, shift, bits)) == (Value(s) % Pow2(bits)) / Pow2(shift)
  {
    ShiftedRightValue(s, shift, bits);
    ModDiv(Value(s), shift, bits);
  }

  lemma RightRaw(u: seq<Word>, off: nat, rem: nat)
    requires off <= |u| && rem < BITS_PER_LONG
    ensures Value(RightWords(u[off..], rem) + Zeros(off)) == Down(Value(u), BITS_PER_LONG * off + rem)
  {
    PadZeros(RightWords(u[off..], rem), off);
    RightWordsValue(u[off..], rem);
    ValueSplit(u, off);
    DownDown(Value(u), BITS_PER_LONG * off, rem);
  }

  lemma PadZeros(s: seq<Word>, n: nat)
    ensures Value(s + Zeros(n)) == Value(s)
  {
    ValueAppend(s, Zeros(n));
    ValueZeros(n);
    UpZero(BITS_PER_LONG * |s|);
  }

  lemma ModDiv(x: nat, k: nat, n: nat)
    ensures Down(Low(x, n), k) == (x % Pow2(n)) / Pow2(k)
  {
    LowIsRemainder(x, n);
    DownIsQuotient(Low(x, n), k);
  }

  /** Neither shift leaves unused bits set. */
  lemma ShiftsAreClean(s: seq<Word>, shift: nat, bits: nat)
    requires |s| == Longs(bits) && shift / BITS_PER_LONG <= |s|
    ensures Value(ShiftedLeft(s, shift, bits)) < Pow2(bits)
    ensures Value(ShiftedRight(s, shift, bits)) < Pow2(bits)
  {
    ShiftedLeftValue(s, shift, bits);
    LowBelow(Up(Value(s), shift), bits);
    ShiftedRightValue(s, shift, bits);
    LowBelow(Value(s), bits);
  }

  /** The final mask of the right shift never removes anything. */
  lemma RightMaskIdle(u: Word, rem: nat, left: nat)
    requires u < Pow2(left) && rem < BITS_PER_LONG
    ensures And(OrWord(Shl(0, BITS_PER_LONG - rem), Shr(u, rem)), Pow2(left) - 1) == OrWord(Shl(0, BITS_PER_LONG - rem), Shr(u, rem))
  {
    RightWordIs(u, 0, rem);
    UpZero(BITS_PER_LONG - rem);
    LowSmall(Down(u, rem), left);
    AndLowMask(Down(u, rem), left);
  }

  lemma CleanLast(s: seq<Word>, bits: nat)
    requires |s| == Longs(bits) && bits % BITS_PER_LONG != 0
    ensures s != [] && Clean(s, bits)[|s| - 1] < Pow2(bits % BITS_PER_LONG)
  {
    var w := s[|s| - 1];
    AndLowMask(w, bits % BITS_PER_LONG);
    LowBelow(w, bits % BITS_PER_LONG);
  }

  /** One round of the loop of `__bitmap_shift_right`. */
  method ShiftRightWord(dst: array<Word>, src: array<Word>, k: nat, shift: nat, bits: nat, ghost s: seq<Word>)
    requires |s| == Longs(bits) <= dst.Length && Longs(bits) <= src.Length
    requires k + shift / BITS_PER_LONG < |s|
    requires forall j | k + shift / BITS_PER_LONG <= j < |s| :: src[j] == s[j]
    modifies dst
    ensures dst[k] == RightWord(Clean(s, bits)[shift / BITS_PER_LONG..], k, shift % BITS_PER_LONG)
    ensures forall j | 0 <= j < dst.Length && j != k :: dst[j] == old(dst[j])
  {
    var lim, left := Longs(bits), bits % BITS_PER_LONG;
    var off, rem := shift / BITS_PER_LONG, shift % BITS_PER_LONG;
    var upper;
    if rem == 0 || off + k + 1 >= lim {
      upper := 0;
    } else {
      upper := src[off + k + 1];
      if off + k + 1 == lim - 1 && left != 0 {
        upper := And(upper, LastWordMask(bits));
      }
    }
    var lower := src[off + k];
    if left != 0 && off + k == lim - 1 {
      lower := And(lower, LastWordMask(bits));
    }
    dst[k] := OrWord(Shl(upper, BITS_PER_LONG - rem), Shr(lower, rem));
    if left != 0 && k == lim - 1 {
      CleanLast(s, bits);
      RightMaskIdle(lower, rem, left);
      dst[k] := And(dst[k], LastWordMask(bits));
    }
  }

  method ShiftRightLoop(dst: array<Word>, src: array<Word>, shift: nat, bits: nat, ghost s: seq<Word>, ghost target: seq<Word>)
    requires |s| == Longs(bits) <= dst.Length && Longs(bits) <= src.Length
    requires shift / BITS_PER_LONG <= |s| && src[..|s|] == s
    requires target == RightWords(Clean(s, bits)[shift / BITS_PER_LONG..], shift % BITS_PER_LONG)
    modifies dst
    ensures forall j | 0 <= j < |target| :: dst[j] == target[j]
    ensures forall j | |target| <= j < dst.Length :: dst[j] == old(dst[j])
  {
    var lim, off := Longs(bits), shift / BITS_PER_LONG;
    var k := 0;
    while off + k < lim
      invariant 0 <= k <= lim - off == |target|
      invariant forall j | k + off <= j < lim :: src[j] == s[j]
      invariant forall j | 0 <= j < k :: dst[j] == target[j]
      invariant forall j | |target| <= j < dst.Length :: dst[j] == old(dst[j])
    {
      ShiftRightWord(dst, src, k, shift, bits, s);
      k := k + 1;
    }
  }

  /** `__bitmap_shift_right`; `dst` and `src` may be the same array. */
  method ShiftRight(dst: array<Word>, src: array<Word>, shift: nat, bits: nat)
    requires Longs(bits) <= dst.Length && Longs(bits) <= src.Length
    requires shift / BITS_PER_LONG <= Longs(bits)
    modifies dst
    ensures dst[..] == ShiftedRight(old(src[..Longs(bits)]), shift, bits) + old(dst[Longs(bits)..])
    ensures Value(dst[..Longs(bits)]) == (Value(old(src[..Longs(bits)])) % Pow2(bits)) / Pow2(shift)
  {
    var lim, off := Longs(bits), shift / BITS_PER_LONG;
    ghost var s, tail := src[..lim], dst[lim..];
    ghost var words := RightWords(Clean(s, bits)[off..], shift % BITS_PER_LONG);
    ShiftRightLoop(dst, src, shift, bits, s, words);
    assert dst[..lim - off] == words;
    ZeroWords(dst, lim - off, off);
    assert dst[..lim] == words + Zeros(off) == ShiftedRight(s, shift, bits);
    ShiftedRightDivides(s, shift, bits);
  }
}
