/** `__bitmap_parse`: the scanner, the accumulation of 32-bit chunks by in-place
    shifts, exactly which texts it accepts, and its round trip with printing. */
module HexParse {
  import opened Words
  import opened Bitmap
  import opened Shift
  import opened BitLength
  import opened HexText

  const CHUNK_SIZE := 0x1_0000_0000

  /** What the inner loop comes back with: a group of digits, or an early return. */
  datatype GroupScan =
    | Group(chunk: nat, ndigits: nat, totaldigits: nat, last: char, rest: string)
    | Stop(code: int)

  /** The inner loop: `c` is the previous character. */
  function ScanGroup(buf: string, c: char, totaldigits: nat, chunk: nat, ndigits: nat): (r: GroupScan)
    requires chunk < CHUNK_SIZE
    ensures r.Group? ==> r.chunk < CHUNK_SIZE && |r.rest| <= |buf| && (buf != "" ==> |r.rest| < |buf|)
    decreases |buf|
  {
    if buf == "" then Group(chunk, ndigits, totaldigits, c, "")
    else
      var ch, rest := buf[0], buf[1..];
      if IsSpace(ch) then ScanGroup(rest, ch, totaldigits, chunk, ndigits)
      else if totaldigits > 0 && ch != '\0' && IsSpace(c) then Stop(0)
      else if ch == '\0' || ch == ',' then Group(chunk, ndigits, totaldigits, ch, rest)
      else if !IsXDigit(ch) then Stop(-EINVAL)
      else if chunk >= 0x1000_0000 then Stop(-EOVERFLOW)
      else ScanGroup(rest, ch, totaldigits + 1, 16 * chunk + Unhex(ch), ndigits + 1)
  }

  /** The mask as a number, the chunks stored so far, and the bits they need. */
  datatype Acc = Acc(value: nat, nchunks: nat, nbits: int)

  /** Shift the mask by a chunk and put the new chunk in. */
  function Absorb(acc: Acc, chunk: nat, bits: nat): Acc
    requires chunk < CHUNK_SIZE
  {
    Acc(Low(Up(acc.value, CHUNKSZ), bits) + chunk, acc.nchunks + 1,
        acc.nbits + if acc.nchunks == 0 then Fls(chunk) else CHUNKSZ)
  }

  /** The outer loop: the return code and the value left in the mask. */
  function ParseFrom(buf: string, c: char, totaldigits: nat, acc: Acc, bits: nat): (int, nat)
    decreases |buf|
  {
    match ScanGroup(buf, c, totaldigits, 0, 0)
    case Stop(code) => (code, acc.value)
    case Group(chunk, ndigits, total, last, rest) =>
      if ndigits == 0 then (-EINVAL, acc.value)
      else if acc.nchunks == 0 && chunk == 0 then
        if rest != "" && last == ',' then ParseFrom(rest, last, total, acc, bits) else (0, acc.value)
      else
        var acc' := Absorb(acc, chunk, bits);
        if acc'.nbits > bits then (-EOVERFLOW, acc'.value)
        else if rest != "" && last == ',' then ParseFrom(rest, last, total, acc', bits)
        else (0, acc'.value)
  }

  function ParseText(buf: string, bits: nat): (int, nat) {
    ParseFrom(buf, '\0', 0, Acc(0, 0, 0), bits)
  }

  // ---- the in-place accumulation ----

  lemma ShiftedLowZero(v: nat, bits: nat)
    ensures Low(Low(Up(v, CHUNKSZ), bits), CHUNKSZ) == 0
  {
    hide Low, Up, Pow2;
    LowUp(v, CHUNKSZ, 0);
    NoLow(v);
    UpZero(CHUNKSZ);
    if bits >= CHUNKSZ {
      LowLow(Up(v, CHUNKSZ), CHUNKSZ, bits);
    } else {
      UpUp(v, CHUNKSZ - bits, bits);
      LowUp(Up(v, CHUNKSZ - bits), bits, 0);
      NoLow(Up(v, CHUNKSZ - bits));
      UpZero(bits);
      LowUp(0, CHUNKSZ, 0);
      NoLow(0);
    }
  }

  lemma NoLow(x: nat)
    ensures Low(x, 0) == 0
  {
  }

  lemma OrLow(w: Word, t: nat, chunk: nat)
    requires chunk < CHUNK_SIZE && Low(w + Up(t, BITS_PER_LONG), CHUNKSZ) == 0
    ensures OrWord(w, chunk) == w + chunk
  {
    hide Low, Up, Down, Pow2, Or;
    UpUp(t, BITS_PER_LONG - CHUNKSZ, CHUNKSZ);
    LowAddUp(w, Up(t, BITS_PER_LONG - CHUNKSZ), CHUNKSZ);
    Split(w, CHUNKSZ);
    Pow2Small();
    OrDisjoint(chunk, Down(w, CHUNKSZ), CHUNKSZ);
  }

  /** Or-ing a chunk into the first word adds it when the low 32 bits are clear. */
  lemma OrChunk(s: seq<Word>, chunk: nat)
    requires s != [] && chunk < CHUNK_SIZE && Low(Value(s), CHUNKSZ) == 0
    ensures Value(s[0 := OrWord(s[0], chunk)]) == Value(s) + chunk
  {
    hide Low, Up, Or;
    OrLow(s[0], Value(s[1..]), chunk);
    assert s[0 := OrWord(s[0], chunk)][1..] == s[1..];
  }

  /** __bitmap_shift_left(maskp, maskp, CHUNKSZ, bits); *maskp |= chunk */
  method StoreChunk(maskp: array<Word>, chunk: nat, bits: nat)
    requires bits > 0 && maskp.Length >= Longs(bits) && chunk < CHUNK_SIZE
    modifies maskp
    ensures Value(maskp[..Longs(bits)]) == Low(Up(old(Value(maskp[..Longs(bits)])), CHUNKSZ), bits) + chunk
    ensures maskp[Longs(bits)..] == old(maskp[Longs(bits)..])
  {
    hide ShiftedLeft, Value, Low, Up, Pow2, Or;
    ghost var lim := Longs(bits);
    ghost var s, tail := maskp[..lim], maskp[lim..];
    ShiftLeft(maskp, maskp, CHUNKSZ, bits);
    ghost var t := maskp[..lim];
    ShiftedLeftValue(s, CHUNKSZ, bits);
    ShiftedLowZero(Value(s), bits);
    assert t == ShiftedLeft(s, CHUNKSZ, bits) && maskp[lim..] == tail;
    OrChunk(t, chunk);
    maskp[0] := OrWord(maskp[0], chunk);
    assert maskp[..lim] == t[0 := OrWord(t[0], chunk)];
  }

  /** The inner loop of `__bitmap_parse`. */
  method ReadChunk(buf: string, pos: nat, c: char, totaldigits: nat) returns (r: GroupScan)
    requires pos <= |buf|
    ensures r == ScanGroup(buf[pos..], c, totaldigits, 0, 0)
  {
    var chunk: nat, ndigits: nat, total: nat, ch, i: nat := 0, 0, totaldigits, c, pos;
    while i < |buf|
      invariant pos <= i <= |buf| && chunk < CHUNK_SIZE
      invariant ScanGroup(buf[i..], ch, total, chunk, ndigits) == ScanGroup(buf[pos..], c, totaldigits, 0, 0)
    {
      var oldC := ch;
      ch := buf[i];
      assert buf[i..][1..] == buf[i + 1..];
      i := i + 1;
      if IsSpace(ch) {
        continue;
      }
      if total > 0 && ch != '\0' && IsSpace(oldC) {
        return Stop(0);
      }
      if ch == '\0' || ch == ',' {
        return Group(chunk, ndigits, total, ch, buf[i..]);
      }
      if !IsXDigit(ch) {
        return Stop(-EINVAL);
      }
      if chunk >= 0x1000_0000 {
        return Stop(-EOVERFLOW);
      }
      chunk := 16 * chunk + Unhex(ch);
      ndigits, total := ndigits + 1, total + 1;
    }
    r := Group(chunk, ndigits, total, ch, buf[i..]);
  }

  /** `__bitmap_parse` */
  method Parse(buf: string, maskp: array<Word>, nmaskbits: nat) returns (r: int)
    requires nmaskbits > 0 && maskp.Length >= Longs(nmaskbits)
    modifies maskp
    ensures (r, Value(maskp[..Longs(nmaskbits)])) == ParseText(buf, nmaskbits)
    ensures maskp[Longs(nmaskbits)..] == old(maskp[Longs(nmaskbits)..])
  {
    hide Value, Low, Up, Fls, ScanGroup;
    ghost var lim := Longs(nmaskbits);
    ZeroWords(maskp, 0, Longs(nmaskbits));
    assert maskp[..lim] == Zeros(lim);
    ValueZeros(lim);
    var c, totaldigits, nchunks, nbits, pos := '\0', 0, 0, 0, 0;
    while true
      invariant pos <= |buf| && (pos > 0 ==> pos < |buf|)
      invariant ParseFrom(buf[pos..], c, totaldigits, Acc(Value(maskp[..lim]), nchunks, nbits), nmaskbits)
             == ParseText(buf, nmaskbits)
      invariant maskp[lim..] == old(maskp[lim..])
      decreases |buf| - pos
    {
      var scan := ReadChunk(buf, pos, c, totaldigits);
      GroupProgress(buf, pos, c, totaldigits);
      if scan.Stop? {
        return scan.code;
      }
      if scan.ndigits == 0 {
        return -EINVAL;
      }
      totaldigits, c := scan.totaldigits, scan.last;
      if !(nchunks == 0 && scan.chunk == 0) {
        StoreChunk(maskp, scan.chunk, nmaskbits);
        nbits := nbits + if nchunks == 0 then Fls(scan.chunk) else CHUNKSZ;
        nchunks := nchunks + 1;
        if nbits > nmaskbits {
          return -EOVERFLOW;
        }
      }
      if !(scan.rest != "" && c == ',') {
        return 0;
      }
      pos := |buf| - |scan.rest|;
    }
  }

  /** The scanner leaves a proper suffix of the text. */
  lemma {:induction false} GroupSuffix(buf: string, c: char, totaldigits: nat, chunk: nat, ndigits: nat)
    requires chunk < CHUNK_SIZE
    ensures var r := ScanGroup(buf, c, totaldigits, chunk, ndigits);
      r.Group? ==> r.rest == buf[|buf| - |r.rest|..]
    decreases |buf|
  {
    if buf != "" {
      var ch, rest := buf[0], buf[1..];
      if IsSpace(ch) {
        GroupSuffix(rest, ch, totaldigits, chunk, ndigits);
      } else if IsXDigit(ch) && chunk < 0x1000_0000 {
        GroupSuffix(rest, ch, totaldigits + 1, 16 * chunk + Unhex(ch), ndigits + 1);
      }
    }
  }

  lemma GroupProgress(buf: string, pos: nat, c: char, totaldigits: nat)
    requires pos <= |buf| && (pos > 0 ==> pos < |buf|)
    ensures var r := ScanGroup(buf[pos..], c, totaldigits, 0, 0);
      r.Group? && r.rest != "" ==>
        pos < |buf| - |r.rest| < |buf| && buf[|buf| - |r.rest|..] == r.rest
  {
    GroupSuffix(buf[pos..], c, totaldigits, 0, 0);
  }
}
