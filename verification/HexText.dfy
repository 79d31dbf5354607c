/** Bitmaps as text: `bitmap_scnprintf` and `__bitmap_parse`. */
module HexText {
  import opened Words
  import opened Bitmap

  const CHUNKSZ := 32
  const EINVAL := 22
  const EOVERFLOW := 75

  // ---- characters ----

  predicate IsSpace(c: char) {
    c == ' ' || '\t' <= c <= '\r'
  }

  predicate IsDigit(c: char) {
    '0' <= c <= '9'
  }

  predicate IsXDigit(c: char) {
    IsDigit(c) || 'a' <= c <= 'f' || 'A' <= c <= 'F'
  }

  function Unhex(c: char): (d: nat)
    requires IsXDigit(c)
    ensures d < 16
  {
    if IsDigit(c) then c as int - '0' as int
    else if 'a' <= c then c as int - 'a' as int + 10
    else c as int - 'A' as int + 10
  }

  predicate IsLowerHex(c: char) {
    '0' <= c <= '9' || 'a' <= c <= 'f'
  }

  /** A digit as `%lx` prints it. */
  function HexDigit(d: nat): (c: char)
    requires d < 16
    ensures IsXDigit(c) && IsLowerHex(c) && Unhex(c) == d
  {
    if d < 10 then ('0' as int + d) as char else ('a' as int + (d - 10)) as char
  }

  ghost predicate AllSpaces(s: string) {
    forall i | 0 <= i < |s| :: IsSpace(s[i])
  }

  lemma {:induction false} TakeSpaces(s: string) returns (spaces: string, rest: string)
    ensures s == spaces + rest && AllSpaces(spaces) && (rest != "" ==> !IsSpace(rest[0]))
    ensures s != "" && IsSpace(s[0]) ==> spaces != ""
    decreases |s|
  {
    if s == "" || !IsSpace(s[0]) {
      spaces, rest := "", s;
    } else {
      spaces, rest := TakeSpaces(s[1..]);
      spaces := [s[0]] + spaces;
    }
  }

  predicate IsHex(s: string) {
    forall i | 0 <= i < |s| :: IsXDigit(s[i])
  }

  /** The number read so far, continued with the digits of s. */
  function HexFrom(v: nat, s: string): nat
    requires IsHex(s)
    decreases |s|
  {
    if s == "" then v else HexFrom(16 * v + Unhex(s[0]), s[1..])
  }

  function HexValue(s: string): nat
    requires IsHex(s)
  {
    HexFrom(0, s)
  }

  /** `%0*lx`: `width` hexadecimal digits. */
  function Hex(v: nat, width: nat): (s: string)
    ensures |s| == width && IsHex(s)
  {
    if width == 0 then "" else Hex(v / 16, width - 1) + [HexDigit(v % 16)]
  }

  lemma {:induction false} HexFromSnoc(v: nat, s: string, c: char)
    requires IsHex(s) && IsXDigit(c)
    ensures HexFrom(v, s + [c]) == 16 * HexFrom(v, s) + Unhex(c)
    decreases |s|
  {
    if s != "" {
      assert (s + [c])[1..] == s[1..] + [c];
      HexFromSnoc(16 * v + Unhex(s[0]), s[1..], c);
    } else {
      assert (s + [c])[1..] == "";
    }
  }

  /** Printing and reading a number gives the number back. */
  lemma {:induction false} HexValueOfHex(v: nat, width: nat)
    requires v < Pow2(4 * width)
    ensures HexValue(Hex(v, width)) == v
    decreases width
  {
    if width > 0 {
      Quarter(v, width);
      HexValueOfHex(v / 16, width - 1);
      HexFromSnoc(0, Hex(v / 16, width - 1), HexDigit(v % 16));
    }
  }

  lemma Quarter(v: nat, width: nat)
    requires width > 0 && v < Pow2(4 * width)
    ensures v / 16 < Pow2(4 * (width - 1))
  {
    DownIsQuotient(v, 4);
    Pow2Small();
    DownBelow(v, 4, 4 * (width - 1));
  }

  // ---- text in groups ----

  /** Groups behind a first one, each with its comma. */
  function Tail(groups: seq<string>): string {
    if groups == [] then "" else "," + groups[0] + Tail(groups[1..])
  }

  function Text(groups: seq<string>): string {
    if groups == [] then "" else groups[0] + Tail(groups[1..])
  }

  ghost predicate HexGroups(groups: seq<string>) {
    forall i | 0 <= i < |groups| :: groups[i] != "" && IsHex(groups[i])
  }

  /** The number the groups spell in base 2^32, behind a number v already read. */
  function Combined(v: nat, groups: seq<string>): nat
    requires HexGroups(groups)
    decreases |groups|
  {
    if groups == [] then v else Combined(Up(v, CHUNKSZ) + HexValue(groups[0]), groups[1..])
  }

  // ---- printing ----

  /** The number of 32-bit chunks. */
  function Chunks(bits: nat): nat {
    (bits + CHUNKSZ - 1) / CHUNKSZ
  }

  /** The number of bits of chunk k: all 32 except possibly in the top one. */
  function ChunkSize(bits: nat, k: nat): (n: nat)
    requires k < Chunks(bits)
    ensures 0 < n <= CHUNKSZ
  {
    if k == Chunks(bits) - 1 && bits % CHUNKSZ != 0 then bits % CHUNKSZ else CHUNKSZ
  }

  lemma ChunkInWords(bits: nat, k: nat)
    requires k < Chunks(bits)
    ensures CHUNKSZ * k / BITS_PER_LONG < Longs(bits)
    ensures CHUNKSZ * k % BITS_PER_LONG + CHUNKSZ <= BITS_PER_LONG
  {
    assert CHUNKSZ * k / BITS_PER_LONG == k / 2 && CHUNKSZ * k % BITS_PER_LONG == CHUNKSZ * (k % 2);
  }

  /** (maskp[word] >> bit) & chunkmask for chunk k. */
  function ChunkValue(s: seq<Word>, bits: nat, k: nat): (v: nat)
    requires |s| >= Longs(bits) && k < Chunks(bits)
    ensures v < Pow2(ChunkSize(bits, k))
  {
    ChunkInWords(bits, k);
    LowBelow(Shr(s[CHUNKSZ * k / BITS_PER_LONG], CHUNKSZ * k % BITS_PER_LONG), ChunkSize(bits, k));
    AndLowMask(Shr(s[CHUNKSZ * k / BITS_PER_LONG], CHUNKSZ * k % BITS_PER_LONG), ChunkSize(bits, k));
    And(Shr(s[CHUNKSZ * k / BITS_PER_LONG], CHUNKSZ * k % BITS_PER_LONG), Pow2(ChunkSize(bits, k)) - 1)
  }

  /** The groups for the chunks below c; leading zero chunks are skipped, but not the last one. */
  function Groups(s: seq<Word>, bits: nat, c: nat, first: bool): (groups: seq<string>)
    requires |s| >= Longs(bits) && c <= Chunks(bits)
    ensures HexGroups(groups) && |groups| <= c
    ensures forall i | 0 <= i < |groups| :: |groups[i]| <= 8
    decreases c
  {
    if c == 0 then []
    else
      var k := c - 1;
      var v := ChunkValue(s, bits, k);
      if v != 0 || !first || k == 0
      then [Hex(v, (ChunkSize(bits, k) + 3) / 4)] + Groups(s, bits, k, false)
      else Groups(s, bits, k, true)
  }

  function GroupText(s: seq<Word>, bits: nat, k: nat): (g: string)
    requires |s| >= Longs(bits) && k < Chunks(bits)
    ensures g != "" && IsHex(g)
  {
    Hex(ChunkValue(s, bits, k), (ChunkSize(bits, k) + 3) / 4)
  }

  lemma GroupsStep(s: seq<Word>, bits: nat, c: nat, first: bool)
    requires |s| >= Longs(bits) && 0 < c <= Chunks(bits)
    ensures ChunkValue(s, bits, c - 1) != 0 || !first || c == 1 ==>
      Groups(s, bits, c, first) == [GroupText(s, bits, c - 1)] + Groups(s, bits, c - 1, false)
    ensures !(ChunkValue(s, bits, c - 1) != 0 || !first || c == 1) ==>
      Groups(s, bits, c, first) == Groups(s, bits, c - 1, true)
  {
  }

  function Printed(s: seq<Word>, bits: nat): string
    requires |s| >= Longs(bits)
  {
    Text(Groups(s, bits, Chunks(bits), true))
  }

  lemma TailUnfold(g: string, groups: seq<string>)
    ensures Tail([g] + groups) == "," + g + Tail(groups)
    ensures Text([g] + groups) == g + Tail(groups)
  {
  }

  lemma AppendGroup(buf: string, sep: string, g: string, rest: string)
    ensures buf == "" && sep == "" ==> buf + (sep + g) + rest == g + rest
    ensures buf + (sep + g + rest) == buf + (sep + g) + rest
  {
  }

  /** The value read out of the word that holds bit number i. */
  lemma ChunkIs(s: seq<Word>, bits: nat, k: nat, i: nat)
    requires |s| >= Longs(bits) && k < Chunks(bits) && i == CHUNKSZ * k
    ensures i / BITS_PER_LONG < |s|
    ensures And(Shr(s[i / BITS_PER_LONG], i % BITS_PER_LONG), Pow2(ChunkSize(bits, k)) - 1) == ChunkValue(s, bits, k)
  {
    ChunkInWords(bits, k);
  }

  lemma GroupIs(s: seq<Word>, bits: nat, k: nat)
    requires |s| >= Longs(bits) && k < Chunks(bits)
    ensures Hex(ChunkValue(s, bits, k), (ChunkSize(bits, k) + 3) / 4) == GroupText(s, bits, k)
  {
  }

  /** The loop of `bitmap_scnprintf` with c chunks to go. */
  ghost predicate Printing(s: seq<Word>, bits: nat, c: nat, first: bool, sep: string, buf: string)
    requires |s| >= Longs(bits) && c <= Chunks(bits)
  {
    && sep == (if first then "" else ",")
    && (first ==> buf == "" && Text(Groups(s, bits, c, true)) == Printed(s, bits))
    && (!first ==> buf + Tail(Groups(s, bits, c, false)) == Printed(s, bits))
  }

  lemma PrintOne(s: seq<Word>, bits: nat, c: nat, first: bool, sep: string, buf: string)
    requires |s| >= Longs(bits) && 0 < c <= Chunks(bits)
    requires Printing(s, bits, c, first, sep, buf)
    ensures if ChunkValue(s, bits, c - 1) != 0 || !first || c == 1
      then Printing(s, bits, c - 1, false, ",", buf + (sep + GroupText(s, bits, c - 1)))
      else Printing(s, bits, c - 1, true, sep, buf)
  {
    hide Groups, ChunkValue, Tail, Text, GroupText;
    var g, rest := GroupText(s, bits, c - 1), Groups(s, bits, c - 1, false);
    GroupsStep(s, bits, c, first);
    TailUnfold(g, rest);
    AppendGroup(buf, sep, g, Tail(rest));
  }

  lemma PrintDone(s: seq<Word>, bits: nat, first: bool, sep: string, buf: string)
    requires |s| >= Longs(bits) && Printing(s, bits, 0, first, sep, buf)
    ensures buf == Printed(s, bits)
  {
  }

  /** One round of the loop: print the chunk at bit i unless it is a leading zero. */
  method PrintChunk(maskp: array<Word>, nmaskbits: nat, i: nat, chunksz: nat, buf: string, sep: string, first: bool, ghost k: nat)
    returns (buf': string, sep': string, first': bool)
    requires maskp.Length >= Longs(nmaskbits) && k < Chunks(nmaskbits)
    requires i == CHUNKSZ * k && chunksz == ChunkSize(nmaskbits, k)
    requires Printing(maskp[..], nmaskbits, k + 1, first, sep, buf)
    ensures Printing(maskp[..], nmaskbits, k, first', sep', buf')
  {
    hide Groups, ChunkValue, Tail, Text, Hex, And, Pow2, Down, ChunkSize, Printing, GroupText;
    ghost var s := maskp[..];
    ChunkIs(s, nmaskbits, k, i);
    GroupIs(s, nmaskbits, k);
    PrintOne(s, nmaskbits, k + 1, first, sep, buf);
    var val := And(Shr(maskp[i / BITS_PER_LONG], i % BITS_PER_LONG), Pow2(chunksz) - 1);
    if val != 0 || !first || i == 0 {
      buf', sep', first' := buf + (sep + Hex(val, (chunksz + 3) / 4)), ",", false;
    } else {
      buf', sep', first' := buf, sep, first;
    }
  }

  /** `bitmap_scnprintf` into a buffer that is large enough. */
  method Scnprintf(maskp: array<Word>, nmaskbits: nat) returns (buf: string)
    requires maskp.Length >= Longs(nmaskbits)
    ensures buf == Printed(maskp[..], nmaskbits)
  {
    buf := "";
    var sep, first := "", true;
    var chunksz := nmaskbits % CHUNKSZ;
    if chunksz == 0 {
      chunksz := CHUNKSZ;
    }
    var i: int := CHUNKSZ * Chunks(nmaskbits) - CHUNKSZ;
    ghost var c: nat := Chunks(nmaskbits);
    while i >= 0
      invariant c <= Chunks(nmaskbits) && i == CHUNKSZ * c - CHUNKSZ
      invariant c > 0 ==> chunksz == ChunkSize(nmaskbits, c - 1)
      invariant Printing(maskp[..], nmaskbits, c, first, sep, buf)
      decreases c
    {
      hide Groups, Printing;
      buf, sep, first := PrintChunk(maskp, nmaskbits, i, chunksz, buf, sep, first, c - 1);
      chunksz := CHUNKSZ;
      i := i - CHUNKSZ;
      c := c - 1;
    }
    PrintDone(maskp[..], nmaskbits, first, sep, buf);
  }

  lemma {:induction false} TailLength(groups: seq<string>)
    requires forall i | 0 <= i < |groups| :: |groups[i]| <= 8
    ensures |Tail(groups)| <= 9 * |groups|
  {
    if groups != [] {
      TailLength(groups[1..]);
    }
  }

  /** The text needs at most 9 characters a chunk, less the first comma:
      4096 bits fit a 4096-byte buffer. */
  lemma PrintedLength(s: seq<Word>, bits: nat)
    requires |s| >= Longs(bits) && bits > 0
    ensures |Printed(s, bits)| <= 9 * Chunks(bits) - 1
    ensures bits <= 4096 ==> |Printed(s, bits)| < 4096
  {
    var groups := Groups(s, bits, Chunks(bits), true);
    if groups != [] {
      TailLength(groups[1..]);
    }
  }

  // ---- what the printed groups spell ----

  /** Chunk k is the k-th base-2^32 digit of the bits below the size. */
  lemma ChunkIsDigit(s: seq<Word>, bits: nat, k: nat)
    requires |s| >= Longs(bits) && k < Chunks(bits)
    ensures ChunkValue(s, bits, k) == Low(Down(Low(Value(s), bits), CHUNKSZ * k), CHUNKSZ)
  {
    hide ChunkSize, Low, Down, And, Pow2, Value;
    var at, n := CHUNKSZ * k, ChunkSize(bits, k);
    var word, bit := at / BITS_PER_LONG, at % BITS_PER_LONG;
    ChunkInWords(bits, k);
    AndLowMask(Shr(s[word], bit), n);
    ChunkOfWord(s, word, bit, n);
    DownLow(Value(s), at, bits - at);
    ChunkTop(bits, k);
    var x := Down(Value(s), at);
    if n == CHUNKSZ {
      LowLow(x, CHUNKSZ, bits - at);
    } else {
      LowBelow(x, n);
      Pow2Monotone(n, CHUNKSZ);
      LowSmall(Low(x, n), CHUNKSZ);
    }
  }

  lemma ChunkTop(bits: nat, k: nat)
    requires k < Chunks(bits)
    ensures CHUNKSZ * k + ChunkSize(bits, k) <= bits
    ensures ChunkSize(bits, k) == CHUNKSZ || CHUNKSZ * k + ChunkSize(bits, k) == bits
  {
  }

  lemma ChunkOfWord(s: seq<Word>, word: nat, bit: nat, n: nat)
    requires word < |s| && bit + n <= BITS_PER_LONG
    ensures Low(Down(Value(s), BITS_PER_LONG * word + bit), n) == Low(Shr(s[word], bit), n)
  {
    var x := Down(Value(s), BITS_PER_LONG * word);
    ValueWord(s, word);
    DownDown(Value(s), BITS_PER_LONG * word, bit);
    DownLow(x, bit, n);
    LowLow(x, bit + n, BITS_PER_LONG);
    DownLow(s[word], bit, n);
  }

  lemma WidthEnough(n: nat, v: nat)
    requires v < Pow2(n)
    ensures v < Pow2(4 * ((n + 3) / 4))
  {
    Pow2Monotone(n, 4 * ((n + 3) / 4));
  }

  /** One more chunk, as a number and as a group. */
  lemma SpellStep(s: seq<Word>, bits: nat, k: nat, v: nat)
    requires |s| >= Longs(bits) && k < Chunks(bits)
    requires v == Down(Low(Value(s), bits), CHUNKSZ * (k + 1))
    ensures Up(v, CHUNKSZ) + ChunkValue(s, bits, k) == Down(Low(Value(s), bits), CHUNKSZ * k)
    ensures ChunkValue(s, bits, k) < 0x1_0000_0000
    ensures HexValue(GroupText(s, bits, k)) == ChunkValue(s, bits, k)
    ensures v == 0 && ChunkValue(s, bits, k) == 0 ==> Down(Low(Value(s), bits), CHUNKSZ * k) == 0
  {
    hide Up, Down, Low, Value, Pow2, Hex, HexFrom, ChunkValue;
    var x := Low(Value(s), bits);
    var chunk, n := ChunkValue(s, bits, k), ChunkSize(bits, k);
    ChunkIsDigit(s, bits, k);
    Split(Down(x, CHUNKSZ * k), CHUNKSZ);
    DownDown(x, CHUNKSZ * k, CHUNKSZ);
    WidthEnough(n, chunk);
    HexValueOfHex(chunk, (n + 3) / 4);
    Pow2Monotone(n, CHUNKSZ);
    Pow2Small();
    UpZero(CHUNKSZ);
  }

  lemma CombinedStep(v: nat, g: string, groups: seq<string>)
    requires g != "" && IsHex(g) && HexGroups(groups)
    ensures HexGroups([g] + groups)
    ensures Combined(v, [g] + groups) == Combined(Up(v, CHUNKSZ) + HexValue(g), groups)
  {
    assert ([g] + groups)[1..] == groups;
  }

  ghost predicate SmallGroups(groups: seq<string>)
    requires HexGroups(groups)
  {
    forall i | 0 <= i < |groups| :: HexValue(groups[i]) < 0x1_0000_0000
  }

  lemma SpellBase(s: seq<Word>, bits: nat, first: bool, v: nat)
    requires |s| >= Longs(bits) && v == Down(Low(Value(s), bits), CHUNKSZ * 0)
    ensures Combined(v, Groups(s, bits, 0, first)) == Low(Value(s), bits)
    ensures SmallGroups(Groups(s, bits, 0, first))
  {
  }

  /** What has been printed above chunk c, and what is still to come. */
  lemma {:induction false} GroupsSpell(s: seq<Word>, bits: nat, c: nat, first: bool, v: nat)
    requires |s| >= Longs(bits) && c <= Chunks(bits)
    requires v == Down(Low(Value(s), bits), CHUNKSZ * c) && (first ==> v == 0)
    ensures Combined(v, Groups(s, bits, c, first)) == Low(Value(s), bits)
    ensures SmallGroups(Groups(s, bits, c, first))
    decreases c
  {
    hide *;
    if c == 0 {
      SpellBase(s, bits, first, v);
      return;
    }
    var k := c - 1;
    var chunk, g := ChunkValue(s, bits, k), GroupText(s, bits, k);
    SpellStep(s, bits, k, v);
    GroupsStep(s, bits, c, first);
    if chunk != 0 || !first || k == 0 {
      GroupsSpell(s, bits, k, false, Up(v, CHUNKSZ) + chunk);
      CombinedStep(v, g, Groups(s, bits, k, false));
      SmallStep(g, Groups(s, bits, k, false));
    } else {
      GroupsSpell(s, bits, k, true, 0);
    }
  }

  lemma SmallStep(g: string, groups: seq<string>)
    requires g != "" && IsHex(g) && HexGroups(groups)
    requires HexValue(g) < 0x1_0000_0000 && SmallGroups(groups)
    ensures HexGroups([g] + groups) && SmallGroups([g] + groups)
  {
  }

  /** The printed text spells the value of the bits below the size. */
  lemma PrintedSpells(s: seq<Word>, bits: nat)
    requires |s| >= Longs(bits)
    ensures var groups := Groups(s, bits, Chunks(bits), true);
      && Combined(0, groups) == Low(Value(s), bits)
      && SmallGroups(groups)
      && (bits > 0 ==> groups != [])
  {
    LowBelow(Value(s), bits);
    Pow2Monotone(bits, CHUNKSZ * Chunks(bits));
    LowSmall(Low(Value(s), bits), CHUNKSZ * Chunks(bits));
    GroupsSpell(s, bits, Chunks(bits), true, 0);
    if bits > 0 {
      SomeGroup(s, bits, Chunks(bits));
    }
  }

  lemma {:induction false} SomeGroup(s: seq<Word>, bits: nat, c: nat)
    requires |s| >= Longs(bits) && 0 < c <= Chunks(bits)
    ensures Groups(s, bits, c, true) != []
    decreases c
  {
    if c > 1 {
      SomeGroup(s, bits, c - 1);
    }
  }

  // ---- the printed characters ----

  lemma {:induction false} HexIsLower(v: nat, width: nat)
    ensures forall i | 0 <= i < width :: IsLowerHex(Hex(v, width)[i])
    decreases width
  {
    if width > 0 {
      HexIsLower(v / 16, width - 1);
    }
  }

  /** The groups printed: those of the chunks below their number. */
  ghost predicate ChunksFrom(s: seq<Word>, bits: nat, groups: seq<string>)
    requires |s| >= Longs(bits) && |groups| <= Chunks(bits)
  {
    forall i | 0 <= i < |groups| :: groups[i] == GroupText(s, bits, |groups| - 1 - i)
  }

  lemma ChunkFirst(s: seq<Word>, bits: nat, groups: seq<string>)
    requires |s| >= Longs(bits) && |groups| < Chunks(bits) && ChunksFrom(s, bits, groups)
    ensures ChunksFrom(s, bits, [GroupText(s, bits, |groups|)] + groups)
  {
    hide GroupText;
  }

  lemma NoGroups(s: seq<Word>, bits: nat, first: bool)
    requires |s| >= Longs(bits)
    ensures Groups(s, bits, 0, first) == []
  {
  }

  lemma {:induction false} GroupsAre(s: seq<Word>, bits: nat, c: nat, first: bool)
    requires |s| >= Longs(bits) && c <= Chunks(bits)
    ensures var groups := Groups(s, bits, c, first);
      && ChunksFrom(s, bits, groups) && (!first ==> |groups| == c) && (c > 0 ==> |groups| > 0)
      && (|groups| > 1 && first ==> ChunkValue(s, bits, |groups| - 1) != 0)
    decreases c
  {
    hide Hex, ChunkValue, ChunkSize, GroupText, Groups, ChunksFrom;
    NoGroups(s, bits, first);
    if c == 0 {
      assert ChunksFrom(s, bits, []) by { NoneFrom(s, bits); }
    } else {
      GroupsStep(s, bits, c, first);
      GroupsAre(s, bits, c - 1, false);
      GroupsAre(s, bits, c - 1, first);
      ChunkFirst(s, bits, Groups(s, bits, c - 1, false));
    }
  }

  lemma NoneFrom(s: seq<Word>, bits: nat)
    requires |s| >= Longs(bits)
    ensures ChunksFrom(s, bits, [])
  {
  }

  lemma GroupTextIs(s: seq<Word>, bits: nat, k: nat)
    requires |s| >= Longs(bits) && k < Chunks(bits)
    ensures var g := GroupText(s, bits, k);
      && |g| == (ChunkSize(bits, k) + 3) / 4 && (forall j | 0 <= j < |g| :: IsLowerHex(g[j]))
      && HexValue(g) == Low(Down(Low(Value(s), bits), CHUNKSZ * k), CHUNKSZ)
  {
    hide Low, Down, Pow2, Value, Hex, HexFrom, ChunkValue, ChunkSize;
    var width := (ChunkSize(bits, k) + 3) / 4;
    GroupIs(s, bits, k);
    HexIsLower(ChunkValue(s, bits, k), width);
    Pow2Monotone(ChunkSize(bits, k), 4 * width);
    HexValueOfHex(ChunkValue(s, bits, k), width);
    ChunkIsDigit(s, bits, k);
  }

  /** The text, character by character: groups from some chunk down to chunk 0, of as many
      lower-case digits as the chunk's size needs, spelling the chunk; of the chunks above,
      which are 0, none is printed, and a first group is 0 only if it is the last. */
  lemma PrintedExactly(s: seq<Word>, bits: nat)
    requires |s| >= Longs(bits) && bits > 0
    ensures var groups := Groups(s, bits, Chunks(bits), true);
      && Printed(s, bits) == Text(groups) && 0 < |groups| <= Chunks(bits)
      && Combined(0, groups) == Low(Value(s), bits)
      && (|groups| > 1 ==> HexValue(groups[0]) != 0)
      && forall i | 0 <= i < |groups| ::
           var k := |groups| - 1 - i;
           && |groups[i]| == (if k == Chunks(bits) - 1 && bits % CHUNKSZ != 0 then bits % CHUNKSZ + 3 else CHUNKSZ + 3) / 4
           && (forall j | 0 <= j < |groups[i]| :: IsLowerHex(groups[i][j]))
           && HexValue(groups[i]) == Low(Down(Low(Value(s), bits), CHUNKSZ * k), CHUNKSZ)
  {
    hide Groups, Low, Down, Pow2, Value, Hex, HexFrom, ChunkValue, GroupText, Combined, Text;
    PrintedSpells(s, bits);
    GroupsAre(s, bits, Chunks(bits), true);
    var groups := Groups(s, bits, Chunks(bits), true);
    forall i | 0 <= i < |groups|
      ensures var k := |groups| - 1 - i;
        && |groups[i]| == (if k == Chunks(bits) - 1 && bits % CHUNKSZ != 0 then bits % CHUNKSZ + 3 else CHUNKSZ + 3) / 4
        && (forall j | 0 <= j < |groups[i]| :: IsLowerHex(groups[i][j]))
        && HexValue(groups[i]) == Low(Down(Low(Value(s), bits), CHUNKSZ * k), CHUNKSZ)
    {
      GroupTextIs(s, bits, |groups| - 1 - i);
    }
    if |groups| > 1 {
      ChunkIsDigit(s, bits, |groups| - 1);
    }
  }
}
