/** `__bitmap_parselist`: comma-separated decimal numbers and ranges into a bitmap. */
module ListParse {
  import opened Words
  import opened Bitmap
  import opened Shift
  import opened BitSets
  import opened HexText

  const ERANGE := 34
  const BASEDEC := 10

  function Dec(c: char): (d: nat)
    requires IsDigit(c)
    ensures d < 10
  {
    c as int - '0' as int
  }

  datatype Element =
    | Numbers(a: nat, b: nat, totaldigits: nat, last: char, rest: string)
    | Stop(code: int)

  /** The inner loop: one number or range.  `c` is the previous character. */
  function ScanElement(buf: string, c: char, totaldigits: nat, a: nat, b: nat, expDigit: bool, inRange: bool): (r: Element)
    ensures r.Numbers? ==> |r.rest| <= |buf| && (buf != "" ==> |r.rest| < |buf|)
    decreases |buf|
  {
    if buf == "" then Numbers(a, b, totaldigits, c, "")
    else
      var ch, rest := buf[0], buf[1..];
      if IsSpace(ch) then ScanElement(rest, ch, totaldigits, a, b, expDigit, inRange)
      else if totaldigits > 0 && ch != '\0' && IsSpace(c) then Stop(-EINVAL)
      else if ch == '\0' || ch == ',' then Numbers(a, b, totaldigits, ch, rest)
      else if ch == '-' then
        if expDigit || inRange then Stop(-EINVAL) else ScanElement(rest, ch, totaldigits, a, 0, true, true)
      else if !IsDigit(ch) then Stop(-EINVAL)
      else
        var b' := BASEDEC * b + Dec(ch);
        ScanElement(rest, ch, totaldigits + 1, if inRange then a else b', b', false, inRange)
  }

  /** The numbers from a up to, but not including, n. */
  function Span(a: nat, n: nat): (r: set<nat>)
    ensures forall i: nat :: i in r <==> a <= i < n
    decreases n
  {
    if a >= n then {} else Span(a, n - 1) + {n - 1}
  }

  /** The outer loop: the return code and the set of bits left in the mask. */
  function ParseListFrom(buf: string, c: char, totaldigits: nat, mask: set<nat>, bits: nat): (int, set<nat>)
    decreases |buf|
  {
    match ScanElement(buf, c, totaldigits, 0, 0, true, false)
    case Stop(code) => (code, mask)
    case Numbers(a, b, total, last, rest) =>
      if !(a <= b) then (-EINVAL, mask)
      else if b >= bits then (-ERANGE, mask)
      else if rest != "" && last == ',' then ParseListFrom(rest, last, total, mask + Span(a, b + 1), bits)
      else (0, mask + Span(a, b + 1))
  }

  function ParseListText(buf: string, bits: nat): (int, set<nat>) {
    ParseListFrom(buf, '\0', 0, {}, bits)
  }

  // ---- the methods ----

  /** The inner loop of `__bitmap_parselist`. */
  method ReadElement(buf: string, pos: nat, c: char, totaldigits: nat) returns (r: Element)
    requires pos <= |buf|
    ensures r == ScanElement(buf[pos..], c, totaldigits, 0, 0, true, false)
  {
    var a: nat, b: nat, expDigit, inRange, total: nat, ch, i: nat := 0, 0, true, false, totaldigits, c, pos;
    while i < |buf|
      invariant pos <= i <= |buf|
      invariant ScanElement(buf[i..], ch, total, a, b, expDigit, inRange)
             == ScanElement(buf[pos..], c, totaldigits, 0, 0, true, false)
    {
      var oldC := ch;
      ch := buf[i];
      assert buf[i..][1..] == buf[i + 1..];
      i := i + 1;
      if IsSpace(ch) {
        continue;
      }
      if total > 0 && ch != '\0' && IsSpace(oldC) {
        return Stop(-EINVAL);
      }
      if ch == '\0' || ch == ',' {
        return Numbers(a, b, total, ch, buf[i..]);
      }
      if ch == '-' {
        if expDigit || inRange {
          return Stop(-EINVAL);
        }
        b, inRange, expDigit := 0, true, true;
        continue;
      }
      if !IsDigit(ch) {
        return Stop(-EINVAL);
      }
      b := BASEDEC * b + Dec(ch);
      if !inRange {
        a := b;
      }
      expDigit, total := false, total + 1;
    }
    r := Numbers(a, b, total, ch, buf[i..]);
  }

  lemma BelowSmaller(s: seq<Word>, t: seq<Word>, nr: nat, bits: nat)
    requires |s| == |t| && Longs(bits) <= |s| && nr < bits
    requires SetBelow(t, BITS_PER_LONG * |t|) == SetBelow(s, BITS_PER_LONG * |s|) + {nr}
    ensures Bits(t, bits) == Bits(s, bits) + {nr}
  {
    LongsEnough(bits);
    forall i: nat | i < bits
      ensures BitAt(t, i) <==> BitAt(s, i) || i == nr
    {
      assert i in SetBelow(t, BITS_PER_LONG * |t|) <==> BitAt(t, i);
      assert i in SetBelow(s, BITS_PER_LONG * |s|) <==> BitAt(s, i);
    }
  }

  /** while (a <= b) { set_bit(a, maskp); a++; } */
  method SetSpan(maskp: array<Word>, from: nat, b: nat, bits: nat)
    requires Longs(bits) <= maskp.Length && from <= b < bits
    modifies maskp
    ensures Bits(maskp[..], bits) == old(Bits(maskp[..], bits)) + Span(from, b + 1)
    ensures maskp[Longs(bits)..] == old(maskp[Longs(bits)..])
  {
    var a := from;
    LongsEnough(bits);
    while a <= b
      invariant from <= a <= b + 1
      invariant Bits(maskp[..], bits) == old(Bits(maskp[..], bits)) + Span(from, a)
      invariant maskp[Longs(bits)..] == old(maskp[Longs(bits)..])
    {
      ghost var s := maskp[..];
      SetBit(a, maskp);
      BelowSmaller(s, maskp[..], a, bits);
      a := a + 1;
    }
  }

  lemma {:induction false} ScanSuffix(buf: string, c: char, totaldigits: nat, a: nat, b: nat, expDigit: bool, inRange: bool)
    ensures var r := ScanElement(buf, c, totaldigits, a, b, expDigit, inRange);
      r.Numbers? ==> r.rest == buf[|buf| - |r.rest|..]
    decreases |buf|
  {
    if buf != "" {
      var ch, rest := buf[0], buf[1..];
      if IsSpace(ch) {
        ScanSuffix(rest, ch, totaldigits, a, b, expDigit, inRange);
      } else if ch == '-' {
        ScanSuffix(rest, ch, totaldigits, a, 0, true, true);
      } else if IsDigit(ch) {
        var b' := BASEDEC * b + Dec(ch);
        ScanSuffix(rest, ch, totaldigits + 1, if inRange then a else b', b', false, inRange);
      }
    }
  }

  lemma ScanProgress(buf: string, pos: nat, c: char, totaldigits: nat)
    requires pos <= |buf| && (pos > 0 ==> pos < |buf|)
    ensures var r := ScanElement(buf[pos..], c, totaldigits, 0, 0, true, false);
      r.Numbers? && r.rest != "" ==>
        pos < |buf| - |r.rest| < |buf| && buf[|buf| - |r.rest|..] == r.rest
  {
    ScanSuffix(buf[pos..], c, totaldigits, 0, 0, true, false);
  }

  lemma ZeroBits(s: seq<Word>, bits: nat)
    requires |s| >= Longs(bits) && forall j | 0 <= j < Longs(bits) :: s[j] == 0
    ensures Bits(s, bits) == {}
  {
    LongsEnough(bits);
    forall i: nat | i < bits
      ensures !BitAt(s, i)
    {
      BitZero(i % BITS_PER_LONG);
    }
  }

  /** `__bitmap_parselist` */
  method ParseList(buf: string, maskp: array<Word>, nmaskbits: nat) returns (r: int)
    requires maskp.Length >= Longs(nmaskbits)
    modifies maskp
    ensures (r, Bits(maskp[..], nmaskbits)) == ParseListText(buf, nmaskbits)
    ensures maskp[Longs(nmaskbits)..] == old(maskp[Longs(nmaskbits)..])
  {
    hide ScanElement, Bits;
    var c, totaldigits, pos := '\0', 0, 0;
    ZeroWords(maskp, 0, Longs(nmaskbits));
    ZeroBits(maskp[..], nmaskbits);
    while true
      invariant pos <= |buf| && (pos > 0 ==> pos < |buf|)
      invariant ParseListFrom(buf[pos..], c, totaldigits, Bits(maskp[..], nmaskbits), nmaskbits)
             == ParseListText(buf, nmaskbits)
      invariant maskp[Longs(nmaskbits)..] == old(maskp[Longs(nmaskbits)..])
      decreases |buf| - pos
    {
      var e := ReadElement(buf, pos, c, totaldigits);
      ScanProgress(buf, pos, c, totaldigits);
      if e.Stop? {
        return e.code;
      }
      if !(e.a <= e.b) {
        return -EINVAL;
      }
      if e.b >= nmaskbits {
        return -ERANGE;
      }
      SetSpan(maskp, e.a, e.b, nmaskbits);
      totaldigits, c := e.totaldigits, e.last;
      if !(e.rest != "" && c == ',') {
        return 0;
      }
      pos := |buf| - |e.rest|;
    }
  }

  // ---- which texts are accepted ----

  ghost predicate IsDec(s: string) {
    forall i | 0 <= i < |s| :: IsDigit(s[i])
  }

  ghost function DecFrom(v: nat, s: string): nat
    requires IsDec(s)
    decreases |s|
  {
    if s == "" then v else DecFrom(BASEDEC * v + Dec(s[0]), s[1..])
  }

  /** A number, two joined by a hyphen, one with a hyphen and no second number, or nothing at all. */
  datatype Item = One(x: string) | Range(x: string, y: string) | Open(x: string) | Empty {
    ghost predicate Ok() {
      (!Empty? ==> x != "" && IsDec(x)) && (Range? ==> y != "" && IsDec(y))
    }

    ghost function First(): nat
      requires Ok()
    {
      if Empty? then 0 else DecFrom(0, x)
    }

    /** A missing number counts as 0. */
    ghost function Last(): nat
      requires Ok()
    {
      match this
      case One(_) => DecFrom(0, x)
      case Range(_, _) => DecFrom(0, y)
      case Open(_) => 0
      case Empty => 0
    }

    function Text(): string {
      match this
      case One(_) => x
      case Range(_, _) => x + "-" + y
      case Open(_) => x + "-"
      case Empty => ""
    }
  }

  ghost predicate AllOk(items: seq<Item>) {
    forall i | 0 <= i < |items| :: items[i].Ok()
  }

  function ItemsTail(items: seq<Item>): string {
    if items == [] then "" else "," + items[0].Text() + ItemsTail(items[1..])
  }

  function ItemsText(items: seq<Item>): string {
    if items == [] then "" else items[0].Text() + ItemsTail(items[1..])
  }

  /** Every range is in order and below the size. */
  ghost predicate InRange(items: seq<Item>, bits: nat)
    requires AllOk(items)
  {
    forall i | 0 <= i < |items| :: items[i].First() <= items[i].Last() < bits
  }

  ghost function Union(items: seq<Item>): set<nat>
    requires AllOk(items)
  {
    if items == [] then {} else Span(items[0].First(), items[0].Last() + 1) + Union(items[1..])
  }

  /** Scanning over decimal digits. */
  lemma {:induction false} ScanDigits(s: string, tail: string, c: char, total: nat, a: nat, b: nat, exp: bool, inRange: bool)
    requires IsDec(s) && s != "" && (IsSpace(c) ==> total == 0)
    ensures !IsSpace(s[|s| - 1])
    ensures ScanElement(s + tail, c, total, a, b, exp, inRange)
         == ScanElement(tail, s[|s| - 1], total + |s|, if inRange then a else DecFrom(b, s), DecFrom(b, s), false, inRange)
    decreases |s|
  {
    var b' := BASEDEC * b + Dec(s[0]);
    assert (s + tail)[1..] == s[1..] + tail;
    if s[1..] == "" {
      assert s[1..] + tail == tail;
    } else {
      ScanDigits(s[1..], tail, s[0], total + 1, if inRange then a else b', b', false, inRange);
    }
  }

  /** The elements that are looked at: an empty one after the last comma is not. */
  function LookedAt(items: seq<Item>): seq<Item> {
    if |items| <= 1 then items
    else if items[1..] == [Empty] then [items[0]]
    else [items[0]] + LookedAt(items[1..])
  }

  lemma {:induction false} CountedOk(items: seq<Item>)
    requires AllOk(items)
    ensures AllOk(LookedAt(items)) && (items != [] ==> LookedAt(items) != [])
  {
    if |items| > 1 && items[1..] != [Empty] {
      CountedOk(items[1..]);
    }
  }

  /** One element of a text, up to its comma or the end. */
  lemma ScanItem(item: Item, tail: string, c: char, total: nat)
    requires item.Ok() && !IsSpace(c) && (tail != "" ==> tail[0] == ',')
    ensures var r := ScanElement(item.Text() + tail, c, total, 0, 0, true, false);
      && r.Numbers? && r.a == item.First() && r.b == item.Last() && !IsSpace(r.last)
      && r.rest == (if tail == "" then "" else tail[1..])
      && (tail != "" ==> r.last == ',')
  {
    hide DecFrom, ScanElement;
    match item
    case One(x) =>
      ScanDigits(x, tail, c, total, 0, 0, true, false);
      ScanEnd(tail, x[|x| - 1], total + |x|, DecFrom(0, x), DecFrom(0, x), false, false);
    case Range(x, y) =>
      ScanHyphen(x, y + tail, c, total);
      assert item.Text() + tail == x + ("-" + (y + tail));
      ScanDigits(y, tail, '-', total + |x|, DecFrom(0, x), 0, true, true);
      ScanEnd(tail, y[|y| - 1], total + |x| + |y|, DecFrom(0, x), DecFrom(0, y), false, true);
    case Open(x) =>
      ScanHyphen(x, tail, c, total);
      assert item.Text() + tail == x + ("-" + tail);
      ScanEnd(tail, '-', total + |x|, DecFrom(0, x), 0, true, true);
    case Empty =>
      assert item.Text() + tail == tail;
      ScanEnd(tail, c, total, 0, 0, true, false);
  }

  /** The end of an element: a comma, or the end of the text. */
  lemma ScanEnd(tail: string, c: char, total: nat, a: nat, b: nat, exp: bool, inRange: bool)
    requires !IsSpace(c) && (tail != "" ==> tail[0] == ',')
    ensures var r := ScanElement(tail, c, total, a, b, exp, inRange);
      && r.Numbers? && r.a == a && r.b == b && !IsSpace(r.last)
      && r.rest == (if tail == "" then "" else tail[1..])
      && (tail != "" ==> r.last == ',')
  {
  }

  /** A number and a hyphen. */
  lemma ScanHyphen(x: string, tail: string, c: char, total: nat)
    requires x != "" && IsDec(x) && (IsSpace(c) ==> total == 0)
    ensures ScanElement(x + ("-" + tail), c, total, 0, 0, true, false)
         == ScanElement(tail, '-', total + |x|, DecFrom(0, x), 0, true, true)
  {
    hide DecFrom;
    ScanDigits(x, "-" + tail, c, total, 0, 0, true, false);
    assert ("-" + tail)[1..] == tail;
  }

  /** A text goes on after its first element unless that is the last, or only a comma follows it. */
  lemma ItemsUnfold(items: seq<Item>)
    requires items != [] && AllOk(items)
    ensures ItemsText(items) == items[0].Text() + ItemsTail(items[1..])
    ensures items[1..] == [] ==> ItemsTail(items[1..]) == ""
    ensures items[1..] != [] ==> ItemsTail(items[1..]) == "," + ItemsText(items[1..])
    ensures items[1..] != [] ==> (ItemsText(items[1..]) == "" <==> items[1..] == [Empty])
  {
    var rest := items[1..];
    if rest != [] {
      TailStep(rest);
      assert rest[0].Ok();
      if rest[0] != Empty {
        assert rest[0].Text() != "";
      } else if |rest| > 1 {
        TailStep(rest[1..]);
      } else {
        assert rest == [Empty];
      }
    }
  }

  lemma TailStep(items: seq<Item>)
    requires items != []
    ensures ItemsTail(items) == "," + ItemsText(items) && ItemsText(items) == items[0].Text() + ItemsTail(items[1..])
  {
    hide ItemsTail, ItemsText;
    var g, rest := items[0].Text(), ItemsTail(items[1..]);
    TailIs(items);
    assert ("," + g) + rest == "," + (g + rest);
  }

  lemma TailIs(items: seq<Item>)
    requires items != []
    ensures ItemsTail(items) == "," + items[0].Text() + ItemsTail(items[1..])
    ensures ItemsText(items) == items[0].Text() + ItemsTail(items[1..])
  {
  }

  lemma InRangeSplit(items: seq<Item>, bits: nat)
    requires AllOk(items) && items != []
    ensures AllOk(items[1..])
    ensures InRange(items, bits) <==> items[0].First() <= items[0].Last() < bits && InRange(items[1..], bits)
  {
    if items[0].First() <= items[0].Last() < bits && InRange(items[1..], bits) {
      forall i | 0 <= i < |items|
        ensures items[i].First() <= items[i].Last() < bits
      {
        if i > 0 {
          assert items[1..][i - 1] == items[i];
        }
      }
    }
  }

  /** The first counted element, and those after it. */
  lemma CountedSplit(items: seq<Item>, bits: nat)
    requires AllOk(items) && items != []
    ensures AllOk(items[1..]) && AllOk(LookedAt(items)) && AllOk(LookedAt(items[1..]))
    ensures var more := items[1..] != [] && items[1..] != [Empty];
      && (InRange(LookedAt(items), bits) <==>
            items[0].First() <= items[0].Last() < bits && (more ==> InRange(LookedAt(items[1..]), bits)))
      && Union(LookedAt(items)) == Span(items[0].First(), items[0].Last() + 1) + (if more then Union(LookedAt(items[1..])) else {})
  {
    CountedOk(items);
    CountedOk(items[1..]);
    InRangeSplit(LookedAt(items), bits);
    assert LookedAt(items)[0] == items[0];
    if items[1..] != [] && items[1..] != [Empty] {
      assert LookedAt(items)[1..] == LookedAt(items[1..]);
    } else {
      assert LookedAt(items) == [items[0]];
    }
  }

  lemma {:induction false} ParseItems(items: seq<Item>, c: char, total: nat, mask: set<nat>, bits: nat)
    requires AllOk(items) && items != [] && !IsSpace(c)
    ensures AllOk(LookedAt(items))
    ensures InRange(LookedAt(items), bits) ==>
      ParseListFrom(ItemsText(items), c, total, mask, bits) == (0, mask + Union(LookedAt(items)))
    ensures !InRange(LookedAt(items), bits) ==>
      ParseListFrom(ItemsText(items), c, total, mask, bits).0 in {-EINVAL, -ERANGE}
    decreases |items|
  {
    hide ScanElement, ItemsTail, ItemsText, DecFrom, LookedAt, InRange, Union;
    var item, rest := items[0], items[1..];
    ItemsUnfold(items);
    CountedSplit(items, bits);
    assert item.Ok();
    ScanItem(item, ItemsTail(rest), c, total);
    var span := Span(item.First(), item.Last() + 1);
    if item.First() <= item.Last() < bits && rest != [] && rest != [Empty] {
      var r := ScanElement(ItemsText(items), c, total, 0, 0, true, false);
      assert r.rest == ItemsText(rest);
      ParseItems(rest, r.last, r.totaldigits, mask + span, bits);
      assert mask + span + Union(LookedAt(rest)) == mask + Union(LookedAt(items));
    } else {
      assert span + {} == span;
    }
  }

  /** A list is accepted exactly when every counted element is in order and below
      the size, and then the mask is the union of the elements.  A missing number is not
      an error but stands for 0: an empty element for bit 0, unless it follows the last
      comma, and a range without a second number for an empty range, or bit 0. */
  lemma ParseListAccepts(items: seq<Item>, bits: nat)
    requires AllOk(items) && items != []
    ensures AllOk(LookedAt(items))
    ensures ParseListText(ItemsText(items), bits).0 == 0 <==> InRange(LookedAt(items), bits)
    ensures InRange(LookedAt(items), bits) ==> ParseListText(ItemsText(items), bits).1 == Union(LookedAt(items))
    ensures !InRange(LookedAt(items), bits) ==> ParseListText(ItemsText(items), bits).0 in {-EINVAL, -ERANGE}
  {
    ParseItems(items, '\0', 0, {}, bits);
  }

  /** Without empty elements all elements count. */
  lemma {:induction false} AllCounted(items: seq<Item>)
    requires forall i | 0 <= i < |items| :: items[i] != Empty
    ensures LookedAt(items) == items
  {
    if |items| > 1 {
      AllCounted(items[1..]);
      assert items[1..][0] == items[1] && [Empty][0] == Empty;
      assert items == [items[0]] + items[1..];
    }
  }

  /** An empty element anywhere before the last comma, or the empty text, adds bit 0. */
  lemma {:induction false} EmptyElementIsBitZero(items: seq<Item>, k: nat, bits: nat)
    requires AllOk(items) && k < |items| && items[k] == Empty && (k == 0 || k + 1 < |items|)
    requires ParseListText(ItemsText(items), bits).0 == 0
    ensures 0 in ParseListText(ItemsText(items), bits).1
  {
    ParseListAccepts(items, bits);
    ZeroCounted(items, k);
  }

  lemma {:induction false} ZeroCounted(items: seq<Item>, k: nat)
    requires AllOk(items) && k < |items| && items[k] == Empty && (k == 0 || k + 1 < |items|)
    ensures AllOk(LookedAt(items)) && 0 in Union(LookedAt(items))
  {
    CountedSplit(items, 0);
    if k > 0 {
      assert items[1..][k - 1] == Empty && |items[1..]| > 1;
      ZeroCounted(items[1..], k - 1);
    }
  }

  /** For instance "1,,5" sets bit 0 as well, "1," only bit 1, and "0-" bit 0. */
  lemma EmptyElementExamples()
    ensures ParseListText("1,,5", 8) == (0, {0, 1, 5})
    ensures ParseListText("1,", 8) == (0, {1})
    ensures ParseListText("0-", 8) == (0, {0})
  {
    ThreeElements();
    assert "1,"[1..] == "," && ","[1..] == "" && "0-"[1..] == "-" && "-"[1..] == "";
    assert Span(1, 2) == {1} && Span(0, 1) == {0};
  }

  lemma ThreeElements()
    ensures ParseListText("1,,5", 8) == (0, {0, 1, 5})
  {
    assert "1,,5"[1..] == ",,5" && ",,5"[1..] == ",5" && ",5"[1..] == "5" && "5"[1..] == "";
    assert Span(1, 2) == {1} && Span(0, 1) == {0} && Span(5, 6) == {5};
    assert ScanElement("1,,5", '\0', 0, 0, 0, true, false) == Numbers(1, 1, 1, ',', ",5");
    assert ScanElement(",5", ',', 1, 0, 0, true, false) == Numbers(0, 0, 1, ',', "5");
    assert ScanElement("5", ',', 1, 0, 0, true, false) == Numbers(5, 5, 2, '5', "");
    hide ScanElement, Span;
    assert ParseListText("1,,5", 8) == ParseListFrom(",5", ',', 1, {} + Span(1, 2), 8);
    assert ParseListFrom(",5", ',', 1, {1}, 8) == ParseListFrom("5", ',', 1, {1} + Span(0, 1), 8);
    assert ParseListFrom("5", ',', 1, {1} + {0}, 8) == (0, {1} + {0} + Span(5, 6));
    assert {} + {1} == {1} && {1} + {0} + {5} == {0, 1, 5};
  }

  // ---- the parts of a text ----

  /** What follows the last element that is looked at: whitespace up to the end of the text or
      up to a '\0'; whitespace before another character; a character that has no place in a
      list; or a hyphen where there can be none. */
  datatype Ending =
    | Finish(trail: string)
    | Null(trail: string, rest: string)
    | Embedded(spaces: string, x: char, rest: string)
    | Illegal(x: char, rest: string)
    | Hyphen(rest: string) {

    function Text(): string {
      match this
      case Finish(trail) => trail
      case Null(trail, rest) => trail + ['\0'] + rest
      case Embedded(spaces, x, rest) => spaces + [x] + rest
      case Illegal(x, rest) => [x] + rest
      case Hyphen(rest) => "-" + rest
    }

    /** The ending of a text with this last element; `digits` says whether there were any. */
    ghost predicate Ok(item: Item, digits: bool) {
      match this
      case Finish(trail) => AllSpaces(trail)
      case Null(trail, _) => AllSpaces(trail)
      case Embedded(spaces, x, _) => AllSpaces(spaces) && spaces != "" && !IsSpace(x) && x != '\0' && digits
      case Illegal(x, _) => !IsSpace(x) && x != '\0' && x != ',' && x != '-' && !IsDigit(x)
      case Hyphen(_) => !item.One?
    }
  }

  /** Empty elements with whitespace before each comma. */
  function BlankLead(blanks: seq<string>): string {
    if blanks == [] then "" else blanks[0] + "," + BlankLead(blanks[1..])
  }

  function ItemsLead(items: seq<Item>): string {
    if items == [] then "" else items[0].Text() + "," + ItemsLead(items[1..])
  }

  ghost predicate AllBlank(blanks: seq<string>) {
    forall i | 0 <= i < |blanks| :: AllSpaces(blanks[i])
  }

  function Empties(n: nat): (items: seq<Item>)
    ensures |items| == n
    ensures AllOk(items)
  {
    if n == 0 then [] else [Empty] + Empties(n - 1)
  }

  /** The elements of a text, in parts: leading whitespace, elements with their commas, and the
      last one with what ends it. */
  ghost predicate Parts(lead: string, items: seq<Item>, item: Item, e: Ending) {
    && AllSpaces(lead) && AllOk(items) && item.Ok()
    && e.Ok(item, SomeNumber(items) || item != Empty)
    && (items == [] && item == Empty && e == Finish("") ==> lead == "")
  }

  ghost predicate SomeNumber(items: seq<Item>) {
    exists i :: 0 <= i < |items| && items[i] != Empty
  }

  /** 0, or the error for the first element that is out of order or out of range. */
  ghost function FirstError(items: seq<Item>, bits: nat): int
    requires AllOk(items)
  {
    if items == [] then 0
    else if items[0].First() > items[0].Last() then -EINVAL
    else if items[0].Last() >= bits then -ERANGE
    else FirstError(items[1..], bits)
  }

  /** The bits of the elements before the first such one. */
  ghost function UnionBefore(items: seq<Item>, bits: nat): set<nat>
    requires AllOk(items)
  {
    if items == [] || items[0].First() > items[0].Last() || items[0].Last() >= bits then {}
    else Span(items[0].First(), items[0].Last() + 1) + UnionBefore(items[1..], bits)
  }

  /** What the parser answers, with `mask` already in the mask. */
  ghost predicate Answers(r: (int, set<nat>), mask: set<nat>, items: seq<Item>, item: Item, e: Ending, bits: nat)
    requires AllOk(items) && item.Ok()
  {
    var before := mask + Union(items);
    if FirstError(items, bits) != 0 then r == (FirstError(items, bits), mask + UnionBefore(items, bits))
    else match e
      case Embedded(_, _, _) => r == (-EINVAL, before)
      case Illegal(_, _) => r == (-EINVAL, before)
      case Hyphen(_) => r == (-EINVAL, before)
      case _ =>
        if item == Empty && e == Finish("") && items != [] then r == (0, before)
        else if item.First() > item.Last() then r == (-EINVAL, before)
        else if item.Last() >= bits then r == (-ERANGE, before)
        else r == (0, before + Span(item.First(), item.Last() + 1))
  }

  // ---- every text has such parts ----

  lemma {:induction false} TakeDec(s: string) returns (x: string, rest: string)
    ensures s == x + rest && IsDec(x) && (rest != "" ==> !IsDigit(rest[0])) && (x == "" ==> rest == s)
    decreases |s|
  {
    if s == "" || !IsDigit(s[0]) {
      x, rest := "", s;
    } else {
      x, rest := TakeDec(s[1..]);
      x := [s[0]] + x;
    }
  }

  /** The longest element a text begins with. */
  lemma TakeItem(s: string) returns (item: Item, rest: string)
    ensures s == item.Text() + rest && item.Ok() && (rest != "" ==> !IsDigit(rest[0]))
    ensures rest != "" && rest[0] == '-' ==> !item.One?
    ensures item == Empty ==> rest == s
    ensures |rest| <= |s|
  {
    var x, y;
    x, rest := TakeDec(s);
    item := Empty;
    if x != "" {
      item := One(x);
      if rest != "" && rest[0] == '-' {
        var after := rest[1..];
        assert rest == "-" + after;
        y, rest := TakeDec(after);
        item := if y == "" then Open(x) else Range(x, y);
        assert x + ("-" + (y + rest)) == x + "-" + y + rest;
      }
    }
  }

  lemma EndingOf(s: string, item: Item, digits: bool) returns (e: Ending)
    requires s != "" ==> !IsDigit(s[0]) && s[0] != ',' && (IsSpace(s[0]) ==> digits) && (s[0] == '-' ==> !item.One?)
    ensures s == e.Text() && e.Ok(item, digits)
  {
    if s == "" {
      e := Finish("");
    } else if IsSpace(s[0]) {
      var spaces, rest := TakeSpaces(s);
      if rest == "" {
        e := Finish(spaces);
      } else {
        assert rest == [rest[0]] + rest[1..];
        e := if rest[0] == '\0' then Null(spaces, rest[1..]) else Embedded(spaces, rest[0], rest[1..]);
        assert e.Text() == spaces + rest;
      }
    } else {
      assert s == [s[0]] + s[1..];
      e := if s[0] == '\0' then Null("", s[1..]) else if s[0] == '-' then Hyphen(s[1..]) else Illegal(s[0], s[1..]);
    }
  }

  lemma ItemsLeadStep(first: Item, items: seq<Item>, tail: string)
    ensures ItemsLead([first] + items) + tail == first.Text() + ("," + (ItemsLead(items) + tail))
  {
    assert ([first] + items)[1..] == items;
  }

  lemma {:induction false} SplitItems(s: string, digits: bool) returns (items: seq<Item>, item: Item, e: Ending)
    requires !digits && s != "" ==> s[0] != ',' && !IsSpace(s[0])
    ensures s == ItemsLead(items) + (item.Text() + e.Text()) && AllOk(items) && item.Ok()
    ensures !digits && items != [] ==> items[0] != Empty
    ensures e.Ok(item, digits || items != [] || item != Empty)
    decreases |s|
  {
    hide IsDec, AllSpaces, IsSpace, Item.Text, ItemsLead;
    var rest;
    item, rest := TakeItem(s);
    if rest != "" && rest[0] == ',' {
      var first := item;
      items, item, e := SplitItems(rest[1..], true);
      ItemsLeadStep(first, items, item.Text() + e.Text());
      assert rest == "," + rest[1..];
      items := [first] + items;
    } else {
      items := [];
      e := EndingOf(rest, item, digits || item != Empty);
      NoItemsLead(item.Text() + e.Text());
    }
  }

  lemma NoItemsLead(tail: string)
    ensures ItemsLead([]) + tail == tail
  {
  }

  lemma {:induction false} SplitBlanks(s: string) returns (blanks: seq<string>, lead: string, rest: string)
    ensures s == BlankLead(blanks) + (lead + rest) && AllBlank(blanks) && AllSpaces(lead)
    ensures rest != "" ==> rest[0] != ',' && !IsSpace(rest[0])
    decreases |s|
  {
    lead, rest := TakeSpaces(s);
    if rest != "" && rest[0] == ',' {
      var first, after := lead, rest[1..];
      assert rest == "," + after;
      blanks, lead, rest := SplitBlanks(after);
      BlankStep(first, blanks, lead + rest);
      blanks := [first] + blanks;
    } else {
      blanks := [];
      NoBlanks(s);
    }
  }

  lemma NoBlanks(tail: string)
    ensures BlankLead([]) + tail == tail
  {
  }

  lemma BlankStep(first: string, blanks: seq<string>, tail: string)
    ensures BlankLead([first] + blanks) + tail == first + ("," + (BlankLead(blanks) + tail))
  {
    assert ([first] + blanks)[1..] == blanks;
  }

  /** Every text has parts. */
  lemma EveryList(buf: string) returns (blanks: seq<string>, lead: string, items: seq<Item>, item: Item, e: Ending)
    ensures buf == BlankLead(blanks) + (lead + (ItemsLead(items) + (item.Text() + e.Text())))
    ensures AllBlank(blanks) && Parts(lead, items, item, e)
  {
    var rest;
    blanks, lead, rest := SplitBlanks(buf);
    if rest == "" {
      items, item, e := [], Empty, Finish(lead);
      assert lead + rest == "" + ("" + ("" + lead));
      lead := "";
    } else {
      items, item, e := SplitItems(rest, false);
      SomeDigits(lead, items, item, e);
    }
  }

  lemma SomeDigits(lead: string, items: seq<Item>, item: Item, e: Ending)
    requires AllSpaces(lead) && AllOk(items) && item.Ok() && (items != [] ==> items[0] != Empty) && e.Ok(item, items != [] || item != Empty)
    requires ItemsLead(items) + (item.Text() + e.Text()) != ""
    ensures Parts(lead, items, item, e)
  {
    hide AllSpaces;
    if items != [] {
      assert SomeNumber(items);
    }
  }

  // ---- what the parser makes of the parts ----

  lemma {:induction false} SkipSpaces(spaces: string, s: string, c: char, total: nat, a: nat, b: nat, exp: bool, inRange: bool)
    requires AllSpaces(spaces)
    ensures ScanElement(spaces + s, c, total, a, b, exp, inRange)
         == ScanElement(s, if spaces == "" then c else spaces[|spaces| - 1], total, a, b, exp, inRange)
    decreases |spaces|
  {
    if spaces == "" {
      assert spaces + s == s;
    } else {
      assert (spaces + s)[1..] == spaces[1..] + s;
      SkipSpaces(spaces[1..], s, spaces[0], total, a, b, exp, inRange);
    }
  }

  /** Over an element, up to what follows it. */
  lemma ScanOver(item: Item, tail: string, c: char, total: nat) returns (c': char, total': nat)
    requires item.Ok() && (IsSpace(c) ==> total == 0)
    ensures (IsSpace(c') ==> total' == 0) && (total' > 0 <==> total > 0 || item != Empty)
    ensures ScanElement(item.Text() + tail, c, total, 0, 0, true, false)
         == ScanElement(tail, c', total', item.First(), item.Last(), item.Empty? || item.Open?, item.Range? || item.Open?)
  {
    hide DecFrom, ScanElement;
    match item
    case One(x) =>
      ScanDigits(x, tail, c, total, 0, 0, true, false);
      c', total' := x[|x| - 1], total + |x|;
    case Range(x, y) =>
      ScanHyphen(x, y + tail, c, total);
      assert item.Text() + tail == x + ("-" + (y + tail));
      ScanDigits(y, tail, '-', total + |x|, DecFrom(0, x), 0, true, true);
      c', total' := y[|y| - 1], total + |x| + |y|;
    case Open(x) =>
      ScanHyphen(x, tail, c, total);
      assert item.Text() + tail == x + ("-" + tail);
      c', total' := '-', total + |x|;
    case Empty =>
      assert item.Text() + tail == tail;
      c', total' := c, total;
  }

  lemma ScanEnding(e: Ending, item: Item, c: char, total: nat, a: nat, b: nat)
    requires e.Ok(item, total > 0) && (IsSpace(c) ==> total == 0)
    ensures var r := ScanElement(e.Text(), c, total, a, b, item.Empty? || item.Open?, item.Range? || item.Open?);
      match e
      case Finish(_) => r.Numbers? && r.a == a && r.b == b && r.rest == ""
      case Null(_, _) => r.Numbers? && r.a == a && r.b == b && r.last == '\0'
      case _ => r == Stop(-EINVAL)
  {
    var exp, inRange := item.Empty? || item.Open?, item.Range? || item.Open?;
    match e
    case Finish(trail) =>
      SkipSpaces(trail, "", c, total, a, b, exp, inRange);
      assert trail + "" == trail;
    case Null(trail, rest) =>
      SkipSpaces(trail, ['\0'] + rest, c, total, a, b, exp, inRange);
      assert trail + ['\0'] + rest == trail + (['\0'] + rest);
    case Embedded(spaces, x, rest) =>
      SkipSpaces(spaces, [x] + rest, c, total, a, b, exp, inRange);
      assert spaces + [x] + rest == spaces + ([x] + rest);
    case Illegal(x, rest) =>
    case Hyphen(rest) =>
  }

  /** The last element, and what ends it. */
  lemma EndAnswers(item: Item, e: Ending, c: char, total: nat, mask: set<nat>, bits: nat)
    requires item.Ok() && e.Ok(item, total > 0 || item != Empty) && (IsSpace(c) ==> total == 0)
    ensures Answers(ParseListFrom(item.Text() + e.Text(), c, total, mask, bits), mask, [], item, e, bits)
  {
    hide ScanElement, DecFrom, AllSpaces, Item.Text, Ending.Text;
    var c', total' := ScanOver(item, e.Text(), c, total);
    ScanEnding(e, item, c', total', item.First(), item.Last());
    assert mask + Union([]) == mask;
  }

  lemma ScanComma(tail: string, c: char, total: nat, a: nat, b: nat, exp: bool, inRange: bool)
    requires IsSpace(c) ==> total == 0
    ensures ScanElement("," + tail, c, total, a, b, exp, inRange) == Numbers(a, b, total, ',', tail)
  {
    assert ("," + tail)[1..] == tail;
  }

  /** Nothing is left of a text only if nothing was there. */
  lemma NothingLeft(items: seq<Item>, item: Item, e: Ending)
    requires item.Ok()
    ensures ItemsLead(items) + (item.Text() + e.Text()) == "" <==> items == [] && item == Empty && e == Finish("")
  {
    if items != [] {
      assert |ItemsLead(items)| > 0;
    }
  }

  lemma ErrorFirst(items: seq<Item>, mask: set<nat>, bits: nat)
    requires AllOk(items) && items != []
    ensures AllOk(items[1..]) && items[0].Ok()
    ensures FirstError(items, bits) ==
      if items[0].First() > items[0].Last() then -EINVAL else if items[0].Last() >= bits then -ERANGE else FirstError(items[1..], bits)
    ensures mask + Union(items) == mask + Span(items[0].First(), items[0].Last() + 1) + Union(items[1..])
    ensures mask + UnionBefore(items, bits) ==
      if items[0].First() > items[0].Last() || items[0].Last() >= bits then mask
      else mask + Span(items[0].First(), items[0].Last() + 1) + UnionBefore(items[1..], bits)
  {
    hide Item.Ok, Span;
  }

  lemma NoItems(mask: set<nat>, bits: nat)
    ensures FirstError([], bits) == 0 && mask + Union([]) == mask
  {
  }

  /** One element and its comma. */
  lemma ElementThen(items: seq<Item>, tail: string, c: char, total: nat, mask: set<nat>, bits: nat) returns (total': nat)
    requires AllOk(items) && items != [] && (IsSpace(c) ==> total == 0)
    ensures items[0].Ok() && (total' > 0 <==> total > 0 || items[0] != Empty)
    ensures var span := Span(items[0].First(), items[0].Last() + 1);
      ParseListFrom(ItemsLead(items) + tail, c, total, mask, bits) ==
        if items[0].First() > items[0].Last() then (-EINVAL, mask)
        else if items[0].Last() >= bits then (-ERANGE, mask)
        else if ItemsLead(items[1..]) + tail != "" then ParseListFrom(ItemsLead(items[1..]) + tail, ',', total', mask + span, bits)
        else (0, mask + span)
  {
    hide ScanElement, Span, Item.Text, DecFrom;
    var item, rest := items[0], ItemsLead(items[1..]) + tail;
    assert items == [item] + items[1..];
    ItemsLeadStep(item, items[1..], tail);
    var c';
    c', total' := ScanOver(item, "," + rest, c, total);
    ScanComma(rest, c', total', item.First(), item.Last(), item.Empty? || item.Open?, item.Range? || item.Open?);
  }

  lemma {:induction false} ItemsAnswer(items: seq<Item>, item: Item, e: Ending, c: char, total: nat, mask: set<nat>, bits: nat)
    requires AllOk(items) && item.Ok() && e.Ok(item, total > 0 || SomeNumber(items) || item != Empty) && (IsSpace(c) ==> total == 0)
    ensures Answers(ParseListFrom(ItemsLead(items) + (item.Text() + e.Text()), c, total, mask, bits), mask, items, item, e, bits)
    decreases |items|
  {
    hide ScanElement, DecFrom, AllSpaces, Item.Text, Ending.Text, Ending.Ok, ItemsLead, FirstError, Union, Span, ParseListFrom, Item.Ok;
    var tail := item.Text() + e.Text();
    if items == [] {
      NoItemsLead(tail);
      EndAnswers(item, e, c, total, mask, bits);
      return;
    }
    var rest := items[1..];
    ErrorFirst(items, mask, bits);
    var total' := ElementThen(items, tail, c, total, mask, bits);
    var span := Span(items[0].First(), items[0].Last() + 1);
    NothingLeft(rest, item, e);
    NoItems(mask + span, bits);
    if ItemsLead(rest) + tail != "" {
      NumberFirst(items);
      ItemsAnswer(rest, item, e, ',', total', mask + span, bits);
    }
  }

  lemma NumberFirst(items: seq<Item>)
    requires items != []
    ensures SomeNumber(items) <==> items[0] != Empty || SomeNumber(items[1..])
  {
    if SomeNumber(items) && items[0] == Empty {
      var i :| 0 <= i < |items| && items[i] != Empty;
      assert items[1..][i - 1] != Empty;
    }
    if SomeNumber(items[1..]) {
      var i :| 0 <= i < |items[1..]| && items[1..][i] != Empty;
      assert items[i + 1] != Empty;
    }
  }

  lemma AnswersStep(r: (int, set<nat>), mask: set<nat>, items: seq<Item>, item: Item, e: Ending, bits: nat)
    requires AllOk(items) && item.Ok() && items != [] && items[0].Ok() && AllOk(items[1..])
    requires items[0].First() <= items[0].Last() < bits
    requires Answers(r, mask + Span(items[0].First(), items[0].Last() + 1), items[1..], item, e, bits)
    requires items[1..] == [] ==> !(item == Empty && e == Finish(""))
    ensures Answers(r, mask, items, item, e, bits)
  {
    hide Span, Item.First, Item.Last, FirstError, Union, Item.Ok;
    ErrorFirst(items, mask, bits);
  }

  lemma {:induction false} BlanksAnswer(blanks: seq<string>, lead: string, items: seq<Item>, item: Item, e: Ending,
                                        c: char, mask: set<nat>, bits: nat)
    requires AllBlank(blanks) && Parts(lead, items, item, e)
    ensures AllOk(Empties(|blanks|) + items)
    ensures Answers(ParseListFrom(BlankLead(blanks) + (lead + (ItemsLead(items) + (item.Text() + e.Text()))), c, 0, mask, bits),
                    mask, Empties(|blanks|) + items, item, e, bits)
    decreases |blanks|
  {
    hide ScanElement, DecFrom, AllSpaces, Item.Text, Ending.Text, Ending.Ok, ItemsLead, BlankLead, Answers, Span, Item.Ok;
    var text := ItemsLead(items) + (item.Text() + e.Text());
    if blanks == [] {
      NoBlanks(lead + text);
      SkipSpaces(lead, text, c, 0, 0, 0, true, false);
      var c' := if lead == "" then c else lead[|lead| - 1];
      ItemsAnswer(items, item, e, c', 0, mask, bits);
      assert Empties(0) + items == items;
      return;
    }
    var first, more := blanks[0], blanks[1..];
    var rest := BlankLead(more) + (lead + text);
    var all := Empties(|blanks|) + items;
    assert all[1..] == Empties(|more|) + items && all[0] == Empty;
    assert blanks == [first] + more;
    BlankStep(first, more, lead + text);
    SkipSpaces(first, "," + rest, c, 0, 0, 0, true, false);
    ScanComma(rest, if first == "" then c else first[|first| - 1], 0, 0, 0, true, false);
    BlanksAnswer(more, lead, items, item, e, ',', mask + Span(0, 1), bits);
    EmptyFirst(all, mask, item, e, bits);
    BlankLeft(more, lead, items, item, e);
    if bits > 0 && rest != "" {
      AnswersStep(ParseListFrom(rest, ',', 0, mask + Span(0, 1), bits), mask, all, item, e, bits);
    }
  }

  /** An empty element first: bit 0 must be below the size; it may be all there is. */
  lemma EmptyFirst(items: seq<Item>, mask: set<nat>, item: Item, e: Ending, bits: nat)
    requires AllOk(items) && item.Ok() && items != [] && items[0] == Empty
    ensures items[0].Ok() && items[0].First() == 0 && items[0].Last() == 0
    ensures bits == 0 ==> Answers((-ERANGE, mask), mask, items, item, e, bits)
    ensures bits > 0 && items[1..] == [] && item == Empty && e == Finish("") ==>
      Answers((0, mask + Span(0, 1)), mask, items, item, e, bits)
  {
    hide Span;
    ErrorFirst(items, mask, bits);
    NoItems(mask + Span(0, 1), bits);
  }

  lemma BlankLeft(blanks: seq<string>, lead: string, items: seq<Item>, item: Item, e: Ending)
    requires Parts(lead, items, item, e)
    ensures BlankLead(blanks) + (lead + (ItemsLead(items) + (item.Text() + e.Text()))) == ""
      <==> blanks == [] && items == [] && item == Empty && e == Finish("")
  {
    NothingLeft(items, item, e);
    if blanks != [] {
      assert |BlankLead(blanks)| > 0;
    }
  }

  /** What the parser makes of any text: by `EveryList` it has parts, and they decide.  An empty
      element stands for bit 0; so do the first ones, which alone may have whitespace around. */
  lemma ParseListMeans(blanks: seq<string>, lead: string, items: seq<Item>, item: Item, e: Ending, bits: nat)
    requires AllBlank(blanks) && Parts(lead, items, item, e)
    ensures AllOk(Empties(|blanks|) + items)
    ensures Answers(ParseListText(BlankLead(blanks) + (lead + (ItemsLead(items) + (item.Text() + e.Text()))), bits),
                    {}, Empties(|blanks|) + items, item, e, bits)
  {
    hide Answers, BlankLead, ItemsLead, ParseListFrom, Parts, Item.Text, Ending.Text;
    BlanksAnswer(blanks, lead, items, item, e, '\0', {}, bits);
  }

  /** For instance, a newline at the end is skipped. */
  lemma NewlineExample()
    ensures ParseListText("3-5\n", 8) == (0, {3, 4, 5})
  {
    var item, e := Range("3", "5"), Finish("\n");
    ExampleParts(item, e);
    hide ParseListText, Item.First, Item.Last, Item.Text, Ending.Text, Span, Answers, Parts, Item.Ok;
    ParseListMeans([], "", [], item, e, 8);
    assert Empties(0) + [] == [];
    LastAnswer(ParseListText("3-5\n", 8), item, e, 8);
  }

  lemma ExampleParts(item: Item, e: Ending)
    requires item == Range("3", "5") && e == Finish("\n")
    ensures Parts("", [], item, e) && item.First() == 3 && item.Last() == 5 && Span(3, 6) == {3, 4, 5}
    ensures BlankLead([]) + ("" + (ItemsLead([]) + (item.Text() + e.Text()))) == "3-5\n"
  {
    assert DecFrom(0, "3") == DecFrom(3, "3"[1..]) && DecFrom(0, "5") == DecFrom(5, "5"[1..]);
    assert AllSpaces("\n") && IsSpace('\n');
    assert Span(3, 6) == {3, 4, 5};
  }

  lemma LastAnswer(r: (int, set<nat>), item: Item, e: Ending, bits: nat)
    requires item.Ok() && item != Empty && e.Finish? && item.First() <= item.Last() < bits && Answers(r, {}, [], item, e, bits)
    ensures r == (0, Span(item.First(), item.Last() + 1))
  {
    hide Item.First, Item.Last, Span;
    NoItems({}, bits);
    var span := Span(item.First(), item.Last() + 1);
    assert {} + span == span;
  }
}
