/** What `__bitmap_parse` makes of any text, and the round trip of printing and parsing. */
module HexTheorems {
  import opened Words
  import opened Bitmap
  import opened BitSets
  import opened BitLength
  import opened HexText
  import opened HexParse

  lemma HexStep(v: nat, s: string)
    requires IsHex(s)
    ensures HexFrom(v, s) == if s == "" then v else HexFrom(16 * v + Unhex(s[0]), s[1..])
  {
  }

  /** Scanning over one digit. */
  lemma ScanDigit(text: string, c: char, total: nat, chunk: nat, nd: nat)
    requires text != "" && IsXDigit(text[0]) && (IsSpace(c) ==> total == 0) && chunk < CHUNK_SIZE
    ensures !IsSpace(text[0])
    ensures chunk >= 0x1000_0000 ==> ScanGroup(text, c, total, chunk, nd) == Stop(-EOVERFLOW)
    ensures chunk < 0x1000_0000 ==>
      ScanGroup(text, c, total, chunk, nd) == ScanGroup(text[1..], text[0], total + 1, 16 * chunk + Unhex(text[0]), nd + 1)
  {
  }

  /** Scanning over digits: the number grows until it would not fit 32 bits. */
  lemma {:induction false} GroupDigits(g: string, tail: string, c: char, total: nat, chunk: nat, nd: nat)
    requires IsHex(g) && (IsSpace(c) ==> total == 0) && chunk < CHUNK_SIZE
    ensures HexFrom(chunk, g) >= CHUNK_SIZE ==> ScanGroup(g + tail, c, total, chunk, nd) == Stop(-EOVERFLOW)
    ensures HexFrom(chunk, g) < CHUNK_SIZE ==>
      ScanGroup(g + tail, c, total, chunk, nd)
      == ScanGroup(tail, if g == "" then c else g[|g| - 1], total + |g|, HexFrom(chunk, g), nd + |g|)
    decreases |g|
  {
    hide ScanGroup, HexFrom, IsSpace;
    HexStep(chunk, g);
    if g == "" {
      assert g + tail == tail;
    } else {
      var rest := g[1..];
      assert (g + tail)[1..] == rest + tail && (g + tail)[0] == g[0];
      ScanDigit(g + tail, c, total, chunk, nd);
      if chunk >= 0x1000_0000 {
        HexGrows(16 * chunk + Unhex(g[0]), rest);
      } else {
        GroupDigits(rest, tail, g[0], total + 1, 16 * chunk + Unhex(g[0]), nd + 1);
        assert rest != "" ==> rest[|rest| - 1] == g[|g| - 1];
      }
    }
  }

  lemma {:induction false} HexGrows(v: nat, s: string)
    requires IsHex(s)
    ensures HexFrom(v, s) >= v
    decreases |s|
  {
    if s != "" {
      HexGrows(16 * v + Unhex(s[0]), s[1..]);
    }
  }

  lemma {:induction false} CombinedGrows(v: nat, groups: seq<string>)
    requires HexGroups(groups)
    ensures Combined(v, groups) >= v
    decreases |groups|
  {
    if groups != [] {
      UpGrows(v, CHUNKSZ);
      CombinedGrows(Up(v, CHUNKSZ) + HexValue(groups[0]), groups[1..]);
    }
  }

  lemma {:induction false} UpGrows(x: nat, n: nat)
    ensures Up(x, n) >= x
  {
    if n > 0 {
      UpGrows(x, n - 1);
    }
  }

  /** Between chunks the mask holds the value so far and `nbits` is its length. */
  ghost predicate AccOk(acc: Acc, bits: nat) {
    acc.value < Pow2(bits) && acc.nbits == Length(acc.value) && (acc.nchunks == 0 <==> acc.value == 0)
  }

  lemma Nothing()
    ensures Length(0) == 0 && HexValue("") == 0
  {
  }

  /** Storing a chunk is exact as long as the new length fits; if it does not, the value is too large. */
  lemma AbsorbExact(acc: Acc, chunk: nat, bits: nat)
    requires AccOk(acc, bits) && chunk < CHUNK_SIZE && (acc.nchunks == 0 ==> chunk > 0)
    ensures Absorb(acc, chunk, bits).nbits == Length(Up(acc.value, CHUNKSZ) + chunk)
    ensures Absorb(acc, chunk, bits).nbits > bits <==> Up(acc.value, CHUNKSZ) + chunk >= Pow2(bits)
    ensures Absorb(acc, chunk, bits).value == Low(Up(acc.value, CHUNKSZ), bits) + chunk
    ensures Absorb(acc, chunk, bits).nbits <= bits ==>
      AccOk(Absorb(acc, chunk, bits), bits) && Absorb(acc, chunk, bits).value == Up(acc.value, CHUNKSZ) + chunk
  {
    hide Up, Low, Pow2, Fls, Length;
    var v := Up(acc.value, CHUNKSZ) + chunk;
    Pow2Small();
    Nothing();
    if acc.nchunks == 0 {
      UpZero(CHUNKSZ);
      FlsIsLength(chunk);
    } else {
      LengthUp(acc.value, chunk, CHUNKSZ);
      UpPositive(acc.value, CHUNKSZ);
    }
    LengthAtMost(v, bits);
    if v < Pow2(bits) {
      LowSmall(Up(acc.value, CHUNKSZ), bits);
    }
  }

  /** All groups fit 32 bits and the number they spell fits the bitmap. */
  ghost predicate Fits(v: nat, groups: seq<string>, bits: nat)
    requires HexGroups(groups)
  {
    SmallGroups(groups) && Combined(v, groups) < Pow2(bits)
  }

  lemma SmallSplit(groups: seq<string>)
    requires HexGroups(groups) && groups != []
    ensures SmallGroups(groups) <==> HexValue(groups[0]) < CHUNK_SIZE && SmallGroups(groups[1..])
  {
    if HexValue(groups[0]) < CHUNK_SIZE && SmallGroups(groups[1..]) {
      forall i | 0 <= i < |groups|
        ensures HexValue(groups[i]) < CHUNK_SIZE
      {
        if i > 0 {
          assert groups[1..][i - 1] == groups[i];
        }
      }
    }
  }

  // ---- the parts of a text ----

  /** Groups, each with its comma. */
  function Lead(groups: seq<string>): string {
    if groups == [] then "" else groups[0] + "," + Lead(groups[1..])
  }

  /** What follows the last digits that are looked at: whitespace up to the end of the text or
      up to a '\0'; whitespace before another character; a character that is no digit; or a
      comma without digits before it. */
  datatype Ending =
    | Finish(trail: string)
    | Null(trail: string, rest: string)
    | Embedded(spaces: string, x: char, rest: string)
    | Illegal(x: char, rest: string)
    | NoDigits(rest: string) {

    function Text(): string {
      match this
      case Finish(trail) => trail
      case Null(trail, rest) => trail + ['\0'] + rest
      case Embedded(spaces, x, rest) => spaces + [x] + rest
      case Illegal(x, rest) => [x] + rest
      case NoDigits(rest) => "," + rest
    }

    /** The ending of a text whose last digits are g; `digits` says whether there were any. */
    ghost predicate Ok(g: string, digits: bool) {
      match this
      case Finish(trail) => AllSpaces(trail)
      case Null(trail, _) => AllSpaces(trail)
      case Embedded(spaces, x, _) => AllSpaces(spaces) && spaces != "" && !IsSpace(x) && x != '\0' && digits
      case Illegal(x, _) => !IsSpace(x) && x != '\0' && x != ',' && !IsXDigit(x)
      case NoDigits(_) => g == ""
    }
  }

  /** A text in parts, after leading whitespace: groups with their commas, digits g, an ending. */
  ghost predicate Parts(groups: seq<string>, g: string, e: Ending) {
    HexGroups(groups) && IsHex(g) && e.Ok(g, groups != [] || g != "")
  }

  /** The number with the last digits as one more group, if there are any. */
  function Joined(v: nat, g: string): nat
    requires IsHex(g)
  {
    if g == "" then v else Up(v, CHUNKSZ) + HexValue(g)
  }

  /** What groups that overflow leave in the mask: what was read before a group above 32 bits; and
      of a number too large the bits below the size, with the group that made it so in full. */
  ghost function Overflowed(v: nat, groups: seq<string>, bits: nat): nat
    requires HexGroups(groups)
    decreases |groups|
  {
    if groups == [] || HexValue(groups[0]) >= CHUNK_SIZE then v
    else
      var next := Up(v, CHUNKSZ) + HexValue(groups[0]);
      if next >= Pow2(bits) then Low(Up(v, CHUNKSZ), bits) + HexValue(groups[0]) else Overflowed(next, groups[1..], bits)
  }

  /** What the parser answers: overflow for a group or a number too large; for digits up to the
      end the number; 0 with the groups before when whitespace is embedded, or when nothing
      follows the last comma; and otherwise an error, with the groups before left in the mask. */
  ghost predicate Answers(r: (int, nat), v: nat, groups: seq<string>, g: string, e: Ending, bits: nat)
    requires HexGroups(groups) && IsHex(g)
  {
    var before := Combined(v, groups);
    if !Fits(v, groups, bits) then r == (-EOVERFLOW, Overflowed(v, groups, bits))
    else if HexValue(g) >= CHUNK_SIZE then r == (-EOVERFLOW, before)
    else match e
      case Embedded(_, _, _) => r == (0, before)
      case Illegal(_, _) => r == (-EINVAL, before)
      case NoDigits(_) => r == (-EINVAL, before)
      case _ =>
        if g == "" then r == (if e == Finish("") && groups != [] then 0 else -EINVAL, before)
        else if Joined(before, g) < Pow2(bits) then r == (0, Joined(before, g))
        else r == (-EOVERFLOW, Low(Up(before, CHUNKSZ), bits) + HexValue(g))
  }

  // ---- every text has such parts ----

  lemma {:induction false} TakeHex(s: string) returns (g: string, rest: string)
    ensures s == g + rest && IsHex(g) && (rest != "" ==> !IsXDigit(rest[0])) && (g == "" ==> rest == s)
    decreases |s|
  {
    if s == "" || !IsXDigit(s[0]) {
      g, rest := "", s;
    } else {
      g, rest := TakeHex(s[1..]);
      g := [s[0]] + g;
    }
  }

  lemma EndingOf(s: string, g: string, digits: bool) returns (e: Ending)
    requires s != "" ==> !IsXDigit(s[0]) && (s[0] == ',' ==> g == "") && (IsSpace(s[0]) ==> digits)
    ensures s == e.Text() && e.Ok(g, digits)
  {
    if s == "" {
      e := Finish("");
    } else if IsSpace(s[0]) {
      var spaces, rest := TakeSpaces(s);
      if rest == "" {
        e := Finish(spaces);
      } else {
        assert rest == [rest[0]] + rest[1..];
        e := if rest[0] == '\0' then Null(spaces, rest[1..]) else Embedded(spaces, rest[0], rest[1..]);
        assert e.Text() == spaces + rest;
      }
    } else {
      assert s == [s[0]] + s[1..];
      e := if s[0] == '\0' then Null("", s[1..]) else if s[0] == ',' then NoDigits(s[1..]) else Illegal(s[0], s[1..]);
    }
  }

  lemma {:induction false} SplitGroups(s: string, digits: bool) returns (groups: seq<string>, g: string, e: Ending)
    requires s != "" && IsSpace(s[0]) ==> digits
    ensures s == Lead(groups) + (g + e.Text()) && HexGroups(groups) && IsHex(g)
    ensures e.Ok(g, digits || groups != [] || g != "")
    decreases |s|
  {
    var rest;
    g, rest := TakeHex(s);
    if g != "" && rest != "" && rest[0] == ',' {
      var first := g;
      groups, g, e := SplitGroups(rest[1..], true);
      LeadStep(first, groups, g + e.Text());
      assert rest == "," + rest[1..];
      groups := [first] + groups;
    } else {
      groups := [];
      e := EndingOf(rest, g, digits || g != "");
      LeadNone(g + e.Text());
    }
  }

  lemma LeadStep(first: string, groups: seq<string>, tail: string)
    ensures Lead([first] + groups) + tail == first + ("," + (Lead(groups) + tail))
  {
    assert ([first] + groups)[1..] == groups;
  }

  /** Every text has parts. */
  lemma EveryText(buf: string) returns (lead: string, groups: seq<string>, g: string, e: Ending)
    ensures buf == lead + (Lead(groups) + (g + e.Text())) && AllSpaces(lead) && Parts(groups, g, e)
  {
    var rest;
    lead, rest := TakeSpaces(buf);
    groups, g, e := SplitGroups(rest, false);
  }

  // ---- what the parser makes of the parts ----

  /** Before the first digit whitespace makes no difference. */
  lemma {:induction false} LeadSpaces(lead: string, s: string, c: char) returns (c': char)
    requires AllSpaces(lead)
    ensures ScanGroup(lead + s, c, 0, 0, 0) == ScanGroup(s, c', 0, 0, 0)
    decreases |lead|
  {
    if lead == "" {
      c' := c;
      assert lead + s == s;
    } else {
      c' := LeadSpaces(lead[1..], s, lead[0]);
      assert (lead + s)[1..] == lead[1..] + s;
    }
  }

  /** Whitespace after digits is skipped up to the next character. */
  lemma {:induction false} SkipSpaces(spaces: string, s: string, c: char, total: nat, chunk: nat, nd: nat)
    requires AllSpaces(spaces) && chunk < CHUNK_SIZE
    ensures ScanGroup(spaces + s, c, total, chunk, nd)
         == ScanGroup(s, if spaces == "" then c else spaces[|spaces| - 1], total, chunk, nd)
    decreases |spaces|
  {
    if spaces == "" {
      assert spaces + s == s;
    } else {
      assert (spaces + s)[1..] == spaces[1..] + s;
      SkipSpaces(spaces[1..], s, spaces[0], total, chunk, nd);
    }
  }

  lemma ScanEnding(e: Ending, g: string, c: char, total: nat, chunk: nat, nd: nat)
    requires e.Ok(g, total > 0) && (IsSpace(c) ==> total == 0) && chunk < CHUNK_SIZE
    ensures var r := ScanGroup(e.Text(), c, total, chunk, nd);
      match e
      case Finish(_) => r.Group? && r.chunk == chunk && r.ndigits == nd && r.rest == ""
      case Null(_, _) => r.Group? && r.chunk == chunk && r.ndigits == nd && r.last == '\0'
      case Embedded(_, _, _) => r == Stop(0)
      case Illegal(_, _) => r == Stop(-EINVAL)
      case NoDigits(_) => r.Group? && r.ndigits == nd
  {
    match e
    case Finish(trail) =>
      SkipSpaces(trail, "", c, total, chunk, nd);
      assert trail + "" == trail;
    case Null(trail, rest) =>
      SkipSpaces(trail, ['\0'] + rest, c, total, chunk, nd);
      assert trail + ['\0'] + rest == trail + (['\0'] + rest);
    case Embedded(spaces, x, rest) =>
      SkipSpaces(spaces, [x] + rest, c, total, chunk, nd);
      assert spaces + [x] + rest == spaces + ([x] + rest);
    case Illegal(x, rest) =>
    case NoDigits(rest) =>
  }

  /** The last digits, and what ends them. */
  lemma EndAnswers(g: string, e: Ending, c: char, total: nat, acc: Acc, bits: nat)
    requires IsHex(g) && e.Ok(g, total > 0 || g != "") && (IsSpace(c) ==> total == 0) && AccOk(acc, bits)
    ensures Answers(ParseFrom(g + e.Text(), c, total, acc, bits), acc.value, [], g, e, bits)
  {
    hide ScanGroup, HexFrom, Up, Low, Pow2, Fls, Length, Absorb, AllSpaces;
    Nothing();
    LengthAtMost(acc.value, bits);
    GroupDigits(g, e.Text(), c, total, 0, 0);
    var chunk := HexValue(g);
    if chunk < CHUNK_SIZE {
      if g != "" {
        LastDigit(g);
      }
      ScanEnding(e, g, if g == "" then c else g[|g| - 1], total + |g|, chunk, |g|);
      UpZero(CHUNKSZ);
      if !(acc.nchunks == 0 && chunk == 0) {
        AbsorbExact(acc, chunk, bits);
      }
    }
  }

  lemma LastDigit(g: string)
    requires IsHex(g) && g != ""
    ensures !IsSpace(g[|g| - 1])
  {
  }

  /** One group of a text with more to come. */
  lemma ScanLead(groups: seq<string>, tail: string, c: char, total: nat)
    requires HexGroups(groups) && groups != [] && (IsSpace(c) ==> total == 0)
    ensures HexValue(groups[0]) >= CHUNK_SIZE ==> ScanGroup(Lead(groups) + tail, c, total, 0, 0) == Stop(-EOVERFLOW)
    ensures HexValue(groups[0]) < CHUNK_SIZE ==>
      ScanGroup(Lead(groups) + tail, c, total, 0, 0)
      == Group(HexValue(groups[0]), |groups[0]|, total + |groups[0]|, ',', Lead(groups[1..]) + tail)
  {
    hide HexFrom;
    var g, rest := groups[0], Lead(groups[1..]);
    assert (g + "," + rest) + tail == g + ("," + (rest + tail));
    GroupDigits(g, "," + (rest + tail), c, total, 0, 0);
    LastDigit(g);
    assert ("," + (rest + tail))[1..] == rest + tail;
  }

  lemma LeadNone(tail: string)
    ensures Lead([]) + tail == tail
  {
  }

  /** Nothing is left of a text only if nothing was there. */
  lemma NothingLeft(groups: seq<string>, g: string, e: Ending)
    ensures Lead(groups) + (g + e.Text()) == "" <==> groups == [] && g == "" && e == Finish("")
  {
    if groups != [] {
      assert |Lead(groups)| > 0;
    }
  }

  /** One group more at the front. */
  lemma AnswersStep(r: (int, nat), v: nat, groups: seq<string>, g: string, e: Ending, bits: nat)
    requires HexGroups(groups) && IsHex(g) && groups != [] && HexValue(groups[0]) < CHUNK_SIZE
    ensures var next := Up(v, CHUNKSZ) + HexValue(groups[0]);
      && (next < Pow2(bits) && Answers(r, next, groups[1..], g, e, bits) && (groups[1..] == [] ==> !(g == "" && e == Finish(""))) ==>
            Answers(r, v, groups, g, e, bits))
      && (next < Pow2(bits) && groups[1..] == [] && g == "" && e == Finish("") && r == (0, next) ==> Answers(r, v, groups, g, e, bits))
      && (next >= Pow2(bits) && r == (-EOVERFLOW, Low(Up(v, CHUNKSZ), bits) + HexValue(groups[0])) ==> Answers(r, v, groups, g, e, bits))
  {
    hide HexFrom, Up, Low, Pow2;
    var next := Up(v, CHUNKSZ) + HexValue(groups[0]);
    Nothing();
    SmallSplit(groups);
    CombinedGrows(next, groups[1..]);
  }

  lemma TooLong(v: nat, groups: seq<string>, g: string, e: Ending, bits: nat)
    requires HexGroups(groups) && IsHex(g) && groups != [] && HexValue(groups[0]) >= CHUNK_SIZE
    ensures Answers((-EOVERFLOW, v), v, groups, g, e, bits)
  {
    hide HexFrom, Up, Low, Pow2;
    SmallSplit(groups);
  }

  lemma {:induction false} PartsAnswer(groups: seq<string>, g: string, e: Ending, c: char, total: nat, acc: Acc, bits: nat)
    requires HexGroups(groups) && IsHex(g) && e.Ok(g, total > 0 || groups != [] || g != "")
    requires (IsSpace(c) ==> total == 0) && AccOk(acc, bits)
    ensures Answers(ParseFrom(Lead(groups) + (g + e.Text()), c, total, acc, bits), acc.value, groups, g, e, bits)
    decreases |groups|
  {
    hide ScanGroup, HexFrom, Up, Low, Pow2, Fls, Length, Absorb, Lead, AllSpaces, Ending.Text, Ending.Ok;
    var tail := g + e.Text();
    Nothing();
    LengthAtMost(acc.value, bits);
    if groups == [] {
      EndAnswers(g, e, c, total, acc, bits);
      LeadNone(tail);
      return;
    }
    var chunk, more := HexValue(groups[0]), groups[1..];
    ScanLead(groups, tail, c, total);
    NothingLeft(more, g, e);
    if chunk >= CHUNK_SIZE {
      TooLong(acc.value, groups, g, e, bits);
      return;
    }
    hide Answers, Combined;
    UpZero(CHUNKSZ);
    var acc' := acc;
    if !(acc.nchunks == 0 && chunk == 0) {
      AbsorbExact(acc, chunk, bits);
      acc' := Absorb(acc, chunk, bits);
    }
    if acc'.nbits <= bits && Lead(more) + tail != "" {
      PartsAnswer(more, g, e, ',', total + |groups[0]|, acc', bits);
    }
    AnswersStep(ParseFrom(Lead(groups) + tail, c, total, acc, bits), acc.value, groups, g, e, bits);
  }

  /** What the parser makes of any text: by `EveryText` it has parts, and they decide. */
  lemma ParseMeans(lead: string, groups: seq<string>, g: string, e: Ending, bits: nat)
    requires AllSpaces(lead) && Parts(groups, g, e)
    ensures Answers(ParseText(lead + (Lead(groups) + (g + e.Text())), bits), 0, groups, g, e, bits)
  {
    hide ScanGroup, Lead, Answers, AllSpaces, Ending.Text;
    var text := Lead(groups) + (g + e.Text());
    var c := LeadSpaces(lead, text, '\0');
    PartsAnswer(groups, g, e, c, 0, Acc(0, 0, 0), bits);
    SameScan(lead + text, text, '\0', c, bits);
  }

  lemma SameScan(s: string, s': string, c: char, c': char, bits: nat)
    requires ScanGroup(s, c, 0, 0, 0) == ScanGroup(s', c', 0, 0, 0)
    ensures ParseFrom(s, c, 0, Acc(0, 0, 0), bits) == ParseFrom(s', c', 0, Acc(0, 0, 0), bits)
  {
    hide ScanGroup;
  }

  // ---- texts of groups ----

  lemma {:induction false} TextIsLead(groups: seq<string>)
    requires groups != []
    ensures Text(groups) == Lead(groups[..|groups| - 1]) + groups[|groups| - 1]
    decreases |groups|
  {
    var rest := groups[1..];
    if rest == [] {
      assert groups[..0] == [];
      assert groups[0] + Tail([]) == groups[0] && Lead([]) + groups[0] == groups[0];
    } else {
      TextIsLead(rest);
      var first, more, last := groups[0], rest[..|rest| - 1], rest[|rest| - 1];
      assert groups[..|groups| - 1] == [first] + more && last == groups[|groups| - 1];
      LeadStep(first, more, last);
      assert Tail(rest) == "," + Text(rest) by { TailOfText(rest); }
    }
  }

  lemma TailOfText(groups: seq<string>)
    requires groups != []
    ensures Tail(groups) == "," + Text(groups)
  {
    assert "," + groups[0] + Tail(groups[1..]) == "," + (groups[0] + Tail(groups[1..]));
  }

  lemma {:induction false} CombinedLast(v: nat, groups: seq<string>)
    requires HexGroups(groups) && groups != []
    ensures Combined(v, groups) == Joined(Combined(v, groups[..|groups| - 1]), groups[|groups| - 1])
    decreases |groups|
  {
    hide Up, HexFrom;
    if |groups| > 1 {
      var rest := groups[1..];
      CombinedLast(Up(v, CHUNKSZ) + HexValue(groups[0]), rest);
      assert groups[..|groups| - 1][1..] == rest[..|rest| - 1];
    }
  }

  lemma SmallLast(groups: seq<string>)
    requires HexGroups(groups) && groups != []
    ensures HexGroups(groups[..|groups| - 1])
    ensures SmallGroups(groups) <==> SmallGroups(groups[..|groups| - 1]) && HexValue(groups[|groups| - 1]) < CHUNK_SIZE
  {
    var init := groups[..|groups| - 1];
    if SmallGroups(init) && HexValue(groups[|groups| - 1]) < CHUNK_SIZE {
      forall i | 0 <= i < |groups|
        ensures HexValue(groups[i]) < CHUNK_SIZE
      {
        assert i < |init| ==> init[i] == groups[i];
      }
    }
  }

  lemma JoinedGrows(v: nat, g: string)
    requires IsHex(g)
    ensures Joined(v, g) >= v
  {
    UpGrows(v, CHUNKSZ);
  }

  /** Whitespace before and after groups is accepted, and a '\0' ends the text: the result is 0
      exactly when every group fits 32 bits and their number the bitmap, and then the mask is
      that number; otherwise it is the overflow error. */
  lemma TrimmedAccepted(lead: string, groups: seq<string>, e: Ending, bits: nat)
    requires AllSpaces(lead) && HexGroups(groups) && groups != [] && (e.Finish? || e.Null?) && AllSpaces(e.trail)
    ensures var r := ParseText(lead + Text(groups) + e.Text(), bits);
      && (r.0 == 0 <==> Fits(0, groups, bits))
      && (r.0 == 0 ==> r.1 == Combined(0, groups))
      && (r.0 != 0 ==> r.0 == -EOVERFLOW)
  {
    hide ScanGroup, HexFrom, Up, Pow2, Lead, AllSpaces, Text, Ending.Text, ParseText, Combined;
    var init, g := groups[..|groups| - 1], groups[|groups| - 1];
    TextIsLead(groups);
    CombinedLast(0, groups);
    SmallLast(groups);
    JoinedGrows(Combined(0, init), g);
    assert lead + (Lead(init) + (g + e.Text())) == lead + Text(groups) + e.Text();
    ParseMeans(lead, init, g, e, bits);
  }

  /** In particular, printed text, which has no whitespace. */
  lemma ParseAccepts(groups: seq<string>, bits: nat)
    requires HexGroups(groups) && groups != []
    ensures ParseText(Text(groups), bits).0 == 0 <==> Fits(0, groups, bits)
    ensures Fits(0, groups, bits) ==> ParseText(Text(groups), bits).1 == Combined(0, groups)
    ensures !Fits(0, groups, bits) ==> ParseText(Text(groups), bits).0 == -EOVERFLOW
  {
    hide ParseText, Text, Fits, Combined;
    TrimmedAccepted("", groups, Finish(""), bits);
    assert "" + Text(groups) + "" == Text(groups);
  }

  /** And a line as it is read from a file: "f" and a newline is 15. */
  lemma NewlineExample()
    ensures ParseText("f\n", 64) == (0, 15)
  {
    HexOne("f", 15);
    OneGroup("f", 15, 64);
    assert Text(["f"]) == "f" && "" + Text(["f"]) + "\n" == "f\n" && AllSpaces("\n") && AllSpaces("") && IsSpace('\n');
    hide ParseText, Text, Fits, Combined;
    TrimmedAccepted("", ["f"], Finish("\n"), 64);
  }

  /** Printing a bitmap and parsing the text gives exactly the bits below the size. */
  lemma RoundTripValue(s: seq<Word>, bits: nat)
    requires |s| >= Longs(bits) && bits > 0
    ensures ParseText(Printed(s, bits), bits) == (0, Low(Value(s), bits))
  {
    PrintedSpells(s, bits);
    LowBelow(Value(s), bits);
    ParseAccepts(Groups(s, bits, Chunks(bits), true), bits);
  }

  /** The same for the words that the parser leaves: the same set, and no unused bit set. */
  lemma RoundTrip(s: seq<Word>, t: seq<Word>, r: int, bits: nat)
    requires |s| >= Longs(bits) && bits > 0 && |t| == Longs(bits)
    requires (r, Value(t)) == ParseText(Printed(s, bits), bits)
    ensures r == 0 && Bits(t, bits) == Bits(s, bits)
    ensures Clean(t, bits) == t
  {
    RoundTripValue(s, bits);
    forall i: nat
      ensures i in Bits(t, bits) <==> i in Bits(s, bits)
    {
      BitsAreValueBits(t, bits, i);
      BitsAreValueBits(s, bits, i);
      BitLow(Value(s), bits, i);
    }
    CleanValue(t, bits);
    LowLow(Value(s), bits, bits);
    ValueUnique(Clean(t, bits), t);
  }

  /** Words are determined by their number and their value. */
  lemma {:induction false} ValueUnique(s: seq<Word>, t: seq<Word>)
    requires |s| == |t| && Value(s) == Value(t)
    ensures s == t
  {
    if s != [] {
      Pow2Long();
      Join(Value(s), s[0], Value(s[1..]), BITS_PER_LONG);
      Join(Value(t), t[0], Value(t[1..]), BITS_PER_LONG);
      ValueUnique(s[1..], t[1..]);
      assert s == [s[0]] + s[1..] && t == [t[0]] + t[1..];
    }
  }

  // ---- embedded whitespace, and errors ----

  /** Contrary to the comment above the function, whitespace that stands after a
      digit and before another character is not an error.  When the groups before it
      fit, and the digits just before it fit 32 bits, the call returns 0, keeps those
      groups and drops those digits and all that follows; otherwise it overflows. */
  lemma EmbeddedSpaceAccepted(groups: seq<string>, g: string, spaces: string, x: char, rest: string, bits: nat)
    requires HexGroups(groups) && IsHex(g) && (g != "" || groups != [])
    requires AllSpaces(spaces) && spaces != "" && !IsSpace(x) && x != '\0'
    ensures var r := ParseText(Lead(groups) + (g + (spaces + [x] + rest)), bits);
      && (r.0 == 0 <==> Fits(0, groups, bits) && HexValue(g) < CHUNK_SIZE)
      && (r.0 == 0 ==> r.1 == Combined(0, groups))
      && (r.0 != 0 ==> r.0 == -EOVERFLOW)
  {
    hide ParseText, Lead, Fits, HexFrom, Combined;
    var text := Lead(groups) + (g + (spaces + [x] + rest));
    ParseMeans("", groups, g, Embedded(spaces, x, rest), bits);
    assert "" + text == text;
  }

  /** The call reports a syntax error exactly when the groups fit, no more than 32 bits of
      digits follow them, and then comes: a character that is neither a digit nor a separator;
      a comma without digits; or the end without digits, unless right after a comma. */
  lemma SyntaxError(lead: string, groups: seq<string>, g: string, e: Ending, bits: nat)
    requires AllSpaces(lead) && Parts(groups, g, e)
    ensures ParseText(lead + (Lead(groups) + (g + e.Text())), bits).0 == -EINVAL <==>
      && Fits(0, groups, bits) && HexValue(g) < CHUNK_SIZE
      && (e.Illegal? || e.NoDigits? || (!e.Embedded? && g == "" && !(e == Finish("") && groups != [])))
  {
    hide ParseText, Lead, Fits, HexFrom, Combined, Up, Pow2;
    ParseMeans(lead, groups, g, e, bits);
  }

  /** For instance "1,2 3" is accepted, as 1. */
  lemma EmbeddedSpaceExample()
    ensures ParseText("1,2 3", 64) == (0, 1)
  {
    HexOne("1", 1);
    HexOne("2", 2);
    OneGroup("1", 1, 64);
    ExampleText();
    hide *;
    EmbeddedSpaceAccepted(["1"], "2", " ", '3', "", 64);
  }

  lemma ExampleText()
    ensures Lead(["1"]) + ("2" + (" " + ['3'] + "")) == "1,2 3"
  {
    LeadStep("1", [], "2 3");
    LeadNone("2 3");
    assert ["1"] + [] == ["1"] && "2" + (" " + ['3'] + "") == "2 3";
    hide Lead;
  }

  lemma OneGroup(g: string, d: nat, bits: nat)
    requires IsHex(g) && |g| == 1 && HexValue(g) == d < 16 && bits >= BITS_PER_LONG
    ensures HexGroups([g]) && Combined(0, [g]) == d && Fits(0, [g], bits)
  {
    UpZero(CHUNKSZ);
    Pow2Long();
    Pow2Monotone(BITS_PER_LONG, bits);
    hide Up, Pow2, HexFrom;
    assert Combined(0, [g]) == Combined(Up(0, CHUNKSZ) + HexValue(g), [g][1..]);
  }

  lemma HexOne(g: string, d: nat)
    requires IsHex(g) && |g| == 1 && Unhex(g[0]) == d
    ensures HexValue(g) == d
  {
    assert HexFrom(0, g) == HexFrom(d, g[1..]);
  }
}
