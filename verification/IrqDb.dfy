/** The IRQ database of classify.c: which numbers enter `interrupts_db` and which
    `banned_irqs`, over any sequence of insertions. */
module IrqDb {
  import opened MergeSort
  import opened Irqs
  import opened Ownership

  /** The part of an irq_info that matters to the database. */
  datatype Entry = Entry(irq: int, hintPolicy: HintPolicy, banned: bool)

  datatype Lookup = Found(entry: Entry) | Missing

  ghost predicate Has(list: seq<Entry>, irq: int) {
    exists i :: 0 <= i < |list| && list[i].irq == irq
  }

  /** No number occurs twice. */
  ghost predicate Distinct(list: seq<Entry>) {
    forall i, j | 0 <= i < j < |list| :: list[i].irq != list[j].irq
  }

  /** What sysfs, the policy script and the module lists say of a number. */
  datatype Candidate = Candidate(irq: int, policyBan: bool, moduleBan: bool, nameBan: bool, hintPolicy: HintPolicy)

  /** The two database lists and the numbers banned on the command line. */
  datatype Lists = Lists(db: seq<Entry>, banned: seq<Entry>, clBanned: seq<Entry>)

  ghost predicate Unique(l: Lists) {
    && Distinct(l.db + l.banned)
    && forall i | 0 <= i < |l.db| :: !Has(l.clBanned, l.db[i].irq)
  }

  ghost predicate InDatabase(l: Lists, irq: int) {
    Has(l.db, irq) || Has(l.banned, irq)
  }

  ghost predicate Banned(l: Lists, c: Candidate) {
    c.policyBan || c.moduleBan || Has(l.clBanned, c.irq)
  }

  /** The outcome of offering a number: an unknown number goes to one of the two
      lists, depending on whether it is banned; a known one changes nothing. */
  ghost predicate Offered(l: Lists, l': Lists, c: Candidate) {
    && l'.clBanned == l.clBanned
    && (InDatabase(l, c.irq) ==> l' == l)
    && (!InDatabase(l, c.irq) && Banned(l, c) ==> l'.db == l.db && l'.banned == l.banned + [Entry(c.irq, HintExact, true)])
    && (!InDatabase(l, c.irq) && !Banned(l, c) ==> l'.banned == l.banned && l'.db == l.db + [Entry(c.irq, c.hintPolicy, false)])
  }

  /** The class around the three lists. */
  class Database {
    var interruptsDb: seq<Entry>
    var bannedIrqs: seq<Entry>
    var clBannedIrqs: seq<Entry>

    function Value(): Lists
      reads this
    {
      Lists(interruptsDb, bannedIrqs, clBannedIrqs)
    }

    constructor (clBanned: seq<Entry>)
      ensures Value() == Lists([], [], clBanned)
    {
      interruptsDb, bannedIrqs, clBannedIrqs := [], [], clBanned;
    }

    /** get_irq_info */
    method GetIrqInfo(irq: int) returns (r: Lookup)
      ensures r.Found? <==> InDatabase(Value(), irq)
      ensures r.Found? ==> r.entry.irq == irq && (r.entry in interruptsDb || (!Has(interruptsDb, irq) && r.entry in bannedIrqs))
    {
      r := Find(interruptsDb, irq);
      if r.Missing? {
        r := Find(bannedIrqs, irq);
      }
    }

    /** add_banned_irq, on `banned_irqs` */
    method AddBannedIrq(irq: int)
      modifies this`bannedIrqs
      ensures bannedIrqs == if Has(old(bannedIrqs), irq) then old(bannedIrqs) else old(bannedIrqs) + [Entry(irq, HintExact, true)]
    {
      var entry := Find(bannedIrqs, irq);
      if entry.Missing? {
        bannedIrqs := bannedIrqs + [Entry(irq, HintExact, true)];
      }
    }

    /** add_cl_banned_irq */
    method AddClBannedIrq(irq: int)
      modifies this`clBannedIrqs
      ensures clBannedIrqs == if Has(old(clBannedIrqs), irq) then old(clBannedIrqs) else old(clBannedIrqs) + [Entry(irq, HintExact, true)]
    {
      var entry := Find(clBannedIrqs, irq);
      if entry.Missing? {
        clBannedIrqs := clBannedIrqs + [Entry(irq, HintExact, true)];
      }
    }

    /** add_one_irq_to_db */
    method AddOneIrqToDb(irq: int, hintPolicy: HintPolicy) returns (added: Lookup)
      modifies this`interruptsDb
      ensures added.Found? <==> !InDatabase(old(Value()), irq)
      ensures added.Found? ==> added.entry == Entry(irq, hintPolicy, false)
      ensures interruptsDb == if added.Found? then old(interruptsDb) + [added.entry] else old(interruptsDb)
    {
      var entry := Find(interruptsDb, irq);
      if entry.Found? {
        return Missing;
      }
      var isBanned := Find(bannedIrqs, irq);
      if isBanned.Found? {
        return Missing;
      }
      var fresh' := Entry(irq, hintPolicy, false);
      interruptsDb := interruptsDb + [fresh'];
      return Found(fresh');
    }

    /** check_for_irq_ban; the module and script checks are inputs. */
    method CheckForIrqBan(c: Candidate) returns (ban: bool)
      ensures ban <==> c.moduleBan || Has(clBannedIrqs, c.irq)
    {
      var entry := Find(clBannedIrqs, c.irq);
      return entry.Found? || c.moduleBan;
    }

    /** What build_one_dev_entry does with one number of a device: 0 is not a number. */
    method BuildOneDevEntry(c: Candidate)
      modifies this`interruptsDb, this`bannedIrqs
      ensures if c.irq == 0 then Value() == old(Value()) else Offered(old(Value()), Value(), c)
    {
      if c.irq != 0 {
        var lookup := GetIrqInfo(c.irq);
        if lookup.Found? {
          return;
        }
        var ban := CheckForIrqBan(c);
        if c.policyBan || ban {
          AddBannedIrq(c.irq);
          return;
        }
        var added := AddOneIrqToDb(c.irq, c.hintPolicy);
      }
    }

    /** add_new_irq, by way of add_missing_irq */
    method AddNewIrq(c: Candidate)
      modifies this`interruptsDb, this`bannedIrqs
      ensures if c.nameBan then Value() == old(Value()) else Offered(old(Value()), Value(), c)
    {
      var lookup := GetIrqInfo(c.irq);
      if lookup.Found? || c.nameBan {
        return;
      }
      var ban := CheckForIrqBan(c);
      if c.policyBan || ban {
        AddBannedIrq(c.irq);
      } else {
        var added := AddOneIrqToDb(c.irq, c.hintPolicy);
      }
    }

    /** rebuild_irq_db: the numbers of all devices, then those of /proc/interrupts; or
        nothing, when the device directory cannot be opened. */
    method Rebuild(readable: bool, devices: seq<Candidate>, lines: seq<Candidate>)
      modifies this`interruptsDb, this`bannedIrqs
      ensures Unique(Value()) && clBannedIrqs == old(clBannedIrqs)
      ensures Offers(Lists([], [], clBannedIrqs), Value(), if readable then Relevant(devices, lines) else [])
    {
      interruptsDb, bannedIrqs := [], [];
      ghost var start := Value();
      ghost var done: seq<Candidate> := [];
      if !readable {
        return;
      }
      var i := 0;
      while i < |devices|
        invariant i <= |devices| && done == DeviceOffers(devices[..i])
        invariant Unique(Value()) && Value().clBanned == start.clBanned && Offers(start, Value(), done)
      {
        ghost var l := Value();
        BuildOneDevEntry(devices[i]);
        DeviceNext(devices, i);
        if devices[i].irq != 0 {
          OffersNext(start, l, Value(), done, devices[i]);
          done := done + [devices[i]];
        }
        i := i + 1;
      }
      assert devices[..i] == devices;
      ghost var fromDevices := done;
      i := 0;
      while i < |lines|
        invariant i <= |lines| && done == fromDevices + LineOffers(lines[..i])
        invariant Unique(Value()) && Value().clBanned == start.clBanned && Offers(start, Value(), done)
      {
        ghost var l := Value();
        AddNewIrq(lines[i]);
        LineNext(lines, i);
        if !lines[i].nameBan {
          OffersNext(start, l, Value(), done, lines[i]);
          done := done + [lines[i]];
        }
        i := i + 1;
      }
      assert lines[..i] == lines;
    }
  }

  /** g_list_find_custom with compare_ints */
  method Find(list: seq<Entry>, irq: int) returns (r: Lookup)
    ensures r.Found? <==> Has(list, irq)
    ensures r.Found? ==> r.entry in list && r.entry.irq == irq
  {
    var i := 0;
    while i < |list|
      invariant i <= |list| && forall j | 0 <= j < i :: list[j].irq != irq
    {
      if list[i].irq == irq {
        return Found(list[i]);
      }
      i := i + 1;
    }
    return Missing;
  }

  // ---- sequences of insertions ----

  ghost function DeviceOffers(cs: seq<Candidate>): seq<Candidate> {
    if cs == [] then [] else DeviceOffers(cs[..|cs| - 1]) + (if cs[|cs| - 1].irq != 0 then [cs[|cs| - 1]] else [])
  }

  ghost function LineOffers(cs: seq<Candidate>): seq<Candidate> {
    if cs == [] then [] else LineOffers(cs[..|cs| - 1]) + (if !cs[|cs| - 1].nameBan then [cs[|cs| - 1]] else [])
  }

  /** The candidates that are looked at in earnest, in order. */
  ghost function Relevant(devices: seq<Candidate>, lines: seq<Candidate>): seq<Candidate> {
    DeviceOffers(devices) + LineOffers(lines)
  }

  lemma DeviceNext(cs: seq<Candidate>, i: nat)
    requires i < |cs|
    ensures DeviceOffers(cs[..i + 1]) == DeviceOffers(cs[..i]) + (if cs[i].irq != 0 then [cs[i]] else [])
  {
    assert cs[..i + 1][..i] == cs[..i];
  }

  lemma LineNext(cs: seq<Candidate>, i: nat)
    requires i < |cs|
    ensures LineOffers(cs[..i + 1]) == LineOffers(cs[..i]) + (if !cs[i].nameBan then [cs[i]] else [])
  {
    assert cs[..i + 1][..i] == cs[..i];
  }

  ghost predicate Among(cs: seq<Candidate>, irq: int) {
    exists i :: 0 <= i < |cs| && cs[i].irq == irq
  }

  /** The candidate that decides about a number: the first with it. */
  ghost function FirstOffered(cs: seq<Candidate>, irq: int): Candidate
    requires Among(cs, irq)
    decreases |cs|
  {
    if cs[0].irq == irq then cs[0] else AmongRest(cs, irq); FirstOffered(cs[1..], irq)
  }

  lemma AmongRest(cs: seq<Candidate>, irq: int)
    requires Among(cs, irq) && cs[0].irq != irq
    ensures Among(cs[1..], irq)
  {
    var i :| 0 <= i < |cs| && cs[i].irq == irq;
    assert cs[1..][i - 1].irq == irq;
  }

  /** What a sequence of insertions comes to, number by number: exactly the
      numbers offered are known, and the first offer of a number decides which list it
      is in. */
  ghost predicate Offers(l: Lists, l': Lists, cs: seq<Candidate>) {
    && l'.clBanned == l.clBanned
    && (forall irq :: InDatabase(l', irq) <==> InDatabase(l, irq) || Among(cs, irq))
    && (forall irq | !InDatabase(l, irq) && Among(cs, irq) :: Has(l'.banned, irq) <==> Banned(l, FirstOffered(cs, irq)))
    && (forall irq | InDatabase(l, irq) :: (Has(l'.banned, irq) <==> Has(l.banned, irq)) && (Has(l'.db, irq) <==> Has(l.db, irq)))
  }

  lemma HasAppend(list: seq<Entry>, e: Entry)
    ensures forall irq :: Has(list + [e], irq) <==> Has(list, irq) || irq == e.irq
  {
    forall irq
      ensures Has(list + [e], irq) <==> Has(list, irq) || irq == e.irq
    {
      if Has(list, irq) {
        var i :| 0 <= i < |list| && list[i].irq == irq;
        assert (list + [e])[i].irq == irq;
      }
      assert (list + [e])[|list|] == e;
    }
  }

  lemma AmongAppend(cs: seq<Candidate>, c: Candidate)
    ensures forall irq :: Among(cs + [c], irq) <==> Among(cs, irq) || irq == c.irq
  {
    forall irq
      ensures Among(cs + [c], irq) <==> Among(cs, irq) || irq == c.irq
    {
      if Among(cs, irq) {
        var i :| 0 <= i < |cs| && cs[i].irq == irq;
        assert (cs + [c])[i].irq == irq;
      }
      assert (cs + [c])[|cs|] == c;
    }
  }

  lemma {:induction false} FirstAppend(cs: seq<Candidate>, c: Candidate, irq: int)
    requires Among(cs + [c], irq)
    ensures FirstOffered(cs + [c], irq) == if Among(cs, irq) then FirstOffered(cs, irq) else c
    decreases |cs|
  {
    AmongAppend(cs, c);
    if cs == [] {
      assert cs + [c] == [c];
    } else if cs[0].irq != irq {
      assert (cs + [c])[1..] == cs[1..] + [c];
      AmongRest(cs + [c], irq);
      FirstAppend(cs[1..], c, irq);
      AmongTail(cs, irq);
      if Among(cs, irq) {
        AmongRest(cs, irq);
      }
    }
  }

  lemma AmongTail(cs: seq<Candidate>, irq: int)
    requires cs != []
    ensures Among(cs[1..], irq) ==> Among(cs, irq)
  {
    if Among(cs[1..], irq) {
      var i :| 0 <= i < |cs[1..]| && cs[1..][i].irq == irq;
      assert cs[i + 1].irq == irq;
    }
  }

  /** Numbers stay unique across both lists, and none banned on the command line
      enters the database. */
  lemma OfferedKeepsUnique(l: Lists, l': Lists, c: Candidate)
    requires Unique(l) && Offered(l, l', c)
    ensures Unique(l')
  {
    if !InDatabase(l, c.irq) {
      var all, all' := l.db + l.banned, l'.db + l'.banned;
      forall i | 0 <= i < |all|
        ensures all[i].irq != c.irq
      {
        if i < |l.db| {
          assert all[i] == l.db[i];
        } else {
          assert all[i] == l.banned[i - |l.db|];
        }
      }
      var at := if Banned(l, c) then |all| else |l.db|;
      assert all'[at].irq == c.irq;
      assert forall i | 0 <= i < |all'| && i != at :: all'[i] == all[if i < at then i else i - 1];
    }
  }

  lemma OffersNext(l: Lists, l1: Lists, l2: Lists, cs: seq<Candidate>, c: Candidate)
    requires Unique(l1) && Offers(l, l1, cs) && Offered(l1, l2, c)
    ensures Unique(l2) && Offers(l, l2, cs + [c])
  {
    OfferedKeepsUnique(l1, l2, c);
    AmongAppend(cs, c);
    HasAppend(l1.db, Entry(c.irq, c.hintPolicy, false));
    HasAppend(l1.banned, Entry(c.irq, HintExact, true));
    forall irq | Among(cs + [c], irq)
      ensures FirstOffered(cs + [c], irq) == if Among(cs, irq) then FirstOffered(cs, irq) else c
    {
      FirstAppend(cs, c, irq);
    }
    hide Among, FirstOffered, Has, Unique;
  }

  // ---- what this gives the balancer ----

  /** The records made for the entries of `interrupts_db`, one each, are told
      apart by their numbers: the balancer, which looks IRQs up by number, finds the
      record it means. */
  lemma RecordsNumbered(l: Lists, records: seq<IrqInfo>)
    requires Unique(l) && |records| == |l.db| && forall i | 0 <= i < |records| :: records[i].irq == l.db[i].irq
    ensures Numbered(set q | q in records) && NoDup(records)
    ensures forall i | 0 <= i < |records| :: FindIrq(records, records[i].irq) == i
    ensures forall i | 0 <= i < |records| :: !Has(l.clBanned, records[i].irq)
  {
    forall i, j | 0 <= i < j < |records|
      ensures records[i].irq != records[j].irq
    {
      assert (l.db + l.banned)[i] == l.db[i] && (l.db + l.banned)[j] == l.db[j];
    }
    forall a, b | a in (set q | q in records) && b in (set q | q in records) && a.irq == b.irq
      ensures a == b
    {
      var i :| 0 <= i < |records| && records[i] == a;
      var j :| 0 <= j < |records| && records[j] == b;
    }
    forall i | 0 <= i < |records|
      ensures FindIrq(records, records[i].irq) == i
    {
      var k := FindIrq(records, records[i].irq);
      assert k <= i;
    }
  }
}
