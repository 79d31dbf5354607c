/** What a turn of the main loop measures: clear_work_stats, parse_proc_interrupts
    and parse_proc_stat, with what is read from /proc as input. */
module Measure {
  import opened Irqs
  import opened Ownership
  import opened Tree
  import opened PlacementProofs
  import opened DrainProofs
  import opened LoadShare
  import opened LoadProofs

  // ---- clear_work_stats ----

  /** What for_each_irq visits: the whole database when the list is empty. */
  function EachIrq(cfg: Config, list: seq<IrqInfo>): seq<IrqInfo> {
    if list == [] then cfg.db else list
  }

  function ZeroLoads(irqs: map<IrqInfo, IrqState>, qs: seq<IrqInfo>): (r: map<IrqInfo, IrqState>)
    ensures r.Keys == irqs.Keys
    decreases |qs|
  {
    if qs == [] then irqs
    else ZeroLoads(if qs[0] in irqs then irqs[qs[0] := irqs[qs[0]].(load := 0)] else irqs, qs[1..])
  }

  /** clear_obj_stats, on the objects in the order it finishes with them */
  function ClearStats(cfg: Config, st: State, ds: seq<TopoObj>): (r: State)
    ensures r.objs == st.objs && r.rebalance == st.rebalance && r.irqs.Keys == st.irqs.Keys
    decreases |ds|
  {
    if ds == [] then st
    else if ds[0] in st.objs then ClearStats(cfg, st.(irqs := ZeroLoads(st.irqs, EachIrq(cfg, st.objs[ds[0]].interrupts))), ds[1..])
    else ClearStats(cfg, st, ds[1..])
  }

  function ClearWork(cfg: Config, st: State): (r: State)
    ensures r.objs == st.objs && r.rebalance == st.rebalance && r.irqs.Keys == st.irqs.Keys
  {
    ClearStats(cfg, st, Walk(cfg))
  }

  lemma {:induction false} ZeroLoadsDoes(irqs: map<IrqInfo, IrqState>, qs: seq<IrqInfo>)
    ensures forall q | q in irqs :: ZeroLoads(irqs, qs)[q] == if q in qs then irqs[q].(load := 0) else irqs[q]
    decreases |qs|
  {
    if qs != [] {
      ZeroLoadsDoes(if qs[0] in irqs then irqs[qs[0] := irqs[qs[0]].(load := 0)] else irqs, qs[1..]);
    }
  }

  /** The IRQs whose loads are cleared: those on the objects, and all of the
      database when one of the objects has no IRQ. */
  ghost predicate Cleared(cfg: Config, st: State, ds: seq<TopoObj>, q: IrqInfo) {
    exists o :: o in ds && o in st.objs && q in EachIrq(cfg, st.objs[o].interrupts)
  }

  lemma ClearedFirst(cfg: Config, st: State, ds: seq<TopoObj>, q: IrqInfo)
    requires ds != []
    ensures Cleared(cfg, st, ds, q) <==> (ds[0] in st.objs && q in EachIrq(cfg, st.objs[ds[0]].interrupts)) || Cleared(cfg, st, ds[1..], q)
  {
    hide EachIrq;
    if Cleared(cfg, st, ds, q) {
      var o :| o in ds && o in st.objs && q in EachIrq(cfg, st.objs[o].interrupts);
      assert o == ds[0] || o in ds[1..];
    }
  }

  lemma {:induction false} ClearStatsDoes(cfg: Config, st: State, ds: seq<TopoObj>)
    ensures forall q | q in st.irqs ::
      ClearStats(cfg, st, ds).irqs[q] == if Cleared(cfg, st, ds, q) then st.irqs[q].(load := 0) else st.irqs[q]
    decreases |ds|
  {
    hide EachIrq, Cleared;
    if ds == [] {
      forall q
        ensures !Cleared(cfg, st, ds, q)
      {
        NoneCleared(cfg, st, q);
      }
      return;
    }
    var st1 := if ds[0] in st.objs then st.(irqs := ZeroLoads(st.irqs, EachIrq(cfg, st.objs[ds[0]].interrupts))) else st;
    if ds[0] in st.objs {
      ZeroLoadsDoes(st.irqs, EachIrq(cfg, st.objs[ds[0]].interrupts));
    }
    ClearStatsDoes(cfg, st1, ds[1..]);
    forall q | q in st.irqs
      ensures ClearStats(cfg, st, ds).irqs[q] == if Cleared(cfg, st, ds, q) then st.irqs[q].(load := 0) else st.irqs[q]
    {
      ClearedFirst(cfg, st, ds, q);
      ClearedSame(cfg, st, st1, ds[1..], q);
    }
  }

  lemma NoneCleared(cfg: Config, st: State, q: IrqInfo)
    ensures !Cleared(cfg, st, [], q)
  {
  }

  lemma ClearedSame(cfg: Config, st: State, st1: State, ds: seq<TopoObj>, q: IrqInfo)
    requires st1.objs == st.objs
    ensures Cleared(cfg, st1, ds, q) <==> Cleared(cfg, st, ds, q)
  {
  }

  /** clear_work_stats clears the load of every IRQ on an object, and of every IRQ
      there is as soon as one object of the tree has none. */
  lemma ClearWorkDoes(cfg: Config, st: State, q: IrqInfo)
    requires TreeOk(cfg, st.objs.Keys) && IrqsOk(cfg, st.irqs.Keys) && Owned(st) && q in st.irqs
    ensures ClearWork(cfg, st).irqs[q] ==
      if st.irqs[q].owner != null || exists o :: o in st.objs && st.objs[o].interrupts == [] then st.irqs[q].(load := 0) else st.irqs[q]
  {
    hide TreeOk, Walk;
    WalkKnown(cfg, st.objs.Keys);
    ClearStatsDoes(cfg, st, Walk(cfg));
    assert OwnedIrq(st, q);
    var o := st.irqs[q].owner;
    if o != null {
      WalkReaches(cfg, st.objs.Keys, o);
      assert q in EachIrq(cfg, st.objs[o].interrupts);
    }
    if e :| e in st.objs && st.objs[e].interrupts == [] {
      WalkReaches(cfg, st.objs.Keys, e);
      assert q in EachIrq(cfg, st.objs[e].interrupts);
    }
  }

  // ---- parse_proc_interrupts ----

  /** A line of /proc/interrupts: the record get_irq_info finds for it, the total
      count, and whether there was a column for every CPU. */
  datatype Line = Line(info: IrqInfo?, count: U64, columns: bool)

  /** The line makes the daemon rescan the machine. */
  predicate Upsets(irqs: map<IrqInfo, IrqState>, line: Line) {
    line.info == null || !line.columns || (line.info in irqs && line.count < irqs[line.info].irqCount)
  }

  /** The counts read, up to the first upsetting line, and whether there was one. */
  function ReadCounts(irqs: map<IrqInfo, IrqState>, lines: seq<Line>): (r: (map<IrqInfo, IrqState>, bool))
    ensures r.0.Keys == irqs.Keys
    decreases |lines|
  {
    if lines == [] then (irqs, false)
    else if Upsets(irqs, lines[0]) then (irqs, true)
    else
      var q := lines[0].info;
      ReadCounts(if q in irqs then irqs[q := irqs[q].(lastIrqCount := irqs[q].irqCount, irqCount := lines[0].count)] else irqs, lines[1..])
  }

  /** Counts never run backwards, so no difference of counts wraps. */
  ghost predicate CountsOk(irqs: map<IrqInfo, IrqState>) {
    forall q | q in irqs :: irqs[q].lastIrqCount <= irqs[q].irqCount < TWO64
  }

  /** The counts that lines give for an IRQ, in order. */
  ghost function CountsFor(lines: seq<Line>, q: IrqInfo): seq<nat> {
    if lines == [] then [] else (if lines[0].info == q then [lines[0].count] else []) + CountsFor(lines[1..], q)
  }

  /** The last count known after some more. */
  ghost function Latest(count: nat, counts: seq<nat>): nat {
    if counts == [] then count else counts[|counts| - 1]
  }

  /** Line i has no record, lacks a column, or counts less than its record does by then. */
  ghost predicate Upsetting(irqs: map<IrqInfo, IrqState>, lines: seq<Line>, i: nat)
    requires i < |lines|
  {
    var q := lines[i].info;
    || q == null || !lines[i].columns
    || (q in irqs && lines[i].count < Latest(irqs[q].irqCount, CountsFor(lines[..i], q)))
  }

  /** A record whose lines gave these counts holds the last of them, and as the count before
      the one before, which is its own former count for the first. */
  ghost predicate Remembers(before: IrqState, after: IrqState, counts: seq<nat>) {
    && after == before.(irqCount := after.irqCount, lastIrqCount := after.lastIrqCount)
    && (counts == [] ==> after == before)
    && (counts != [] ==>
          && after.irqCount == counts[|counts| - 1]
          && after.lastIrqCount == if |counts| == 1 then before.irqCount else counts[|counts| - 2])
  }

  lemma RememberedFirst(before: IrqState, first: IrqState, after: IrqState, count: nat, counts: seq<nat>)
    requires first == before.(lastIrqCount := before.irqCount, irqCount := count) && Remembers(first, after, counts)
    ensures Remembers(before, after, [count] + counts)
  {
  }

  lemma UpsettingNext(irqs: map<IrqInfo, IrqState>, irqs1: map<IrqInfo, IrqState>, lines: seq<Line>, i: nat)
    requires i + 1 < |lines| && lines[0].info != null
    requires irqs1 == (if lines[0].info in irqs
      then irqs[lines[0].info := irqs[lines[0].info].(lastIrqCount := irqs[lines[0].info].irqCount, irqCount := lines[0].count)] else irqs)
    ensures Upsetting(irqs, lines, i + 1) <==> Upsetting(irqs1, lines[1..], i)
  {
    assert lines[..i + 1][1..] == lines[1..][..i] && lines[..i + 1][0] == lines[0];
  }

  /** The lines are read up to the first upsetting one, if there is any, which calls for a
      rescan; and each record remembers exactly the counts of its lines up to there. */
  lemma {:induction false} ReadCountsMeans(irqs: map<IrqInfo, IrqState>, lines: seq<Line>) returns (n: nat)
    ensures n <= |lines| && (forall i | 0 <= i < n :: !Upsetting(irqs, lines, i))
    ensures n < |lines| ==> Upsetting(irqs, lines, n)
    ensures ReadCounts(irqs, lines).1 <==> exists i :: 0 <= i < |lines| && Upsetting(irqs, lines, i)
    ensures forall q | q in irqs :: Remembers(irqs[q], ReadCounts(irqs, lines).0[q], CountsFor(lines[..n], q))
    decreases |lines|
  {
    n := 0;
    if lines == [] {
      return;
    }
    assert Upsetting(irqs, lines, 0) <==> Upsets(irqs, lines[0]);
    if Upsets(irqs, lines[0]) {
      return;
    }
    hide Upsets, Upsetting, Remembers, CountsFor;
    var q0 := lines[0].info;
    NotUpset(irqs, lines[0]);
    var irqs1 := if q0 in irqs then irqs[q0 := irqs[q0].(lastIrqCount := irqs[q0].irqCount, irqCount := lines[0].count)] else irqs;
    var m := ReadCountsMeans(irqs1, lines[1..]);
    n := m + 1;
    forall i | 0 <= i < |lines| - 1
      ensures Upsetting(irqs, lines, i + 1) <==> Upsetting(irqs1, lines[1..], i)
    {
      UpsettingNext(irqs, irqs1, lines, i);
    }
    LaterLines(irqs, irqs1, lines, m);
    assert lines[..n][1..] == lines[1..][..m] && lines[..n][0] == lines[0];
    forall q | q in irqs
      ensures Remembers(irqs[q], ReadCounts(irqs, lines).0[q], CountsFor(lines[..n], q))
    {
      CountsForFirst(lines[..n], q);
      if q == q0 {
        RememberedFirst(irqs[q], irqs1[q], ReadCounts(irqs, lines).0[q], lines[0].count, CountsFor(lines[1..][..m], q));
      } else {
        assert [] + CountsFor(lines[1..][..m], q) == CountsFor(lines[1..][..m], q);
      }
    }
  }

  lemma NotUpset(irqs: map<IrqInfo, IrqState>, line: Line)
    requires !Upsets(irqs, line)
    ensures line.info != null
  {
  }

  lemma CountsForFirst(lines: seq<Line>, q: IrqInfo)
    requires lines != []
    ensures CountsFor(lines, q) == (if lines[0].info == q then [lines[0].count] else []) + CountsFor(lines[1..], q)
  {
  }

  lemma LaterLines(irqs: map<IrqInfo, IrqState>, irqs1: map<IrqInfo, IrqState>, lines: seq<Line>, m: nat)
    requires lines != [] && !Upsetting(irqs, lines, 0) && m < |lines|
    requires forall i | 0 <= i < |lines| - 1 :: Upsetting(irqs, lines, i + 1) <==> Upsetting(irqs1, lines[1..], i)
    requires forall i | 0 <= i < m :: !Upsetting(irqs1, lines[1..], i)
    ensures (exists i :: 0 <= i < |lines| && Upsetting(irqs, lines, i)) <==> exists i :: 0 <= i < |lines[1..]| && Upsetting(irqs1, lines[1..], i)
    ensures forall i | 0 <= i < m + 1 :: !Upsetting(irqs, lines, i)
  {
    hide Upsetting;
    if i :| 0 <= i < |lines| && Upsetting(irqs, lines, i) {
      var k := i - 1;
      assert Upsetting(irqs, lines, k + 1) <==> Upsetting(irqs1, lines[1..], k);
      assert |lines[1..]| == |lines| - 1;
    }
    if k :| 0 <= k < |lines[1..]| && Upsetting(irqs1, lines[1..], k) {
      assert |lines[1..]| == |lines| - 1;
      assert Upsetting(irqs, lines, k + 1);
    }
    forall i | 0 <= i < m + 1
      ensures !Upsetting(irqs, lines, i)
    {
      if i > 0 {
        assert !Upsetting(irqs1, lines[1..], i - 1);
        assert Upsetting(irqs, lines, (i - 1) + 1) <==> Upsetting(irqs1, lines[1..], i - 1);
      }
    }
  }

  lemma {:induction false} ReadCountsDoes(irqs: map<IrqInfo, IrqState>, lines: seq<Line>)
    ensures CountsOk(irqs) ==> CountsOk(ReadCounts(irqs, lines).0)
    ensures forall q | q in irqs ::
      var r := ReadCounts(irqs, lines).0[q];
      r == irqs[q].(irqCount := r.irqCount, lastIrqCount := r.lastIrqCount) && r.irqCount >= irqs[q].irqCount
    decreases |lines|
  {
    if lines != [] && !Upsets(irqs, lines[0]) {
      var q := lines[0].info;
      ReadCountsDoes(if q in irqs then irqs[q := irqs[q].(lastIrqCount := irqs[q].irqCount, irqCount := lines[0].count)] else irqs, lines[1..]);
    }
  }

  // ---- parse_proc_stat ----

  /** What a reading of /proc yields: lines of /proc/interrupts, loads for some
      CPUs, and whether the loads of all CPUs were found. */
  datatype Reading = Reading(lines: seq<Line>, cpuLoads: map<TopoObj, U64>, complete: bool)

  function WithLoads(objs: map<TopoObj, ObjState>, loads: map<TopoObj, U64>): (r: map<TopoObj, ObjState>)
    ensures r.Keys == objs.Keys
  {
    map o | o in objs :: if o in loads && o.kind == ObjCpu then objs[o].(load := loads[o]) else objs[o]
  }

  ghost function ReadLoads(cfg: Config, st: State, r: Reading): (st': State)
    requires TreeOk(cfg, st.objs.Keys)
    ensures st'.objs.Keys == st.objs.Keys && st'.irqs.Keys == st.irqs.Keys
  {
    var st1 := st.(objs := WithLoads(st.objs, r.cpuLoads));
    if r.complete then Propagate(cfg, st1) else st1
  }

  ghost function Read(cfg: Config, st: State, r: Reading): (st': State)
    requires TreeOk(cfg, st.objs.Keys)
    ensures st'.objs.Keys == st.objs.Keys && st'.irqs.Keys == st.irqs.Keys
  {
    ReadLoads(cfg, st.(irqs := ReadCounts(st.irqs, r.lines).0), r)
  }

  /** clear_work_stats, parse_proc_interrupts, parse_proc_stat */
  ghost function Measuring(cfg: Config, st: State, r: Reading): (st': State)
    requires TreeOk(cfg, st.objs.Keys)
    ensures st'.objs.Keys == st.objs.Keys && st'.irqs.Keys == st.irqs.Keys
  {
    Read(cfg, ClearWork(cfg, st), r)
  }

  /** The IRQs on objects have no load. */
  ghost predicate NoLoads(st: State) {
    forall o, q | o in st.objs && q in st.objs[o].interrupts && q in st.irqs :: st.irqs[q].load == 0
  }

  lemma {:induction false} NoHeavy(irqs: map<IrqInfo, IrqState>, qs: seq<IrqInfo>)
    requires forall i | 0 <= i < |qs| :: qs[i] in irqs && irqs[qs[i]].load <= 1
    ensures Heavy(irqs, qs) == 0
  {
    if qs != [] {
      NoHeavy(irqs, qs[1..]);
    }
  }

  lemma NoLoadsIsSafe(st: State)
    requires Owned(st) && NoLoads(st)
    ensures DrainSafe(st)
  {
    OwnedLists(st);
    forall o | o in st.objs
      ensures forall i | 0 <= i < |st.objs[o].interrupts| :: st.objs[o].interrupts[i] in st.irqs
      ensures Heavy(st.irqs, st.objs[o].interrupts) <= st.objs[o].load
    {
      assert ListOk(st, st.objs[o].interrupts);
      NoHeavy(st.irqs, st.objs[o].interrupts);
    }
  }

  lemma ClearedLoads(cfg: Config, st: State)
    requires TreeOk(cfg, st.objs.Keys) && IrqsOk(cfg, st.irqs.Keys) && Owned(st)
    ensures NoLoads(ClearWork(cfg, st)) && Reckoned(st, ClearWork(cfg, st))
  {
    hide TreeOk, IrqsOk, ClearWork;
    var st1 := ClearWork(cfg, st);
    forall q | q in st.irqs
      ensures st1.irqs[q].owner == st.irqs[q].owner && st1.irqs[q].moved == st.irqs[q].moved
      ensures st.irqs[q].owner != null ==> st1.irqs[q].load == 0
    {
      ClearWorkDoes(cfg, st, q);
    }
    forall o, q | o in st.objs && q in st.objs[o].interrupts && q in st.irqs
      ensures st1.irqs[q].load == 0
    {
      assert OwnedIrq(st, q);
    }
  }

  lemma CountsReckon(st: State, lines: seq<Line>)
    ensures Reckoned(st, st.(irqs := ReadCounts(st.irqs, lines).0))
    ensures NoLoads(st) ==> NoLoads(st.(irqs := ReadCounts(st.irqs, lines).0))
  {
    ReadCountsDoes(st.irqs, lines);
  }

  lemma CpuLoadsReckon(st: State, loads: map<TopoObj, U64>)
    ensures Reckoned(st, st.(objs := WithLoads(st.objs, loads)))
    ensures NoLoads(st) ==> NoLoads(st.(objs := WithLoads(st.objs, loads)))
  {
  }

  lemma ReckonedBoth(st: State, st1: State, st2: State)
    requires Reckoned(st, st1) && Reckoned(st1, st2)
    ensures Reckoned(st, st2)
  {
  }

  lemma ReckonedPlaces(st: State, st': State)
    requires Reckoned(st, st')
    ensures SamePlaces(st, st') && st'.objs.Keys == st.objs.Keys && st'.irqs.Keys == st.irqs.Keys
  {
  }

  /** Reading moves nothing; read in full, or after clearing, it leaves loads safe to drain. */
  lemma ReadDoes(cfg: Config, st: State, r: Reading, st': State)
    requires TreeOk(cfg, st.objs.Keys) && Owned(st) && st' == Read(cfg, st, r)
    ensures Reckoned(st, st')
    ensures r.complete || NoLoads(st) ==> DrainSafe(st')
  {
    hide TreeOk, Owned, Propagate, Reckoned, NoLoads, DrainSafe, WithLoads, ReadCounts;
    var st1 := st.(irqs := ReadCounts(st.irqs, r.lines).0);
    var st2 := st1.(objs := WithLoads(st1.objs, r.cpuLoads));
    CountsReckon(st, r.lines);
    CpuLoadsReckon(st1, r.cpuLoads);
    ReckonedBoth(st, st1, st2);
    ReckonedPlaces(st, st2);
    SamePlacesOwned(st, st2);
    if r.complete {
      PropagateDoes(cfg, st2, st');
      ReckonedBoth(st, st2, st');
    } else if NoLoads(st) {
      NoLoadsIsSafe(st2);
    }
  }

  /** Measuring keeps the invariants and always leaves loads safe to drain,
      even when the loads could not be read. */
  lemma MeasuringDoes(cfg: Config, st: State, r: Reading, st': State)
    requires Inv(cfg, st) && TreeOk(cfg, st.objs.Keys) && st' == Measuring(cfg, st, r)
    ensures Inv(cfg, st') && DrainSafe(st') && Reckoned(st, st')
    ensures FullBudget(cfg, st') ==> Measured(cfg, st')
  {
    hide TreeOk, Owned, Read, Reckoned, NoLoads, DrainSafe, Inv, ClearWork;
    InvParts(cfg, st);
    ClearedLoads(cfg, st);
    var st1 := ClearWork(cfg, st);
    ReckonedPlaces(st, st1);
    SamePlacesOwned(st, st1);
    ReadDoes(cfg, st1, r, st');
    ReckonedBoth(st, st1, st');
    ReckonedPlaces(st, st');
    SamePlacesKeepsInv(cfg, st, st');
  }

  // ---- what is measured ----

  /** The interrupts between the last two counts of the IRQs. */
  ghost function Gained(irqs: map<IrqInfo, IrqState>, qs: seq<IrqInfo>): int
    requires forall i | 0 <= i < |qs| :: qs[i] in irqs
  {
    if qs == [] then 0 else irqs[qs[0]].irqCount - irqs[qs[0]].lastIrqCount + Gained(irqs, qs[1..])
  }

  lemma {:induction false} GainedIsDelta(irqs: map<IrqInfo, IrqState>, qs: seq<IrqInfo>)
    requires CountsOk(irqs) && forall i | 0 <= i < |qs| :: qs[i] in irqs
    ensures DeltaSum(irqs, qs) == Gained(irqs, qs)
  {
    if qs != [] {
      GainedIsDelta(irqs, qs[1..]);
      assert Delta(irqs[qs[0]]) == irqs[qs[0]].irqCount - irqs[qs[0]].lastIrqCount;
    }
  }

  lemma {:induction false} DeltaSame(irqs: map<IrqInfo, IrqState>, irqs': map<IrqInfo, IrqState>, qs: seq<IrqInfo>)
    requires irqs'.Keys == irqs.Keys && forall q | q in irqs :: irqs'[q] == irqs[q].(load := irqs'[q].load)
    ensures DeltaSum(irqs', qs) == DeltaSum(irqs, qs)
  {
    if qs != [] {
      DeltaSame(irqs, irqs', qs[1..]);
    }
  }

  /** The load an object is given: a CPU that was read what was read, an object with children
      their sum in 64 bits, and any other what it had. */
  ghost predicate LoadRead(cfg: Config, st: State, r: Reading, st': State, o: TopoObj)
    requires o in st.objs && o in st'.objs
  {
    if Children(cfg, o) == [] then
      st'.objs[o].load == if o in r.cpuLoads && o.kind == ObjCpu then r.cpuLoads[o] else st.objs[o].load
    else r.complete ==> st'.objs[o].load == PlainSum(st'.objs, Children(cfg, o)) % TWO64
  }

  /** The interrupts counted on an object, and the loads of its IRQs. */
  ghost predicate CountsRead(cfg: Config, st: State, st': State, o: TopoObj)
    requires TreeOk(cfg, st'.objs.Keys) && o in st.objs && o in st'.objs
  {
    && (forall i | 0 <= i < |st.objs[o].interrupts| :: st.objs[o].interrupts[i] in st'.irqs)
    && (CountsOk(st.irqs) ==> st'.objs[o].irqCount == Gained(st'.irqs, st.objs[o].interrupts))
    && (forall q | q in st.objs[o].interrupts && q in st'.irqs ::
          GetsPart(st'.irqs[q], st'.irqs[q].load, st'.objs[o].load, Divisor(cfg, st'.objs, o)))
    && LosesLittle(cfg, st', o)
  }

  lemma SumOfChildren(cfg: Config, objs: map<TopoObj, ObjState>, objs': map<TopoObj, ObjState>, o: TopoObj)
    requires TreeOk(cfg, objs.Keys) && objs'.Keys == objs.Keys && o in objs && Children(cfg, o) != []
    requires forall d | d in objs :: objs'[d].load == LeafLoad(cfg, objs, d) % TWO64
    ensures objs'[o].load == PlainSum(objs', Children(cfg, o)) % TWO64
  {
    KeysOfTree(cfg, objs.Keys);
    ChildrenKnown(cfg, objs.Keys, o);
    SumOfRight(cfg, objs, objs', cfg.children[o], o.kind.Depth() + 1);
    hide TreeOk;
  }

  lemma {:induction false} UpsetSame(irqs: map<IrqInfo, IrqState>, irqs': map<IrqInfo, IrqState>, lines: seq<Line>, i: nat)
    requires i < |lines| && irqs'.Keys == irqs.Keys && forall q | q in irqs :: irqs'[q] == irqs[q].(load := irqs'[q].load)
    ensures Upsetting(irqs', lines, i) <==> Upsetting(irqs, lines, i)
  {
  }

  /** From the measured loads and counts of all objects on, field by field. */
  lemma FullyRead(cfg: Config, st: State, r: Reading, st2: State, st': State)
    requires TreeOk(cfg, st.objs.Keys) && TreeOk(cfg, st2.objs.Keys) && Owned(st2) && st' == Propagate(cfg, st2) && r.complete
    requires st2.objs == WithLoads(st.objs, r.cpuLoads) && (CountsOk(st.irqs) ==> CountsOk(st2.irqs))
    ensures TreeOk(cfg, st'.objs.Keys) && st'.irqs.Keys == st2.irqs.Keys
    ensures forall q | q in st2.irqs :: st'.irqs[q] == st2.irqs[q].(load := st'.irqs[q].load)
    ensures forall q | q in st2.irqs && st2.irqs[q].owner == null :: st'.irqs[q] == st2.irqs[q]
    ensures forall o | o in st.objs :: LoadRead(cfg, st, r, st', o) && CountsRead(cfg, st, st', o)
  {
    hide TreeOk, Owned, Propagate, Reckoned, DrainSafe, LeafLoad, GetsPart, LosesLittle, Divisor, CountsOk, DeltaSum, PlainSum;
    PropagateDoes(cfg, st2, st');
    OwnedLists(st2);
    forall o | o in st.objs
      ensures LoadRead(cfg, st, r, st', o)
    {
      if Children(cfg, o) == [] {
        LeafOfLeaf(cfg, st2.objs, o);
      } else {
        SumOfChildren(cfg, st2.objs, st'.objs, o);
      }
    }
    forall o | o in st.objs
      ensures CountsRead(cfg, st, st', o)
    {
      PartsRead(cfg, st, st2, st', o);
    }
  }

  lemma LeafOfLeaf(cfg: Config, objs: map<TopoObj, ObjState>, o: TopoObj)
    requires TreeOk(cfg, objs.Keys) && o in objs && Children(cfg, o) == []
    ensures LeafLoad(cfg, objs, o) == objs[o].load
  {
    KeysOfTree(cfg, objs.Keys);
    hide TreeOk;
  }

  lemma PartsRead(cfg: Config, st: State, st2: State, st': State, o: TopoObj)
    requires TreeOk(cfg, st'.objs.Keys) && o in st.objs && o in st2.objs && o in st'.objs && ListOk(st2, st2.objs[o].interrupts)
    requires st2.objs[o].interrupts == st.objs[o].interrupts && (CountsOk(st.irqs) ==> CountsOk(st2.irqs))
    requires st'.irqs.Keys == st2.irqs.Keys && forall q | q in st2.irqs :: st'.irqs[q] == st2.irqs[q].(load := st'.irqs[q].load)
    requires st'.objs[o].irqCount == DeltaSum(st2.irqs, st2.objs[o].interrupts) && LosesLittle(cfg, st', o)
    requires forall q | q in st2.objs[o].interrupts && q in st2.irqs ::
      GetsPart(st2.irqs[q], st'.irqs[q].load, st'.objs[o].load, Divisor(cfg, st'.objs, o))
    ensures CountsRead(cfg, st, st', o)
  {
    hide TreeOk, LosesLittle, Divisor;
    var qs := st.objs[o].interrupts;
    DeltaSame(st2.irqs, st'.irqs, qs);
    if CountsOk(st.irqs) {
      assert CountsOk(st'.irqs);
      GainedIsDelta(st'.irqs, qs);
    }
    PartSame(cfg, st2, st', o, qs);
  }

  lemma PartSame(cfg: Config, st2: State, st': State, o: TopoObj, qs: seq<IrqInfo>)
    requires TreeOk(cfg, st'.objs.Keys) && o in st'.objs && st'.irqs.Keys == st2.irqs.Keys
    requires forall q | q in st2.irqs :: st'.irqs[q] == st2.irqs[q].(load := st'.irqs[q].load)
    requires forall q | q in qs && q in st2.irqs ::
      GetsPart(st2.irqs[q], st'.irqs[q].load, st'.objs[o].load, Divisor(cfg, st'.objs, o))
    ensures forall q | q in qs && q in st'.irqs ::
      GetsPart(st'.irqs[q], st'.irqs[q].load, st'.objs[o].load, Divisor(cfg, st'.objs, o))
  {
    hide TreeOk, Divisor;
    var load, count := st'.objs[o].load, Divisor(cfg, st'.objs, o);
    forall q | q in qs && q in st'.irqs
      ensures GetsPart(st'.irqs[q], st'.irqs[q].load, load, count)
    {
      GetsSame(st2.irqs[q], st'.irqs[q], st'.irqs[q].load, load, count);
    }
  }

  lemma GetsSame(q: IrqState, q': IrqState, load: nat, objLoad: nat, count: nat)
    requires GetsPart(q, load, objLoad, count) && q'.irqCount == q.irqCount && q'.lastIrqCount == q.lastIrqCount
    ensures GetsPart(q', load, objLoad, count)
  {
  }

  /** What a turn measures.  The lines up to the first upsetting one are read, and every record
      remembers their counts; CPUs that were read get their loads; and when all were, an object
      carries the sum of its children's loads, counts what its IRQs counted since the reading
      before, and shares its load among them. */
  lemma MeasuringReads(cfg: Config, st: State, r: Reading, st': State) returns (n: nat)
    requires Inv(cfg, st) && TreeOk(cfg, st.objs.Keys) && st' == Measuring(cfg, st, r)
    ensures TreeOk(cfg, st'.objs.Keys) && (CountsOk(st.irqs) ==> CountsOk(st'.irqs))
    ensures n <= |r.lines| && (forall i | 0 <= i < n :: !Upsetting(st.irqs, r.lines, i))
    ensures n < |r.lines| ==> Upsetting(st.irqs, r.lines, n)
    ensures forall q | q in st.irqs ::
      Remembers(st.irqs[q].(load := st'.irqs[q].load), st'.irqs[q], CountsFor(r.lines[..n], q))
    ensures forall o | o in st.objs :: LoadRead(cfg, st, r, st', o) && (r.complete ==> CountsRead(cfg, st, st', o))
    ensures forall q | q in st.irqs && (st.irqs[q].owner == null || !r.complete) ::
      st'.irqs[q].load == if st.irqs[q].owner != null || exists o :: o in st.objs && st.objs[o].interrupts == [] then 0 else st.irqs[q].load
  {
    hide TreeOk, IrqsOk, Owned, Inv, ClearWork, ReadCounts, Propagate, LoadRead, CountsRead, Remembers, CountsFor, Upsetting, CountsOk;
    InvParts(cfg, st);
    var st1 := ClearWork(cfg, st);
    forall q | q in st.irqs
      ensures st1.irqs[q] == if st.irqs[q].owner != null || exists o :: o in st.objs && st.objs[o].interrupts == [] then st.irqs[q].(load := 0) else st.irqs[q]
    {
      ClearWorkDoes(cfg, st, q);
    }
    n := ReadCountsMeans(st1.irqs, r.lines);
    ReadCountsDoes(st1.irqs, r.lines);
    ClearedCounts(st, st1);
    forall i | 0 <= i < |r.lines|
      ensures Upsetting(st1.irqs, r.lines, i) <==> Upsetting(st.irqs, r.lines, i)
    {
      UpsetSame(st.irqs, st1.irqs, r.lines, i);
    }
    var st2 := State(ReadCounts(st1.irqs, r.lines).0, WithLoads(st.objs, r.cpuLoads), st.rebalance);
    ReadSteps(cfg, st, r, st1, st2);
    StillOwned(st, st1, st2, r);
    if r.complete {
      FullyRead(cfg, st, r, st2, st');
    } else {
      OnlyCpus(cfg, st, r, st');
    }
    forall q | q in st.irqs
      ensures Remembers(st.irqs[q].(load := st'.irqs[q].load), st'.irqs[q], CountsFor(r.lines[..n], q))
    {
      RemembersLoad(st1.irqs[q], st2.irqs[q], CountsFor(r.lines[..n], q), st.irqs[q], st'.irqs[q]);
    }
    CountsOkSame(st2.irqs, st'.irqs);
  }

  lemma ClearedCounts(st: State, st1: State)
    requires st1.irqs.Keys == st.irqs.Keys && forall q | q in st.irqs :: st1.irqs[q] == st.irqs[q] || st1.irqs[q] == st.irqs[q].(load := 0)
    ensures CountsOk(st.irqs) ==> CountsOk(st1.irqs)
  {
  }

  lemma CountsOkSame(irqs: map<IrqInfo, IrqState>, irqs': map<IrqInfo, IrqState>)
    requires irqs'.Keys == irqs.Keys && forall q | q in irqs :: irqs'[q] == irqs[q].(load := irqs'[q].load)
    ensures CountsOk(irqs) ==> CountsOk(irqs')
  {
  }

  lemma ReadSteps(cfg: Config, st: State, r: Reading, st1: State, st2: State)
    requires TreeOk(cfg, st.objs.Keys) && st1 == ClearWork(cfg, st)
    requires st2 == State(ReadCounts(st1.irqs, r.lines).0, WithLoads(st.objs, r.cpuLoads), st.rebalance)
    ensures TreeOk(cfg, st2.objs.Keys) && Measuring(cfg, st, r) == if r.complete then Propagate(cfg, st2) else st2
  {
    hide TreeOk, Propagate, ClearWork, ReadCounts, WithLoads;
  }

  lemma StillOwned(st: State, st1: State, st2: State, r: Reading)
    requires Owned(st) && st1.irqs.Keys == st.irqs.Keys && st2.irqs.Keys == st.irqs.Keys && st2.rebalance == st.rebalance
    requires st2.objs == WithLoads(st.objs, r.cpuLoads)
    requires forall q | q in st.irqs :: st1.irqs[q].owner == st.irqs[q].owner && st2.irqs[q].owner == st1.irqs[q].owner
    ensures Owned(st2)
  {
    SamePlacesOwned(st, st2);
  }

  lemma OnlyCpus(cfg: Config, st: State, r: Reading, st': State)
    requires TreeOk(cfg, st.objs.Keys) && st'.objs == WithLoads(st.objs, r.cpuLoads) && !r.complete
    ensures forall o | o in st.objs :: o in st'.objs && LoadRead(cfg, st, r, st', o)
  {
    hide TreeOk;
  }

  lemma RemembersLoad(q1: IrqState, q2: IrqState, counts: seq<nat>, q: IrqState, q': IrqState)
    requires Remembers(q1, q2, counts) && q1 == q.(load := q1.load) && q' == q2.(load := q'.load)
    ensures Remembers(q.(load := q'.load), q', counts)
  {
  }

  lemma ReadKeepsCounts(cfg: Config, st: State, r: Reading, st': State)
    requires TreeOk(cfg, st.objs.Keys) && Owned(st) && st' == Read(cfg, st, r) && CountsOk(st.irqs)
    ensures CountsOk(st'.irqs)
  {
    hide TreeOk, Owned, Propagate, WithLoads, ReadCounts, Reckoned, CountsOk;
    var st1 := st.(irqs := ReadCounts(st.irqs, r.lines).0);
    var st2 := st1.(objs := WithLoads(st1.objs, r.cpuLoads));
    ReadCountsDoes(st.irqs, r.lines);
    CountsReckon(st, r.lines);
    CpuLoadsReckon(st1, r.cpuLoads);
    ReckonedBoth(st, st1, st2);
    ReckonedPlaces(st, st2);
    SamePlacesOwned(st, st2);
    if r.complete {
      PropagateDoes(cfg, st2, st');
      CountsOkSame(st2.irqs, st'.irqs);
    }
  }
}
