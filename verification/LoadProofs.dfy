/** What attributing loads guarantees: the loads above 1 on an object never
    exceed the object's load. */
module LoadProofs {
  import opened Irqs
  import opened Ownership
  import opened Tree
  import opened PlacementProofs
  import opened DrainProofs
  import opened LoadShare
  import opened ShareConservation

  // ---- accumulate_interrupts ----

  lemma {:induction false} SetCountsDoes(st: State, ds: seq<TopoObj>)
    requires forall d | d in ds :: d in st.objs
    ensures forall o | o in st.objs ::
      SetCounts(st, ds).objs[o] ==
        if o in ds then st.objs[o].(irqCount := DeltaSum(st.irqs, st.objs[o].interrupts)) else st.objs[o]
    decreases |ds|
  {
    if ds != [] {
      SetCountsDoes(SetCount(st, ds[0]), ds[1..]);
    }
  }

  // ---- assign_load_slice ----

  lemma {:induction false} SlicesDo(irqs: map<IrqInfo, IrqState>, qs: seq<IrqInfo>, slice: nat)
    requires forall i | 0 <= i < |qs| :: qs[i] in irqs
    ensures forall q | q in irqs ::
      AssignSlices(irqs, qs, slice)[q] == if q in qs then irqs[q].(load := SlicedLoad(irqs[q], slice)) else irqs[q]
    decreases |qs|
  {
    hide SlicedLoad;
    if qs != [] {
      var irqs1 := AssignSlice(irqs, qs[0], slice);
      SlicesDo(irqs1, qs[1..], slice);
      SliceTwice(irqs[qs[0]], slice);
    }
  }

  lemma SliceTwice(q: IrqState, slice: nat)
    ensures SlicedLoad(q.(load := SlicedLoad(q, slice)), slice) == SlicedLoad(q, slice)
  {
  }

  lemma {:induction false} HeavySliced(irqs: map<IrqInfo, IrqState>, irqs': map<IrqInfo, IrqState>, qs: seq<IrqInfo>, slice: nat)
    requires DeltaSum(irqs, qs) * slice < TWO64
    requires irqs'.Keys == irqs.Keys && forall i | 0 <= i < |qs| :: qs[i] in irqs && irqs'[qs[i]].load == SlicedLoad(irqs[qs[i]], slice)
    ensures Heavy(irqs', qs) <= DeltaSum(irqs, qs) * slice
  {
    hide SlicedLoad;
    hide Delta;
    if qs != [] {
      var first, rest := Delta(irqs[qs[0]]), DeltaSum(irqs, qs[1..]);
      Distribute(first, rest, slice);
      HeavySliced(irqs, irqs', qs[1..], slice);
      SlicedOne(irqs[qs[0]], slice);
    }
  }

  lemma Distribute(a: nat, b: nat, slice: nat)
    ensures (a + b) * slice == a * slice + b * slice && a * slice >= 0 && b * slice >= 0
  {
  }

  // ---- the part of an object's load that an IRQ gets ----

  /** An IRQ with these counts gets this load of an object whose load is divided among
      `count` interrupts: its own interrupts' part, at least 1. */
  ghost predicate GetsPart(q: IrqState, load: nat, objLoad: nat, count: nat) {
    var slice := if count == 0 then 1 else objLoad / count;
    var part := ((q.irqCount - q.lastIrqCount) * slice) % TWO64;
    load == if part == 0 then 1 else part
  }

  lemma ModTimes(x: int, s: nat)
    ensures ((x % TWO64) * s) % TWO64 == (x * s) % TWO64
  {
    var k, y := x / TWO64, x % TWO64;
    assert x * s == y * s + TWO64 * (k * s) by {
      assert x == TWO64 * k + y;
      assert (TWO64 * k) * s == TWO64 * (k * s);
    }
    ModMore(y * s, k * s);
  }

  lemma {:induction false} ModMore(z: int, k: int)
    ensures (z + TWO64 * k) % TWO64 == z % TWO64
    decreases if k < 0 then -k else k
  {
    if k > 0 {
      ModMore(z, k - 1);
    } else if k < 0 {
      ModMore(z, k + 1);
    }
  }

  lemma SliceIsPart(q: IrqState, objLoad: nat, count: nat)
    ensures GetsPart(q, SlicedLoad(q, Slice(objLoad, count)), objLoad, count)
  {
    ModTimes(q.irqCount - q.lastIrqCount, Slice(objLoad, count));
  }

  /** The interrupts an object's load is divided among: what its ancestors share out to it,
      and all that is counted at and below it. */
  ghost function Divisor(cfg: Config, objs: map<TopoObj, ObjState>, o: TopoObj): nat
    requires TreeOk(cfg, objs.Keys) && o in objs
  {
    TreeParents(cfg, objs.Keys);
    ChildrenBelow(cfg, objs.Keys, o);
    ParentShare(cfg, objs, o) + TotalCounts(cfg, objs, cfg.children[o], o.kind.Depth() + 1)
  }

  lemma DivisorIs(cfg: Config, objs: map<TopoObj, ObjState>, o: TopoObj)
    requires TreeOk(cfg, objs.Keys) && o in objs
    ensures Divisor(cfg, objs, o) == LocalCount(cfg, objs, o)
  {
    hide TreeOk, ParentShare, TotalCounts, CountSum, PostOrder, Parents;
    ChildrenBelow(cfg, objs.Keys, o);
    WalkCounts(cfg, objs, cfg.children[o], o.kind.Depth() + 1, LEVELS);
  }

  /** Of `count` interrupts among which an object's load is divided, `own` were counted on it:
      the loads of its IRQs miss less of own * load / count than one unit an interrupt. */
  ghost predicate LosesLittle(cfg: Config, st: State, o: TopoObj)
    requires TreeOk(cfg, st.objs.Keys) && o in st.objs
  {
    var count, own, qs := Divisor(cfg, st.objs, o), st.objs[o].irqCount, st.objs[o].interrupts;
    && (forall i | 0 <= i < |qs| :: qs[i] in st.irqs)
    && count * Total(st.irqs, qs) >= own * (st.objs[o].load - (count - 1))
  }

  lemma {:induction false} TotalSliced(irqs: map<IrqInfo, IrqState>, irqs': map<IrqInfo, IrqState>, qs: seq<IrqInfo>, slice: nat)
    requires DeltaSum(irqs, qs) * slice < TWO64
    requires irqs'.Keys == irqs.Keys && forall i | 0 <= i < |qs| :: qs[i] in irqs && irqs'[qs[i]].load == SlicedLoad(irqs[qs[i]], slice)
    ensures Total(irqs', qs) >= DeltaSum(irqs, qs) * slice
  {
    hide SlicedLoad;
    hide Delta;
    if qs != [] {
      var first, rest := Delta(irqs[qs[0]]), DeltaSum(irqs, qs[1..]);
      Distribute(first, rest, slice);
      TotalSliced(irqs, irqs', qs[1..], slice);
      SlicedLeast(irqs[qs[0]], slice);
    }
  }

  lemma SlicedLeast(q: IrqState, slice: nat)
    requires Delta(q) * slice < TWO64
    ensures SlicedLoad(q, slice) >= Delta(q) * slice
  {
    hide Delta;
  }

  /** Dividing loses less than one unit of load for every interrupt. */
  lemma SliceLoses(load: nat, own: nat, count: nat, total: nat)
    requires own <= count && total >= own * Slice(load, count)
    ensures count * total >= own * (load - (count - 1))
  {
    if count > 0 {
      var slice := Slice(load, count);
      assert count * slice + load % count == load;
      TimesGrows(own * slice, total, count);
      assert count * (own * slice) == own * (count * slice);
      TimesGrows(load - (count - 1), count * slice, own);
    }
  }

  lemma TimesGrows(a: int, b: int, k: nat)
    requires a <= b
    ensures k * a <= k * b
  {
    assert k * (b - a) >= 0;
    assert k * (b - a) == k * b - k * a;
  }

  /** A slice that fits is what the IRQ gets; without one it gets 1. */
  lemma SlicedOne(q: IrqState, slice: nat)
    requires Delta(q) * slice < TWO64
    ensures SlicedLoad(q, slice) <= 1 || SlicedLoad(q, slice) == Delta(q) * slice
  {
    hide Delta;
  }

  lemma SliceFits(load: nat, local: nat, count: nat)
    requires local <= count
    ensures local * Slice(load, count) <= load
  {
    if count > 0 {
      var slice := Slice(load, count);
      assert local * slice <= count * slice;
      assert count * slice + load % count == load;
    }
  }

  /** Every IRQ on o has got its part of o's load. */
  ghost predicate Attributed(cfg: Config, st0: State, st: State, o: TopoObj)
    requires TreeOk(cfg, st0.objs.Keys) && o in st0.objs
  {
    forall q | q in st0.objs[o].interrupts && q in st0.irqs && q in st.irqs ::
      st.irqs[q].load == SlicedLoad(st0.irqs[q], Slice(st0.objs[o].load, LocalCount(cfg, st0.objs, o)))
  }

  /** Only loads of IRQs on objects differ. */
  ghost predicate OnlyIrqLoads(st: State, st': State) {
    && st'.objs == st.objs && st'.rebalance == st.rebalance && st'.irqs.Keys == st.irqs.Keys
    && forall q | q in st.irqs ::
         st'.irqs[q] == if st.irqs[q].owner == null then st.irqs[q] else st.irqs[q].(load := st'.irqs[q].load)
  }

  lemma SlicedAgain(q: IrqState, q1: IrqState, slice: nat)
    requires q1 == q.(load := q1.load)
    ensures SlicedLoad(q1, slice) == SlicedLoad(q, slice)
  {
  }

  lemma AttributeOne(cfg: Config, st0: State, st: State, d: TopoObj)
    requires TreeOk(cfg, st0.objs.Keys) && d in st0.objs && OnlyIrqLoads(st0, st) && Owned(st0)
    ensures st.objs == st0.objs
    ensures OnlyIrqLoads(st0, Attribute(cfg, st, d)) && Attributed(cfg, st0, Attribute(cfg, st, d), d)
    ensures forall o | o in st0.objs && o != d :: Attributed(cfg, st0, st, o) ==> Attributed(cfg, st0, Attribute(cfg, st, d), o)
  {
    hide TreeOk, LocalCount, SlicedLoad, Slice;
    var qs, slice := st.objs[d].interrupts, Slice(st.objs[d].load, LocalCount(cfg, st.objs, d));
    assert ListOk(st0, st0.objs[d].interrupts);
    SlicesDo(st.irqs, qs, slice);
    var st1 := Attribute(cfg, st, d);
    forall q | q in qs
      ensures st1.irqs[q].load == SlicedLoad(st0.irqs[q], slice)
    {
      SlicedAgain(st0.irqs[q], st.irqs[q], slice);
    }
    forall q | q in st0.irqs && st0.irqs[q].owner == null
      ensures q !in qs
    {
      assert OwnedIrq(st0, q);
    }
    forall o, q | o in st0.objs && o != d && q in st0.objs[o].interrupts && q in st0.irqs
      ensures st1.irqs[q] == st.irqs[q]
    {
      assert OwnedIrq(st0, q);
      assert q !in qs;
    }
  }

  lemma {:induction false} AttributeRest(cfg: Config, st0: State, st: State, ds: seq<TopoObj>, done: seq<TopoObj>)
    requires TreeOk(cfg, st0.objs.Keys) && OnlyIrqLoads(st0, st) && Owned(st0)
    requires (forall d | d in ds :: d in st0.objs) && (forall d | d in done :: d in st0.objs)
    requires forall d | d in done :: Attributed(cfg, st0, st, d)
    ensures var r := AttributeAll(cfg, st, ds);
      OnlyIrqLoads(st0, r) && forall d | d in done + ds :: d in st0.objs && Attributed(cfg, st0, r, d)
    decreases |ds|
  {
    hide TreeOk, Attribute, Attributed, Owned;
    if ds == [] {
      assert done + ds == done;
    } else {
      AttributeOne(cfg, st0, st, ds[0]);
      AttributeRest(cfg, st0, Attribute(cfg, st, ds[0]), ds[1..], done + [ds[0]]);
      assert done + [ds[0]] + ds[1..] == done + ds;
    }
  }

  /** An IRQ's attributed loads are within what its object counted. */
  lemma AttributedIsSafe(cfg: Config, st0: State, st: State, o: TopoObj)
    requires TreeOk(cfg, st0.objs.Keys) && o in st0.objs && Owned(st0) && OnlyIrqLoads(st0, st) && Attributed(cfg, st0, st, o)
    requires st0.objs[o].irqCount == DeltaSum(st0.irqs, st0.objs[o].interrupts)
    ensures forall i | 0 <= i < |st.objs[o].interrupts| :: st.objs[o].interrupts[i] in st.irqs
    ensures Heavy(st.irqs, st.objs[o].interrupts) <= st.objs[o].load
  {
    hide TreeOk, SlicedLoad, Slice, LocalCount;
    var qs := st0.objs[o].interrupts;
    var count := LocalCount(cfg, st0.objs, o);
    assert ListOk(st0, qs);
    OwnCounts(cfg, st0.objs, o);
    SliceFits(st0.objs[o].load, st0.objs[o].irqCount, count);
    HeavySliced(st0.irqs, st.irqs, qs, Slice(st0.objs[o].load, count));
  }

  /** And they miss less of the object's load than one unit an interrupt. */
  lemma AttributedLoses(cfg: Config, st0: State, st: State, o: TopoObj)
    requires TreeOk(cfg, st0.objs.Keys) && o in st0.objs && Owned(st0) && OnlyIrqLoads(st0, st) && Attributed(cfg, st0, st, o)
    requires st0.objs[o].irqCount == DeltaSum(st0.irqs, st0.objs[o].interrupts)
    ensures LosesLittle(cfg, st, o)
  {
    hide TreeOk, SlicedLoad, Slice, LocalCount, Divisor, Total, DeltaSum;
    var qs := st0.objs[o].interrupts;
    var count := LocalCount(cfg, st0.objs, o);
    assert ListOk(st0, qs);
    DivisorIs(cfg, st0.objs, o);
    OwnCounts(cfg, st0.objs, o);
    SliceFits(st0.objs[o].load, st0.objs[o].irqCount, count);
    TotalSliced(st0.irqs, st.irqs, qs, Slice(st0.objs[o].load, count));
    SliceLoses(st0.objs[o].load, st0.objs[o].irqCount, count, Total(st.irqs, qs));
  }

  lemma OwnCounts(cfg: Config, objs: map<TopoObj, ObjState>, o: TopoObj)
    requires TreeOk(cfg, objs.Keys) && o in objs
    ensures objs[o].irqCount <= LocalCount(cfg, objs, o)
  {
    hide TreeOk;
    TreeParents(cfg, objs.Keys);
  }

  // ---- the whole of it ----

  /** Every IRQ is where it was, and powersave modes are as before. */
  ghost predicate SamePlaces(st: State, st': State) {
    && st'.irqs.Keys == st.irqs.Keys && st'.objs.Keys == st.objs.Keys && st'.rebalance == st.rebalance
    && (forall q | q in st.irqs :: st'.irqs[q].owner == st.irqs[q].owner)
    && (forall o | o in st.objs :: st'.objs[o].interrupts == st.objs[o].interrupts && st'.objs[o].powersave == st.objs[o].powersave)
  }

  /** Only loads and counts differ. */
  ghost predicate Reckoned(st: State, st': State) {
    SamePlaces(st, st') && forall q | q in st.irqs :: st'.irqs[q].moved == st.irqs[q].moved
  }

  lemma SamePlacesOwned(st: State, st': State)
    requires Owned(st) && SamePlaces(st, st')
    ensures Owned(st')
  {
    assert ListOk(st, st.rebalance);
    forall o | o in st'.objs
      ensures ListOk(st', st'.objs[o].interrupts)
    {
      assert ListOk(st, st.objs[o].interrupts);
    }
    forall q | q in st'.irqs
      ensures OwnedIrq(st', q)
    {
      assert OwnedIrq(st, q);
    }
  }

  lemma SamePlacesFitting(st: State, st': State)
    requires AllFitting(st) && SamePlaces(st, st')
    ensures AllFitting(st')
  {
    forall q | q in st'.irqs
      ensures Fitting(st', q)
    {
      assert Fitting(st, q);
    }
  }

  /** The invariants are about places only. */
  lemma SamePlacesKeepsInv(cfg: Config, st: State, st': State)
    requires Inv(cfg, st) && SamePlaces(st, st')
    ensures Inv(cfg, st')
  {
    hide TreeOk, IrqsOk, Owned, AllFitting, Inv;
    InvParts(cfg, st);
    RecordKnown(st, st');
    SamePlacesOwned(st, st');
    SamePlacesFitting(st, st');
    MakeInv(cfg, st');
  }

  ghost predicate CountsSet(st: State) {
    forall o | o in st.objs :: st.objs[o].irqCount == DeltaSum(st.irqs, st.objs[o].interrupts)
  }

  lemma SumsReckon(cfg: Config, st: State) returns (st2: State)
    requires TreeOk(cfg, st.objs.Keys)
    ensures st2 == SetCounts(st.(objs := SumLoads(cfg, st.objs, Walk(cfg))), Walk(cfg))
    ensures Reckoned(st, st2) && CountsSet(st2)
    ensures forall o | o in st.objs :: st2.objs[o].load == LeafLoad(cfg, st.objs, o) % TWO64
  {
    hide TreeOk, Walk, LeafLoad;
    var st1 := st.(objs := SumLoads(cfg, st.objs, Walk(cfg)));
    st2 := SetCounts(st1, Walk(cfg));
    WalkKnown(cfg, st.objs.Keys);
    SetCountsDoes(st1, Walk(cfg));
    forall o | o in st.objs
      ensures st2.objs[o].load == LeafLoad(cfg, st.objs, o) % TWO64
      ensures st2.objs[o].irqCount == DeltaSum(st.irqs, st.objs[o].interrupts)
      ensures st2.objs[o].interrupts == st.objs[o].interrupts && st2.objs[o].powersave == st.objs[o].powersave
    {
      LoadsAddUp(cfg, st.objs, o);
      WalkReaches(cfg, st.objs.Keys, o);
    }
  }

  lemma WalkKnown(cfg: Config, objs: set<TopoObj>)
    requires TreeOk(cfg, objs)
    ensures forall d | d in Walk(cfg) :: d in objs
  {
    LayerKnown(cfg, objs, ObjNode);
    assert cfg.nodes == Layer(cfg, ObjNode);
    PostOrderKnown(cfg, objs, cfg.nodes, LEVELS);
  }

  /** After parse_proc_stat: every object carries the load of its leaves, every
      IRQ on an object carries its slice of it, and the loads above 1 on an object add
      up to no more than the object's load. */
  lemma PropagateDoes(cfg: Config, st: State, st': State)
    requires TreeOk(cfg, st.objs.Keys) && Owned(st) && st' == Propagate(cfg, st)
    ensures Reckoned(st, st') && DrainSafe(st') && st'.objs.Keys == st.objs.Keys
    ensures forall o | o in st.objs :: st'.objs[o].load == LeafLoad(cfg, st.objs, o) % TWO64
    ensures forall o | o in st.objs :: st'.objs[o].irqCount == DeltaSum(st.irqs, st.objs[o].interrupts)
    ensures forall o, q | o in st.objs && q in st.objs[o].interrupts && q in st.irqs ::
      q in st'.irqs && GetsPart(st.irqs[q], st'.irqs[q].load, st'.objs[o].load, Divisor(cfg, st'.objs, o))
    ensures forall o | o in st.objs :: LosesLittle(cfg, st', o)
    ensures forall q | q in st.irqs :: st'.irqs[q] == st.irqs[q].(load := st'.irqs[q].load)
    ensures forall q | q in st.irqs && st.irqs[q].owner == null :: st'.irqs[q] == st.irqs[q]
  {
    hide TreeOk, AttributeAll, Divisor, GetsPart, LosesLittle, LocalCount, SlicedLoad, Slice, LeafLoad, SumLoads, SetCounts, Walk, Layers, Owned, Attributed, DrainSafe;
    var st2 := SumsReckon(cfg, st);
    SumsIrqs(cfg, st, st2);
    SamePlacesOwned(st, st2);
    LayersKnown(cfg, st.objs.Keys);
    AttributeRest(cfg, st2, st2, Layers(cfg), []);
    assert [] + Layers(cfg) == Layers(cfg);
    assert st' == AttributeAll(cfg, st2, Layers(cfg));
    SumsKeep(st, st2);
    AttributedAll(cfg, st2, st');
  }

  lemma SumsKeep(st: State, st2: State)
    requires Reckoned(st, st2) && st2.irqs == st.irqs
    ensures forall st': State | OnlyIrqLoads(st2, st') :: Reckoned(st, st')
    ensures forall o | o in st.objs :: o in st2.objs && st2.objs[o].interrupts == st.objs[o].interrupts
  {
  }

  /** What attribution leaves on every object. */
  lemma AttributedAll(cfg: Config, st2: State, st': State)
    requires TreeOk(cfg, st2.objs.Keys) && Owned(st2) && CountsSet(st2) && OnlyIrqLoads(st2, st')
    requires forall o | o in st2.objs :: Attributed(cfg, st2, st', o)
    ensures DrainSafe(st')
    ensures forall o, q | o in st2.objs && q in st2.objs[o].interrupts && q in st2.irqs ::
      q in st'.irqs && GetsPart(st2.irqs[q], st'.irqs[q].load, st2.objs[o].load, Divisor(cfg, st2.objs, o))
    ensures forall o | o in st2.objs :: LosesLittle(cfg, st', o)
  {
    hide TreeOk, Divisor, GetsPart, LosesLittle, LocalCount, SlicedLoad, Slice, Owned, Attributed, DeltaSum;
    forall o | o in st'.objs
      ensures forall i | 0 <= i < |st'.objs[o].interrupts| :: st'.objs[o].interrupts[i] in st'.irqs
      ensures Heavy(st'.irqs, st'.objs[o].interrupts) <= st'.objs[o].load
    {
      assert Attributed(cfg, st2, st', o);
      AttributedIsSafe(cfg, st2, st', o);
    }
    forall o | o in st2.objs
      ensures LosesLittle(cfg, st', o)
    {
      assert Attributed(cfg, st2, st', o);
      AttributedLoses(cfg, st2, st', o);
    }
    forall o, q | o in st2.objs && q in st2.objs[o].interrupts && q in st2.irqs
      ensures GetsPart(st2.irqs[q], st'.irqs[q].load, st2.objs[o].load, Divisor(cfg, st2.objs, o))
    {
      assert Attributed(cfg, st2, st', o);
      AttributedMeans(cfg, st2, st', o, q);
    }
  }

  lemma SumsIrqs(cfg: Config, st: State, st2: State)
    requires st2 == SetCounts(st.(objs := SumLoads(cfg, st.objs, Walk(cfg))), Walk(cfg))
    ensures st2.irqs == st.irqs
  {
  }

  lemma AttributedMeans(cfg: Config, st0: State, st: State, o: TopoObj, q: IrqInfo)
    requires TreeOk(cfg, st0.objs.Keys) && o in st0.objs && Attributed(cfg, st0, st, o)
    requires q in st0.objs[o].interrupts && q in st0.irqs && q in st.irqs
    ensures GetsPart(st0.irqs[q], st.irqs[q].load, st0.objs[o].load, Divisor(cfg, st0.objs, o))
  {
    hide TreeOk, LocalCount, Divisor, SlicedLoad, Slice, GetsPart;
    DivisorIs(cfg, st0.objs, o);
    SliceIsPart(st0.irqs[q], st0.objs[o].load, LocalCount(cfg, st0.objs, o));
  }
}
