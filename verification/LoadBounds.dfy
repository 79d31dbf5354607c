/** How large loads get: a bound on the CPU loads that are read bounds all others,
    so that a turn neither wraps nor fails. */
module LoadBounds {
  import opened Irqs
  import opened Ownership
  import opened Tree
  import opened PlacementProofs
  import opened PlacementLoads
  import opened DrainProofs
  import opened LoadShare
  import opened ShareConservation
  import opened LoadProofs
  import opened Measure

  /** Only CPUs have no children, apart from nodes on which IRQs are never put: the
      unspecified node of a machine with NUMA, and nodes without an unbanned CPU. */
  ghost predicate FullTree(cfg: Config, objs: set<TopoObj>) {
    forall o | o in objs && Children(cfg, o) == [] :: o.kind == ObjCpu || IdleNode(cfg, o)
  }

  /** Such nodes carry no load. */
  ghost predicate IdleUnloaded(cfg: Config, objs: map<TopoObj, ObjState>) {
    forall o | o in objs && IdleNode(cfg, o) && Children(cfg, o) == [] :: objs[o].load == 0
  }

  /** Every childless object carries at most `bound`. */
  ghost predicate LeavesBelow(cfg: Config, objs: map<TopoObj, ObjState>, bound: nat) {
    forall o | o in objs && Children(cfg, o) == [] :: objs[o].load <= bound
  }

  lemma {:induction false} LeafLoadBelow(cfg: Config, objs: map<TopoObj, ObjState>, d: TopoObj, bound: nat)
    requires TreeOk(cfg, objs.Keys) && LeavesBelow(cfg, objs, bound) && d in objs
    ensures LeafLoad(cfg, objs, d) <= LeafCount(cfg, objs.Keys, d) * bound
    decreases 2 * (LEVELS - d.kind.Depth()) + 1, 0
  {
    hide TreeOk;
    ChildrenBelow(cfg, objs.Keys, d);
    if cfg.children[d] != [] {
      LeafLoadsBelow(cfg, objs, cfg.children[d], d.kind.Depth() + 1, bound);
    } else {
      assert Children(cfg, d) == [];
    }
  }

  lemma {:induction false} LeafLoadsBelow(cfg: Config, objs: map<TopoObj, ObjState>, ds: seq<TopoObj>, depth: nat, bound: nat)
    requires TreeOk(cfg, objs.Keys) && LeavesBelow(cfg, objs, bound) && AtDepth(objs.Keys, ds, depth)
    ensures LeafLoads(cfg, objs, ds, depth) <= LeafCounts(cfg, objs.Keys, ds, depth) * bound
    decreases if depth < LEVELS then 2 * (LEVELS - depth) + 2 else 0, |ds|
  {
    hide TreeOk;
    if ds != [] {
      LeafLoadBelow(cfg, objs, ds[0], bound);
      LeafLoadsBelow(cfg, objs, ds[1..], depth, bound);
      hide LeafCount, LeafLoad;
      Distribute(LeafCount(cfg, objs.Keys, ds[0]), LeafCounts(cfg, objs.Keys, ds[1..], depth), bound);
    }
  }

  /** With at most `bound` a CPU, no object carries more than `top`, and that, with
      as much for every IRQ, leaves room. */
  ghost predicate Roomy(cfg: Config, objs: set<TopoObj>, bound: nat, top: nat)
    requires TreeOk(cfg, objs)
  {
    && FullTree(cfg, objs) && top > 0
    && (forall o | o in objs :: LeafCount(cfg, objs, o) * bound <= top)
    && top + |cfg.db| * (top + 1) < LIMIT
  }

  ghost predicate IrqsBelow(irqs: map<IrqInfo, IrqState>, top: nat) {
    forall q | q in irqs :: irqs[q].load <= top
  }

  /** A complete reading, with a load of at most `bound` for every CPU. */
  ghost predicate Bounded(cfg: Config, r: Reading, bound: nat) {
    r.complete && forall c | c in cfg.cpus :: c in r.cpuLoads && r.cpuLoads[c] <= bound
  }

  lemma {:induction false} WeightBelow(irqs: map<IrqInfo, IrqState>, qs: seq<IrqInfo>, top: nat)
    requires (forall i | 0 <= i < |qs| :: qs[i] in irqs) && IrqsBelow(irqs, top)
    ensures PlacementWeight(irqs, qs) <= |qs| * (top + 1)
  {
    if qs != [] {
      WeightBelow(irqs, qs[1..], top);
      assert |qs| * (top + 1) == (top + 1) + |qs[1..]| * (top + 1);
    }
  }

  lemma {:induction false} HeavyHas(irqs: map<IrqInfo, IrqState>, qs: seq<IrqInfo>, q: IrqInfo)
    requires (forall i | 0 <= i < |qs| :: qs[i] in irqs) && q in qs
    ensures q in irqs && (irqs[q].load <= 1 || irqs[q].load <= Heavy(irqs, qs))
  {
    if qs[0] != q {
      HeavyHas(irqs, qs[1..], q);
    }
  }

  lemma CpuReading(cfg: Config, objs: map<TopoObj, ObjState>, r: Reading, bound: nat)
    requires TreeOk(cfg, objs.Keys) && FullTree(cfg, objs.Keys) && Bounded(cfg, r, bound) && IdleUnloaded(cfg, objs)
    ensures LeavesBelow(cfg, WithLoads(objs, r.cpuLoads), bound)
  {
    hide LinksOk, MasksOk;
    forall o | o in objs && o.kind == ObjCpu
      ensures o in cfg.cpus
    {
      assert o in Layer(cfg, o.kind);
    }
  }

  /** Reading gives an unused node no load. */
  lemma ReadIdle(cfg: Config, st: State, r: Reading, st': State)
    requires TreeOk(cfg, st.objs.Keys) && Owned(st) && st' == Read(cfg, st, r) && IdleUnloaded(cfg, st.objs)
    ensures IdleUnloaded(cfg, st'.objs)
  {
    hide TreeOk, Owned, Propagate, Reckoned, WithLoads, ReadCounts, IdleUnloaded, NoLoads;
    var st1 := st.(irqs := ReadCounts(st.irqs, r.lines).0);
    var st2 := st1.(objs := WithLoads(st1.objs, r.cpuLoads));
    CountsReckon(st, r.lines);
    CpuLoadsReckon(st1, r.cpuLoads);
    ReckonedBoth(st, st1, st2);
    ReckonedPlaces(st, st2);
    SamePlacesOwned(st, st2);
    LoadsIdle(cfg, st1.objs, r.cpuLoads);
    if r.complete {
      PropagatedIdle(cfg, st2, st');
    }
  }

  lemma PropagatedIdle(cfg: Config, st: State, st': State)
    requires TreeOk(cfg, st.objs.Keys) && Owned(st) && st' == Propagate(cfg, st) && IdleUnloaded(cfg, st.objs)
    ensures IdleUnloaded(cfg, st'.objs)
  {
    hide TreeOk, Owned, Propagate, Reckoned, DrainSafe, LeafLoad, IdleNode, GetsPart, LosesLittle, Divisor, DeltaSum;
    PropagateDoes(cfg, st, st');
    forall o | o in st'.objs && IdleNode(cfg, o) && Children(cfg, o) == []
      ensures st'.objs[o].load == 0
    {
      LeafOfLeaf(cfg, st.objs, o);
    }
  }

  lemma LoadsIdle(cfg: Config, objs: map<TopoObj, ObjState>, loads: map<TopoObj, U64>)
    requires IdleUnloaded(cfg, objs)
    ensures IdleUnloaded(cfg, WithLoads(objs, loads))
  {
    hide UsableNode;
  }

  lemma SameRoom(cfg: Config, objs: map<TopoObj, ObjState>, o: TopoObj, bound: nat, top: nat)
    requires TreeOk(cfg, objs.Keys) && Roomy(cfg, objs.Keys, bound, top) && LeavesBelow(cfg, objs, bound) && o in objs
    ensures LeafLoad(cfg, objs, o) <= top < LIMIT
  {
    hide TreeOk, LeafLoad, LeafCount;
    LeafLoadBelow(cfg, objs, o, bound);
    assert |cfg.db| * (top + 1) >= 0;
  }

  /** The loads that attribution leaves are within the bounds. */
  lemma PropagateBelow(cfg: Config, st: State, st': State, bound: nat, top: nat)
    requires TreeOk(cfg, st.objs.Keys) && Owned(st) && st' == Propagate(cfg, st)
    requires Roomy(cfg, st.objs.Keys, bound, top) && LeavesBelow(cfg, st.objs, bound) && IrqsBelow(st.irqs, top)
    ensures (forall o | o in st'.objs :: st'.objs[o].load <= top) && IrqsBelow(st'.irqs, top)
  {
    hide TreeOk, Roomy, LeavesBelow, Owned, Propagate, LeafLoad, Divisor, GetsPart, LosesLittle, DeltaSum;
    PropagateDoes(cfg, st, st');
    assert top > 0 by { RoomTop(cfg, st.objs.Keys, bound, top); }
    forall o | o in st.objs
      ensures st'.objs[o].load <= top
    {
      SameRoom(cfg, st.objs, o, bound, top);
    }
    forall q | q in st.irqs
      ensures st'.irqs[q].load <= top
    {
      var o := st.irqs[q].owner;
      if o != null {
        OwnerList(st, o, q);
        HeavyHas(st'.irqs, st'.objs[o].interrupts, q);
      }
    }
  }

  lemma RoomTop(cfg: Config, objs: set<TopoObj>, bound: nat, top: nat)
    requires TreeOk(cfg, objs) && Roomy(cfg, objs, bound, top)
    ensures top > 0 && top + |cfg.db| * (top + 1) < LIMIT && FullTree(cfg, objs)
  {
  }

  lemma SameObjs(cfg: Config, objs: set<TopoObj>, bound: nat, top: nat, st: State)
    requires st.objs.Keys == objs && TreeOk(cfg, objs) && Roomy(cfg, objs, bound, top)
    ensures TreeOk(cfg, st.objs.Keys) && Roomy(cfg, st.objs.Keys, bound, top)
  {
  }

  lemma ZeroedBelow(cfg: Config, st: State, r: Reading, top: nat)
    requires TreeOk(cfg, st.objs.Keys) && IrqsOk(cfg, st.irqs.Keys) && Owned(st) && IrqsBelow(st.irqs, top)
    ensures IrqsBelow(ReadCounts(ClearWork(cfg, st).irqs, r.lines).0, top)
  {
    hide TreeOk, IrqsOk, Owned, ClearWork, ReadCounts;
    ReadCountsDoes(ClearWork(cfg, st).irqs, r.lines);
    forall q | q in st.irqs
      ensures ClearWork(cfg, st).irqs[q].load <= top
    {
      ClearWorkDoes(cfg, st, q);
    }
  }

  lemma RoomIsBudget(cfg: Config, st: State, top: nat)
    requires IrqsOk(cfg, st.irqs.Keys) && IrqsBelow(st.irqs, top) && top + |cfg.db| * (top + 1) < LIMIT
    requires forall o | o in st.objs :: st.objs[o].load <= top
    ensures FullBudget(cfg, st)
  {
    WeightBelow(st.irqs, cfg.db, top);
  }

  /** Bounded CPU loads keep all loads bounded, and leave room. */
  lemma MeasuringLeavesRoom(cfg: Config, st: State, r: Reading, st': State, bound: nat, top: nat)
    requires Inv(cfg, st) && TreeOk(cfg, st.objs.Keys) && st' == Measuring(cfg, st, r)
    requires Roomy(cfg, st.objs.Keys, bound, top) && Bounded(cfg, r, bound)
    requires IrqsBelow(st.irqs, top) && IdleUnloaded(cfg, st.objs)
    ensures Measured(cfg, st') && IrqsBelow(st'.irqs, top) && IdleUnloaded(cfg, st'.objs)
  {
    hide TreeOk, Roomy, Owned, Inv, IrqsBelow, ClearWork, ReadCounts, WithLoads, Propagate, FullBudget, Reckoned, DrainSafe, Bounded, FullTree, IdleUnloaded, Read;
    InvParts(cfg, st);
    MeasuringDoes(cfg, st, r, st');
    ReckonedPlaces(st, st');
    var st1 := ClearWork(cfg, st);
    var st2 := st1.(irqs := ReadCounts(st1.irqs, r.lines).0);
    var st3 := st2.(objs := WithLoads(st2.objs, r.cpuLoads));
    ClearedLoads(cfg, st);
    CountsReckon(st1, r.lines);
    CpuLoadsReckon(st2, r.cpuLoads);
    ReckonedBoth(st, st1, st2);
    ReckonedBoth(st, st2, st3);
    ReckonedPlaces(st, st3);
    SamePlacesOwned(st, st3);
    ZeroedBelow(cfg, st, r, top);
    RoomTop(cfg, st.objs.Keys, bound, top);
    CpuReading(cfg, st2.objs, r, bound);
    SameObjs(cfg, st.objs.Keys, bound, top, st3);
    ReckonedPlaces(st, st1);
    SamePlacesOwned(st, st1);
    ReadIdle(cfg, st1, r, st');
    MeasuredInFull(cfg, st, r, bound, st1, st2, st3);
    PropagateBelow(cfg, st3, st', bound, top);
    InvParts(cfg, st');
    RoomIsBudget(cfg, st', top);
  }

  lemma MeasuredInFull(cfg: Config, st: State, r: Reading, bound: nat, st1: State, st2: State, st3: State)
    requires Bounded(cfg, r, bound) && TreeOk(cfg, st.objs.Keys) && st1 == ClearWork(cfg, st)
    requires st2 == st1.(irqs := ReadCounts(st1.irqs, r.lines).0) && st3 == st2.(objs := WithLoads(st2.objs, r.cpuLoads))
    ensures TreeOk(cfg, st3.objs.Keys) && Measuring(cfg, st, r) == Propagate(cfg, st3)
  {
    hide TreeOk, Propagate, ClearWork, ReadCounts, WithLoads;
  }
}
