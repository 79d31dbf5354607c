/** procinterrupts.c and clear_work_stats, on the heap, against LoadShare and Measure. */
module LoadCode {
  import opened Irqs
  import opened Tree
  import opened LoadShare
  import opened ShareConservation
  import opened Measure
  import opened Globals
  import PlacementCode

  // ---- set_load ----

  ghost predicate OfLevel(g: Globals, ds: seq<TopoObj>, levels: nat)
    reads g
  {
    forall d | d in ds :: d in g.objs && d.kind.Depth() + levels == LEVELS
  }

  lemma ChildrenOfLevel(g: Globals, d: TopoObj, levels: nat)
    requires g.Valid() && d in g.objs && d.kind.Depth() + levels == LEVELS && levels > 0
    ensures OfLevel(g, d.children, levels - 1) && Children(g.Cfg(), d) == d.children
    ensures forall c | c in d.children :: c != d
  {
    hide TreeOk;
    ChildrenKnown(g.Cfg(), g.objs, d);
    PlacementCode.ChildrenThere(g, d);
  }

  lemma {:induction false} PlainSumNext(objs: map<TopoObj, ObjState>, ds: seq<TopoObj>, i: nat)
    requires i < |ds| && ds[i] in objs
    ensures PlainSum(objs, ds[..i + 1]) == PlainSum(objs, ds[..i]) + objs[ds[i]].load
  {
    if i > 0 {
      PlainSumNext(objs, ds[1..], i - 1);
      assert ds[1..][..i] == ds[..i + 1][1..] && ds[1..][..i - 1] == ds[..i][1..];
    } else {
      assert ds[..1] == [ds[0]];
    }
  }

  lemma LoadSumNext(objs: map<TopoObj, ObjState>, ds: seq<TopoObj>, i: nat)
    requires i < |ds| && ds[i] in objs
    ensures LoadSum(objs, ds[..i + 1]) == Add64(LoadSum(objs, ds[..i]), objs[ds[i]].load)
  {
    hide PlainSum, Add64;
    PlainSumNext(objs, ds, i);
    AddMod(PlainSum(objs, ds[..i]), objs[ds[i]].load);
  }

  lemma ObjThere(g: Globals, d: TopoObj)
    requires d in g.objs
    ensures g.St().objs[d] == d.Fields()
  {
  }

  lemma NoSum(objs: map<TopoObj, ObjState>)
    ensures LoadSum(objs, []) == 0
  {
  }

  /** for_each_object with accumulate_load */
  method AccumulateLoads(g: Globals, ds: seq<TopoObj>) returns (load: U64)
    requires forall d | d in ds :: d in g.objs
    ensures load == LoadSum(g.St().objs, ds)
  {
    hide Globals.St, LoadSum, Add64;
    load := 0;
    NoSum(g.St().objs);
    assert ds[..0] == [];
    var i := 0;
    while i < |ds|
      invariant i <= |ds| && load == LoadSum(g.St().objs, ds[..i])
    {
      assert ds[i] in ds;
      ObjThere(g, ds[i]);
      LoadSumNext(g.St().objs, ds, i);
      load := Add64(load, ds[i].load);
      i := i + 1;
    }
    assert ds[..i] == ds;
  }

  /** Only the loads of objects changed, as the walk says. */
  ghost predicate Summed(cfg: Config, st: State, st': State, walk: seq<TopoObj>) {
    st' == st.(objs := SumLoads(cfg, st.objs, walk))
  }

  lemma SummedBoth(cfg: Config, st: State, st1: State, st2: State, walk1: seq<TopoObj>, walk2: seq<TopoObj>)
    requires Summed(cfg, st, st1, walk1) && Summed(cfg, st1, st2, walk2)
    ensures Summed(cfg, st, st2, walk1 + walk2)
  {
    SumLoadsAppend(cfg, st.objs, walk1, walk2);
  }

  lemma SummedNone(cfg: Config, st: State, levels: nat)
    ensures Summed(cfg, st, st, PostOrder(cfg, [], levels))
  {
  }

  lemma SummedOne(cfg: Config, st: State, st': State, d: TopoObj)
    requires d in st.objs
    requires st' == if Children(cfg, d) == [] then st
                    else st.(objs := st.objs[d := st.objs[d].(load := LoadSum(st.objs, Children(cfg, d)))])
    ensures Summed(cfg, st, st', [d])
  {
    assert SumLoads(cfg, st.objs, [d]) == SumLoads(cfg, SumLoad(cfg, st.objs, d), []);
  }

  /** The walk below one object, and then the rest of the list. */
  lemma WalkFirst(cfg: Config, ds: seq<TopoObj>, levels: nat)
    requires ds != [] && levels > 0
    ensures PostOrder(cfg, ds, levels) == PostOrder(cfg, Children(cfg, ds[0]), levels - 1) + [ds[0]] + PostOrder(cfg, ds[1..], levels)
  {
  }

  lemma TreeOnly(g: Globals, cfg: Config, st: State)
    requires Ready(cfg, st) && g.Cfg() == cfg && g.St().objs.Keys == st.objs.Keys && g.St().irqs.Keys == st.irqs.Keys
    requires g.St().rebalance == st.rebalance && forall o | o in st.objs :: g.St().objs[o].interrupts == st.objs[o].interrupts
    ensures g.Valid()
  {
    hide TreeOk, IrqsOk;
    RecordKnown(st, g.St());
  }

  lemma {:induction false} SummedKeeps(cfg: Config, objs: map<TopoObj, ObjState>, walk: seq<TopoObj>)
    ensures forall o | o in objs :: SumLoads(cfg, objs, walk)[o] == objs[o].(load := SumLoads(cfg, objs, walk)[o].load)
    decreases |walk|
  {
    if walk != [] {
      SummedKeeps(cfg, SumLoad(cfg, objs, walk[0]), walk[1..]);
    }
  }

  lemma SummedValid(g: Globals, cfg: Config, st: State, walk: seq<TopoObj>)
    requires Ready(cfg, st) && g.Cfg() == cfg && Summed(cfg, st, g.St(), walk)
    ensures g.Valid()
  {
    hide Ready;
    SummedKeeps(cfg, st.objs, walk);
    TreeOnly(g, cfg, st);
  }

  /** set_load */
  method SetLoad(g: Globals, d: TopoObj, ghost levels: nat)
    requires g.Valid() && levels > 0 && OfLevel(g, [d], levels)
    modifies g.objs`load
    ensures g.Cfg() == old(g.Cfg()) && g.Valid()
    ensures Summed(g.Cfg(), old(g.St()), g.St(), PostOrder(g.Cfg(), Children(g.Cfg(), d), levels - 1) + [d])
    decreases levels, 0
  {
    hide Ready, Summed, PostOrder, Globals.St, Globals.Cfg;
    ghost var cfg, st := g.Cfg(), g.St();
    assert d in [d];
    ChildrenOfLevel(g, d, levels);
    if |d.children| > 0 {
      SetLoads(g, d.children, levels - 1);
      ghost var st1 := g.St();
      var load := AccumulateLoads(g, d.children);
      SetObjLoad(g, d, load);
      SummedOne(cfg, st1, g.St(), d);
      SummedBoth(cfg, st, st1, g.St(), PostOrder(cfg, d.children, levels - 1), [d]);
    } else {
      SummedNone(cfg, st, levels - 1);
      SummedOne(cfg, st, st, d);
      SummedBoth(cfg, st, st, st, PostOrder(cfg, [], levels - 1), [d]);
    }
    SummedValid(g, cfg, st, PostOrder(cfg, Children(cfg, d), levels - 1) + [d]);
  }

  lemma OneOfLevel(g: Globals, ds: seq<TopoObj>, i: nat, levels: nat)
    requires OfLevel(g, ds, levels) && i < |ds|
    ensures OfLevel(g, [ds[i]], levels) && levels > 0 && ds[i] in g.objs
  {
    assert ds[i] in ds;
  }

  lemma WalkNext(cfg: Config, ds: seq<TopoObj>, i: nat, levels: nat)
    requires i < |ds| && levels > 0
    ensures PostOrder(cfg, ds[..i + 1], levels) == PostOrder(cfg, ds[..i], levels) + (PostOrder(cfg, Children(cfg, ds[i]), levels - 1) + [ds[i]])
  {
    WalkAppend(cfg, ds[..i], [ds[i]], levels);
    assert ds[..i + 1] == ds[..i] + [ds[i]];
    WalkFirst(cfg, [ds[i]], levels);
  }

  lemma {:induction false} WalkAppend(cfg: Config, a: seq<TopoObj>, b: seq<TopoObj>, levels: nat)
    ensures PostOrder(cfg, a + b, levels) == PostOrder(cfg, a, levels) + PostOrder(cfg, b, levels)
    decreases |a|
  {
    if a == [] {
      assert a + b == b;
    } else if levels > 0 {
      assert (a + b)[0] == a[0] && (a + b)[1..] == a[1..] + b;
      WalkAppend(cfg, a[1..], b, levels);
    }
  }

  /** for_each_object with set_load */
  method SetLoads(g: Globals, ds: seq<TopoObj>, ghost levels: nat)
    requires g.Valid() && OfLevel(g, ds, levels)
    modifies g.objs`load
    ensures g.Cfg() == old(g.Cfg()) && g.Valid()
    ensures Summed(g.Cfg(), old(g.St()), g.St(), PostOrder(g.Cfg(), ds, levels))
    decreases levels, 1
  {
    hide Ready, Summed, PostOrder, Globals.St, Globals.Cfg, OfLevel;
    ghost var cfg, st := g.Cfg(), g.St();
    var i := 0;
    SummedNone(cfg, st, levels);
    assert ds[..0] == [];
    while i < |ds|
      invariant i <= |ds|
      invariant g.Valid() && g.Cfg() == cfg && OfLevel(g, ds, levels)
      invariant Summed(cfg, st, g.St(), PostOrder(cfg, ds[..i], levels))
    {
      ghost var st1 := g.St();
      OneOfLevel(g, ds, i, levels);
      SetLoad(g, ds[i], levels);
      SummedBoth(cfg, st, st1, g.St(), PostOrder(cfg, ds[..i], levels), PostOrder(cfg, Children(cfg, ds[i]), levels - 1) + [ds[i]]);
      WalkNext(cfg, ds, i, levels);
      i := i + 1;
    }
    assert ds[..i] == ds;
  }

  // ---- accumulate_interrupts ----

  ghost predicate Tallied(st: State, st': State, walk: seq<TopoObj>) {
    st' == SetCounts(st, walk)
  }

  lemma {:induction false} SetCountsAppend(st: State, a: seq<TopoObj>, b: seq<TopoObj>)
    ensures SetCounts(st, a + b) == SetCounts(SetCounts(st, a), b)
    decreases |a|
  {
    if a == [] {
      assert a + b == b;
    } else {
      assert (a + b)[0] == a[0] && (a + b)[1..] == a[1..] + b;
      SetCountsAppend(SetCount(st, a[0]), a[1..], b);
    }
  }

  lemma TalliedBoth(st: State, st1: State, st2: State, walk1: seq<TopoObj>, walk2: seq<TopoObj>)
    requires Tallied(st, st1, walk1) && Tallied(st1, st2, walk2)
    ensures Tallied(st, st2, walk1 + walk2)
  {
    SetCountsAppend(st, walk1, walk2);
  }

  lemma TalliedNone(cfg: Config, st: State, levels: nat)
    ensures Tallied(st, st, PostOrder(cfg, [], levels))
  {
  }

  lemma TalliedOne(st: State, st': State, d: TopoObj)
    requires d in st.objs
    requires st' == st.(objs := st.objs[d := st.objs[d].(irqCount := DeltaSum(st.irqs, st.objs[d].interrupts))])
    ensures Tallied(st, st', [d])
  {
    assert SetCounts(st, [d]) == SetCounts(SetCount(st, d), []);
  }

  lemma {:induction false} TalliedKeeps(st: State, walk: seq<TopoObj>)
    ensures forall o | o in st.objs :: SetCounts(st, walk).objs[o].interrupts == st.objs[o].interrupts
    decreases |walk|
  {
    if walk != [] {
      TalliedKeeps(SetCount(st, walk[0]), walk[1..]);
    }
  }

  lemma TalliedValid(g: Globals, cfg: Config, st: State, walk: seq<TopoObj>)
    requires Ready(cfg, st) && g.Cfg() == cfg && Tallied(st, g.St(), walk)
    ensures g.Valid()
  {
    hide Ready;
    TalliedKeeps(st, walk);
    TreeOnly(g, cfg, st);
  }

  lemma {:induction false} DeltaSumNext(irqs: map<IrqInfo, IrqState>, qs: seq<IrqInfo>, i: nat)
    requires i < |qs| && qs[i] in irqs
    ensures DeltaSum(irqs, qs[..i + 1]) == DeltaSum(irqs, qs[..i]) + Delta(irqs[qs[i]])
  {
    hide Delta;
    if i > 0 {
      DeltaSumNext(irqs, qs[1..], i - 1);
      assert qs[1..][..i] == qs[..i + 1][1..] && qs[1..][..i - 1] == qs[..i][1..];
    } else {
      assert qs[..1] == [qs[0]];
    }
  }

  /** for_each_irq with accumulate_irq_count */
  method AccumulateIrqCounts(g: Globals, qs: seq<IrqInfo>) returns (acc: nat)
    requires forall q | q in qs :: q in g.irqs
    ensures acc == DeltaSum(g.St().irqs, qs)
  {
    hide Globals.St;
    acc := 0;
    var i := 0;
    while i < |qs|
      invariant i <= |qs| && acc == DeltaSum(g.St().irqs, qs[..i])
    {
      assert qs[i] in qs;
      PlacementCode.IrqThere(g, qs[i]);
      DeltaSumNext(g.St().irqs, qs, i);
      acc := acc + Sub64(qs[i].irqCount, qs[i].lastIrqCount);
      i := i + 1;
    }
    assert qs[..i] == qs;
  }

  /** accumulate_interrupts */
  method AccumulateInterrupts(g: Globals, d: TopoObj, ghost levels: nat)
    requires g.Valid() && levels > 0 && OfLevel(g, [d], levels)
    modifies g.objs`irqCount
    ensures g.Cfg() == old(g.Cfg()) && g.Valid()
    ensures Tallied(old(g.St()), g.St(), PostOrder(g.Cfg(), Children(g.Cfg(), d), levels - 1) + [d])
    decreases levels, 0
  {
    hide Ready, Tallied, PostOrder, Globals.St, Globals.Cfg;
    ghost var cfg, st := g.Cfg(), g.St();
    assert d in [d];
    ChildrenOfLevel(g, d, levels);
    TalliedNone(cfg, st, levels - 1);
    if |d.children| > 0 {
      AccumulateAll(g, d.children, levels - 1);
    }
    ghost var st1 := g.St();
    PlacementCode.ListThere(g, d);
    var acc := AccumulateIrqCounts(g, d.interrupts);
    SetObjCount(g, d, acc);
    TalliedOne(st1, g.St(), d);
    TalliedBoth(st, st1, g.St(), PostOrder(cfg, d.children, levels - 1), [d]);
    TalliedValid(g, cfg, st, PostOrder(cfg, Children(cfg, d), levels - 1) + [d]);
  }

  /** for_each_object with accumulate_interrupts */
  method AccumulateAll(g: Globals, ds: seq<TopoObj>, ghost levels: nat)
    requires g.Valid() && OfLevel(g, ds, levels)
    modifies g.objs`irqCount
    ensures g.Cfg() == old(g.Cfg()) && g.Valid()
    ensures Tallied(old(g.St()), g.St(), PostOrder(g.Cfg(), ds, levels))
    decreases levels, 1
  {
    hide Ready, Tallied, PostOrder, Globals.St, Globals.Cfg, OfLevel;
    ghost var cfg, st := g.Cfg(), g.St();
    var i := 0;
    TalliedNone(cfg, st, levels);
    assert ds[..0] == [];
    while i < |ds|
      invariant i <= |ds|
      invariant g.Valid() && g.Cfg() == cfg && OfLevel(g, ds, levels)
      invariant Tallied(st, g.St(), PostOrder(cfg, ds[..i], levels))
    {
      ghost var st1 := g.St();
      OneOfLevel(g, ds, i, levels);
      AccumulateInterrupts(g, ds[i], levels);
      TalliedBoth(st, st1, g.St(), PostOrder(cfg, ds[..i], levels), PostOrder(cfg, Children(cfg, ds[i]), levels - 1) + [ds[i]]);
      WalkNext(cfg, ds, i, levels);
      i := i + 1;
    }
    assert ds[..i] == ds;
  }

  // ---- shares ----

  lemma ParentThere(g: Globals, d: TopoObj)
    requires g.Valid() && d in g.objs
    ensures Parents(g.Cfg(), g.objs) && g.Cfg().parent[d] == d.parent
    ensures d.parent != null ==>
      && d.parent in g.objs && d.parent.kind.Depth() < d.kind.Depth()
      && g.Cfg().children[d.parent] == d.parent.children && |d.parent.children| > 0
  {
    hide TreeOk;
    TreeParents(g.Cfg(), g.objs);
  }

  lemma ParentShareIs(cfg: Config, objs: map<TopoObj, ObjState>, d: TopoObj, p: TopoObj?)
    requires Parents(cfg, objs.Keys) && d in objs && cfg.parent[d] == p
    ensures p == null ==> ParentShare(cfg, objs, d) == objs[d].irqCount
    ensures p != null ==> ParentShare(cfg, objs, d) == ParentShare(cfg, objs, p) / |cfg.children[p]| + objs[d].irqCount
  {
  }

  /** get_parent_branch_irq_count_share */
  method GetParentBranchIrqCountShare(g: Globals, d: TopoObj) returns (total: nat)
    requires g.Valid() && d in g.objs
    ensures Parents(g.Cfg(), g.St().objs.Keys) && total == ParentShare(g.Cfg(), g.St().objs, d)
    decreases d.kind.Depth()
  {
    hide *;
    ParentThere(g, d);
    ObjThere(g, d);
    ParentShareIs(g.Cfg(), g.St().objs, d, d.parent);
    total := 0;
    if d.parent != null {
      total := GetParentBranchIrqCountShare(g, d.parent);
      total := total / |d.parent.children|;
    }
    CountOf(g, d);
    total := total + d.irqCount;
  }

  lemma CountOf(g: Globals, d: TopoObj)
    requires d in g.objs
    ensures g.St().objs[d].irqCount == d.irqCount && g.St().objs[d].load == d.load && g.St().objs[d].interrupts == d.interrupts
  {
  }

  /** Enough levels to walk below ds. */
  ghost predicate Deep(g: Globals, ds: seq<TopoObj>, levels: nat)
    reads g
  {
    forall d | d in ds :: d in g.objs && d.kind.Depth() + levels >= LEVELS
  }

  lemma ChildrenDeep(g: Globals, d: TopoObj, levels: nat)
    requires g.Valid() && d in g.objs && d.kind.Depth() + levels >= LEVELS
    ensures levels > 0 && Deep(g, d.children, levels - 1) && Deep(g, d.children, levels) && Children(g.Cfg(), d) == d.children
  {
    hide TreeOk;
    ChildrenKnown(g.Cfg(), g.objs, d);
    PlacementCode.ChildrenThere(g, d);
  }

  lemma CountWalkNext(cfg: Config, objs: map<TopoObj, ObjState>, ds: seq<TopoObj>, i: nat, levels: nat)
    requires i < |ds| && levels > 0 && ds[i] in objs
    ensures CountSum(objs, PostOrder(cfg, ds[..i + 1], levels)) ==
      CountSum(objs, PostOrder(cfg, ds[..i], levels)) + (CountSum(objs, PostOrder(cfg, Children(cfg, ds[i]), levels - 1)) + objs[ds[i]].irqCount)
  {
    hide PostOrder;
    WalkNext(cfg, ds, i, levels);
    var below := PostOrder(cfg, Children(cfg, ds[i]), levels - 1);
    CountSumAppend(objs, PostOrder(cfg, ds[..i], levels), below + [ds[i]]);
    CountSumAppend(objs, below, [ds[i]]);
    assert CountSum(objs, [ds[i]]) == objs[ds[i]].irqCount + CountSum(objs, []);
  }

  /** get_children_branch_irq_count */
  method GetChildrenBranchIrqCount(g: Globals, d: TopoObj, total: nat, ghost levels: nat) returns (total': nat)
    requires g.Valid() && levels > 0 && Deep(g, [d], levels)
    ensures d in g.St().objs
    ensures total' == total + CountSum(g.St().objs, PostOrder(g.Cfg(), Children(g.Cfg(), d), levels - 1)) + g.St().objs[d].irqCount
    decreases levels, 0
  {
    hide Ready, PostOrder, Globals.St, Globals.Cfg;
    assert d in [d];
    ChildrenDeep(g, d, levels);
    CountOf(g, d);
    total' := total;
    if |d.children| > 0 {
      total' := CountChildren(g, d.children, total', levels - 1);
    } else {
      NothingCounted(g.Cfg(), g.St().objs, levels - 1);
    }
    total' := total' + d.irqCount;
  }

  lemma NothingCounted(cfg: Config, objs: map<TopoObj, ObjState>, levels: nat)
    ensures CountSum(objs, PostOrder(cfg, [], levels)) == 0
  {
  }

  lemma OneDeep(g: Globals, ds: seq<TopoObj>, i: nat, levels: nat)
    requires Deep(g, ds, levels) && i < |ds|
    ensures Deep(g, [ds[i]], levels) && levels > 0 && ds[i] in g.objs
  {
    assert ds[i] in ds;
  }

  /** for_each_object with get_children_branch_irq_count */
  method CountChildren(g: Globals, ds: seq<TopoObj>, total: nat, ghost levels: nat) returns (total': nat)
    requires g.Valid() && Deep(g, ds, levels)
    ensures total' == total + CountSum(g.St().objs, PostOrder(g.Cfg(), ds, levels))
    decreases levels, 1
  {
    hide Ready, PostOrder, CountSum, Globals.St, Globals.Cfg, Deep, Globals.Valid;
    total' := total;
    var i := 0;
    NothingCounted(g.Cfg(), g.St().objs, levels);
    assert ds[..0] == [];
    while i < |ds|
      invariant i <= |ds|
      invariant total' == total + CountSum(g.St().objs, PostOrder(g.Cfg(), ds[..i], levels))
    {
      OneDeep(g, ds, i, levels);
      total' := GetChildrenBranchIrqCount(g, ds[i], total', levels);
      CountWalkNext(g.Cfg(), g.St().objs, ds, i, levels);
      i := i + 1;
    }
    assert ds[..i] == ds;
  }

  // ---- compute_irq_branch_load_share ----

  /** assign_load_slice */
  method AssignLoadSlice(g: Globals, info: IrqInfo, slice: nat)
    requires info in g.irqs
    modifies info`load
    ensures g.St() == old(g.St()).(irqs := AssignSlice(old(g.St().irqs), info, slice)) && g.Cfg() == old(g.Cfg())
  {
    hide Globals.St, Globals.Cfg;
    PlacementCode.IrqThere(g, info);
    var load: U64 := (Sub64(info.irqCount, info.lastIrqCount) * slice) % TWO64;
    if load == 0 {
      load := load + 1;
    }
    SetIrqLoad(g, info, load);
  }

  lemma SlicesNext(irqs: map<IrqInfo, IrqState>, qs: seq<IrqInfo>, slice: nat, i: nat)
    requires i < |qs|
    ensures AssignSlices(irqs, qs[i..], slice) == AssignSlices(AssignSlice(irqs, qs[i], slice), qs[i + 1..], slice)
  {
    assert qs[i..][0] == qs[i] && qs[i..][1..] == qs[i + 1..];
  }

  lemma SlicesEnd(irqs: map<IrqInfo, IrqState>, qs: seq<IrqInfo>, slice: nat)
    ensures AssignSlices(irqs, qs[|qs|..], slice) == irqs
  {
  }

  /** for_each_irq with assign_load_slice */
  method AssignLoadSlices(g: Globals, qs: seq<IrqInfo>, slice: nat)
    requires forall q | q in qs :: q in g.irqs
    modifies g.irqs`load
    ensures g.St() == old(g.St()).(irqs := AssignSlices(old(g.St().irqs), qs, slice)) && g.Cfg() == old(g.Cfg())
  {
    hide Globals.St, Globals.Cfg, AssignSlices, AssignSlice;
    ghost var cfg, st := g.Cfg(), g.St();
    var i := 0;
    while i < |qs|
      invariant i <= |qs| && g.Cfg() == cfg
      invariant st.(irqs := AssignSlices(g.St().irqs, qs[i..], slice)) == st.(irqs := AssignSlices(st.irqs, qs, slice))
      invariant g.St() == st.(irqs := g.St().irqs)
    {
      ghost var irqs1 := g.St().irqs;
      assert qs[i] in qs;
      AssignLoadSlice(g, qs[i], slice);
      SlicesNext(irqs1, qs, slice, i);
      i := i + 1;
    }
    SlicesEnd(g.St().irqs, qs, slice);
  }

  lemma AttributeIs(cfg: Config, st: State, d: TopoObj, count: nat)
    requires TreeOk(cfg, st.objs.Keys) && d in st.objs
    requires st.objs[d].interrupts != [] ==> count == LocalCount(cfg, st.objs, d)
    ensures Attribute(cfg, st, d) == st.(irqs := AssignSlices(st.irqs, st.objs[d].interrupts, Slice(st.objs[d].load, count)))
  {
    hide TreeOk, LocalCount;
  }

  lemma LocalCountIs(cfg: Config, objs: map<TopoObj, ObjState>, d: TopoObj)
    requires TreeOk(cfg, objs.Keys) && Parents(cfg, objs.Keys) && d in objs
    ensures LocalCount(cfg, objs, d) == ParentShare(cfg, objs, d) + CountSum(objs, PostOrder(cfg, Children(cfg, d), LEVELS))
  {
    hide TreeOk;
  }

  lemma TreeThere(g: Globals, d: TopoObj)
    requires g.Valid() && d in g.objs
    ensures TreeOk(g.Cfg(), g.St().objs.Keys) && Deep(g, d.children, LEVELS) && Children(g.Cfg(), d) == d.children
  {
    hide TreeOk;
    ChildrenDeep(g, d, LEVELS);
  }

  lemma IrqLoadsValid(g: Globals, cfg: Config, st: State)
    requires Ready(cfg, st) && g.Cfg() == cfg && g.St() == st.(irqs := g.St().irqs) && g.St().irqs.Keys == st.irqs.Keys
    ensures g.Valid()
  {
    hide TreeOk, IrqsOk;
  }

  /** compute_irq_branch_load_share */
  method ComputeIrqBranchLoadShare(g: Globals, d: TopoObj)
    requires g.Valid() && d in g.objs
    modifies g.irqs`load
    ensures g.Cfg() == old(g.Cfg()) && g.Valid() && TreeOk(g.Cfg(), old(g.St().objs.Keys))
    ensures g.St() == Attribute(g.Cfg(), old(g.St()), d)
  {
    hide *;
    ghost var cfg, st := g.Cfg(), g.St();
    var localIrqCounts := 0;
    TreeThere(g, d);
    CountOf(g, d);
    PlacementCode.ListThere(g, d);
    if |d.interrupts| > 0 {
      localIrqCounts := GetParentBranchIrqCountShare(g, d);
      LocalCountIs(cfg, st.objs, d);
      if |d.children| > 0 {
        localIrqCounts := CountChildren(g, d.children, localIrqCounts, LEVELS);
      } else {
        NothingCounted(cfg, st.objs, LEVELS);
      }
    }
    AttributeIs(cfg, st, d, localIrqCounts);
    SliceIs(d.load, localIrqCounts);
    ValidMeans(g);
    if |d.interrupts| > 0 {
      var loadSlice := if localIrqCounts != 0 then d.load / localIrqCounts else 1;
      AssignLoadSlices(g, d.interrupts, loadSlice);
      IrqLoadsValid(g, cfg, st);
    } else {
      NoSlices(st.irqs, Slice(d.load, localIrqCounts));
    }
  }

  lemma ValidMeans(g: Globals)
    requires g.Valid()
    ensures Ready(g.Cfg(), g.St())
  {
  }

  lemma SliceIs(load: nat, count: nat)
    ensures count != 0 ==> Slice(load, count) == load / count
    ensures count == 0 ==> Slice(load, count) == 1
  {
  }

  lemma NoSlices(irqs: map<IrqInfo, IrqState>, slice: nat)
    ensures AssignSlices(irqs, [], slice) == irqs
  {
  }

  lemma AttributeNext(cfg: Config, st: State, ds: seq<TopoObj>, i: nat, st1: State)
    requires TreeOk(cfg, st.objs.Keys) && (forall d | d in ds :: d in st.objs) && i < |ds| && ds[i] in st.objs
    requires st1 == Attribute(cfg, st, ds[i])
    ensures st1.objs == st.objs
    ensures AttributeAll(cfg, st, ds[i..]) == AttributeAll(cfg, st1, ds[i + 1..])
  {
    hide TreeOk, AssignSlices, LocalCount;
    assert ds[i..][0] == ds[i] && ds[i..][1..] == ds[i + 1..];
  }

  lemma AttributeEnd(cfg: Config, st: State, ds: seq<TopoObj>)
    requires TreeOk(cfg, st.objs.Keys)
    ensures AttributeAll(cfg, st, ds[|ds|..]) == st
  {
    hide TreeOk;
  }

  lemma TreeStays(g: Globals)
    requires g.Valid()
    ensures TreeOk(g.Cfg(), g.St().objs.Keys) && g.St().objs.Keys == g.objs
  {
    hide TreeOk;
  }

  /** for_each_object with compute_irq_branch_load_share */
  method ComputeShares(g: Globals, ds: seq<TopoObj>)
    requires g.Valid() && forall d | d in ds :: d in g.objs
    modifies g.irqs`load
    ensures g.Cfg() == old(g.Cfg()) && g.Valid() && TreeOk(g.Cfg(), old(g.St().objs.Keys)) && old(g.St().objs.Keys) == g.objs
    ensures g.St() == AttributeAll(g.Cfg(), old(g.St()), ds)
  {
    hide Ready, TreeOk, Attribute, AttributeAll, Globals.St, Globals.Cfg, Globals.Valid;
    ghost var cfg, st := g.Cfg(), g.St();
    TreeStays(g);
    var i := 0;
    while i < |ds|
      invariant i <= |ds|
      invariant g.Valid() && g.Cfg() == cfg && TreeOk(cfg, g.St().objs.Keys) && g.St().objs == st.objs
      invariant AttributeAll(cfg, g.St(), ds[i..]) == AttributeAll(cfg, st, ds)
    {
      ghost var st1 := g.St();
      assert ds[i] in ds;
      ComputeIrqBranchLoadShare(g, ds[i]);
      AttributeNext(cfg, st1, ds, i, g.St());
      TreeStays(g);
      i := i + 1;
    }
    AttributeEnd(cfg, g.St(), ds);
  }

  lemma {:induction false} AttributeAppend(cfg: Config, st: State, a: seq<TopoObj>, b: seq<TopoObj>)
    requires TreeOk(cfg, st.objs.Keys) && (forall d | d in a :: d in st.objs) && (forall d | d in b :: d in st.objs)
    ensures AttributeAll(cfg, st, a + b) == AttributeAll(cfg, AttributeAll(cfg, st, a), b)
    decreases |a|
  {
    hide TreeOk, Attribute;
    if a == [] {
      assert a + b == b;
    } else {
      assert (a + b)[0] == a[0] && (a + b)[1..] == a[1..] + b;
      AttributeKeys(cfg, st, a[0]);
      AttributeAppend(cfg, Attribute(cfg, st, a[0]), a[1..], b);
    }
  }

  lemma AttributeKeys(cfg: Config, st: State, d: TopoObj)
    requires TreeOk(cfg, st.objs.Keys) && d in st.objs
    ensures Attribute(cfg, st, d).objs == st.objs
  {
    hide TreeOk, AssignSlices, LocalCount;
  }

  lemma PropagateIs(cfg: Config, st: State, st1: State, st2: State, st3: State, st4: State, st5: State, st6: State)
    requires TreeOk(cfg, st.objs.Keys)
    requires Summed(cfg, st, st1, Walk(cfg)) && Tallied(st1, st2, Walk(cfg))
    requires (forall d | d in Layers(cfg) :: d in st.objs) && st2.objs.Keys == st.objs.Keys
    requires forall d | d in cfg.cpus :: d in st.objs
    requires forall d | d in cfg.caches :: d in st.objs
    requires forall d | d in cfg.packages :: d in st.objs
    requires forall d | d in cfg.nodes :: d in st.objs
    requires st3 == AttributeAll(cfg, st2, cfg.cpus) && st4 == AttributeAll(cfg, st3, cfg.caches)
    requires st5 == AttributeAll(cfg, st4, cfg.packages) && st6 == AttributeAll(cfg, st5, cfg.nodes)
    ensures st6 == Propagate(cfg, st)
  {
    hide TreeOk, AttributeAll, SumLoads, SetCounts, Walk;
    AttributeAppend(cfg, st2, cfg.cpus, cfg.caches);
    AttributeAppend(cfg, st2, cfg.cpus + cfg.caches, cfg.packages);
    AttributeAppend(cfg, st2, cfg.cpus + cfg.caches + cfg.packages, cfg.nodes);
  }

  lemma LayersThere(g: Globals)
    requires g.Valid()
    ensures forall d | d in g.cpus :: d in g.objs
    ensures forall d | d in g.caches :: d in g.objs
    ensures forall d | d in g.packages :: d in g.objs
    ensures (forall d | d in g.nodes :: d in g.objs) && OfLevel(g, g.nodes, LEVELS)
    ensures forall d | d in Layers(g.Cfg()) :: d in g.objs
  {
    hide TreeOk;
    LayersKnown(g.Cfg(), g.objs);
    LayerKnown(g.Cfg(), g.objs, ObjCpu);
    LayerKnown(g.Cfg(), g.objs, ObjCache);
    LayerKnown(g.Cfg(), g.objs, ObjPackage);
    LayerKnown(g.Cfg(), g.objs, ObjNode);
  }

  lemma LayerFields(g: Globals)
    ensures g.Cfg().cpus == g.cpus && g.Cfg().caches == g.caches && g.Cfg().packages == g.packages && g.Cfg().nodes == g.nodes
    ensures Walk(g.Cfg()) == PostOrder(g.Cfg(), g.nodes, LEVELS) && g.St().objs.Keys == g.objs
  {
  }

  /** The end of parse_proc_stat */
  method PropagateLoads(g: Globals)
    requires g.Valid()
    modifies g.objs`load, g.objs`irqCount, g.irqs`load
    ensures g.Cfg() == old(g.Cfg()) && g.Valid() && TreeOk(g.Cfg(), old(g.St().objs.Keys))
    ensures g.St() == Propagate(g.Cfg(), old(g.St()))
  {
    hide *;
    ghost var cfg, st := g.Cfg(), g.St();
    TreeStays(g);
    LayersThere(g);
    LayerFields(g);
    SetLoads(g, g.nodes, LEVELS);
    ghost var st1 := g.St();
    LayersThere(g);
    AccumulateAll(g, g.nodes, LEVELS);
    ghost var st2 := g.St();
    LayerFields(g);
    ComputeShares(g, g.cpus);
    ghost var st3 := g.St();
    ComputeShares(g, g.caches);
    ghost var st4 := g.St();
    ComputeShares(g, g.packages);
    ghost var st5 := g.St();
    ComputeShares(g, g.nodes);
    PropagateIs(cfg, st, st1, st2, st3, st4, st5, g.St());
  }

  // ---- clear_work_stats ----

  ghost function ZeroLoad(irqs: map<IrqInfo, IrqState>, q: IrqInfo): map<IrqInfo, IrqState> {
    if q in irqs then irqs[q := irqs[q].(load := 0)] else irqs
  }

  lemma ZeroNext(irqs: map<IrqInfo, IrqState>, qs: seq<IrqInfo>, i: nat)
    requires i < |qs|
    ensures ZeroLoads(irqs, qs[i..]) == ZeroLoads(ZeroLoad(irqs, qs[i]), qs[i + 1..])
  {
    assert qs[i..][0] == qs[i] && qs[i..][1..] == qs[i + 1..];
  }

  lemma ZeroEnd(irqs: map<IrqInfo, IrqState>, qs: seq<IrqInfo>)
    ensures ZeroLoads(irqs, qs[|qs|..]) == irqs
  {
  }

  /** for_each_irq with clear_irq_stats */
  method ClearIrqStats(g: Globals, list: seq<IrqInfo>)
    requires (forall q | q in list :: q in g.irqs) && forall q | q in g.interruptsDb :: q in g.irqs
    modifies g.irqs`load
    ensures g.St() == old(g.St()).(irqs := ZeroLoads(old(g.St().irqs), EachIrq(g.Cfg(), list))) && g.Cfg() == old(g.Cfg())
  {
    hide Globals.St, Globals.Cfg, ZeroLoads;
    DbField(g);
    ghost var cfg, st := g.Cfg(), g.St();
    var qs := if list != [] then list else g.interruptsDb;
    var i := 0;
    while i < |qs|
      invariant i <= |qs| && g.Cfg() == cfg
      invariant ZeroLoads(g.St().irqs, qs[i..]) == ZeroLoads(st.irqs, qs)
      invariant g.St() == st.(irqs := g.St().irqs)
    {
      ghost var irqs1 := g.St().irqs;
      assert qs[i] in qs;
      SetIrqLoad(g, qs[i], 0);
      ZeroNext(irqs1, qs, i);
      i := i + 1;
    }
    ZeroEnd(g.St().irqs, qs);
  }

  lemma DbField(g: Globals)
    ensures g.Cfg().db == g.interruptsDb
  {
  }

  lemma DbThere(g: Globals)
    requires g.Valid()
    ensures forall q | q in g.interruptsDb :: q in g.irqs
  {
    hide TreeOk;
    DbField(g);
    forall q | q in g.interruptsDb
      ensures q in g.irqs
    {
      var i :| 0 <= i < |g.interruptsDb| && g.interruptsDb[i] == q;
    }
  }

  ghost predicate Wiped(cfg: Config, st: State, st': State, walk: seq<TopoObj>) {
    st' == ClearStats(cfg, st, walk)
  }

  lemma {:induction false} ClearStatsAppend(cfg: Config, st: State, a: seq<TopoObj>, b: seq<TopoObj>)
    ensures ClearStats(cfg, st, a + b) == ClearStats(cfg, ClearStats(cfg, st, a), b)
    decreases |a|
  {
    hide EachIrq, ZeroLoads;
    if a == [] {
      assert a + b == b;
    } else {
      assert (a + b)[0] == a[0] && (a + b)[1..] == a[1..] + b;
      var st1 := if a[0] in st.objs then st.(irqs := ZeroLoads(st.irqs, EachIrq(cfg, st.objs[a[0]].interrupts))) else st;
      ClearStatsAppend(cfg, st1, a[1..], b);
    }
  }

  lemma WipedBoth(cfg: Config, st: State, st1: State, st2: State, walk1: seq<TopoObj>, walk2: seq<TopoObj>)
    requires Wiped(cfg, st, st1, walk1) && Wiped(cfg, st1, st2, walk2)
    ensures Wiped(cfg, st, st2, walk1 + walk2)
  {
    ClearStatsAppend(cfg, st, walk1, walk2);
  }

  lemma WipedNone(cfg: Config, st: State, levels: nat)
    ensures Wiped(cfg, st, st, PostOrder(cfg, [], levels))
  {
  }

  lemma WipedOne(cfg: Config, st: State, st': State, d: TopoObj)
    requires d in st.objs && st' == st.(irqs := ZeroLoads(st.irqs, EachIrq(cfg, st.objs[d].interrupts)))
    ensures Wiped(cfg, st, st', [d])
  {
    hide EachIrq, ZeroLoads;
    assert ClearStats(cfg, st, [d]) == ClearStats(cfg, st', []);
  }

  lemma WipedValid(g: Globals, cfg: Config, st: State, walk: seq<TopoObj>)
    requires Ready(cfg, st) && g.Cfg() == cfg && Wiped(cfg, st, g.St(), walk)
    ensures g.Valid()
  {
    hide Ready;
    TreeOnly(g, cfg, st);
  }

  /** clear_obj_stats */
  method ClearObjStats(g: Globals, d: TopoObj, ghost levels: nat)
    requires g.Valid() && levels > 0 && OfLevel(g, [d], levels)
    modifies g.irqs`load
    ensures g.Cfg() == old(g.Cfg()) && g.Valid()
    ensures Wiped(g.Cfg(), old(g.St()), g.St(), PostOrder(g.Cfg(), Children(g.Cfg(), d), levels - 1) + [d])
    decreases levels, 0
  {
    hide Ready, Wiped, PostOrder, Globals.St, Globals.Cfg, ZeroLoads, EachIrq;
    ghost var cfg, st := g.Cfg(), g.St();
    assert d in [d];
    ChildrenOfLevel(g, d, levels);
    ClearAllStats(g, d.children, levels - 1);
    ghost var st1 := g.St();
    PlacementCode.ListThere(g, d);
    DbThere(g);
    ClearIrqStats(g, d.interrupts);
    WipedOne(cfg, st1, g.St(), d);
    WipedBoth(cfg, st, st1, g.St(), PostOrder(cfg, d.children, levels - 1), [d]);
    WipedValid(g, cfg, st, PostOrder(cfg, Children(cfg, d), levels - 1) + [d]);
  }

  /** for_each_object with clear_obj_stats */
  method ClearAllStats(g: Globals, ds: seq<TopoObj>, ghost levels: nat)
    requires g.Valid() && OfLevel(g, ds, levels)
    modifies g.irqs`load
    ensures g.Cfg() == old(g.Cfg()) && g.Valid()
    ensures Wiped(g.Cfg(), old(g.St()), g.St(), PostOrder(g.Cfg(), ds, levels))
    decreases levels, 1
  {
    hide Ready, Wiped, PostOrder, Globals.St, Globals.Cfg, OfLevel;
    ghost var cfg, st := g.Cfg(), g.St();
    var i := 0;
    WipedNone(cfg, st, levels);
    assert ds[..0] == [];
    while i < |ds|
      invariant i <= |ds|
      invariant g.Valid() && g.Cfg() == cfg && OfLevel(g, ds, levels)
      invariant Wiped(cfg, st, g.St(), PostOrder(cfg, ds[..i], levels))
    {
      ghost var st1 := g.St();
      OneOfLevel(g, ds, i, levels);
      ClearObjStats(g, ds[i], levels);
      WipedBoth(cfg, st, st1, g.St(), PostOrder(cfg, ds[..i], levels), PostOrder(cfg, Children(cfg, ds[i]), levels - 1) + [ds[i]]);
      WalkNext(cfg, ds, i, levels);
      i := i + 1;
    }
    assert ds[..i] == ds;
  }

  lemma WipedIsClear(cfg: Config, st: State, st': State)
    requires Wiped(cfg, st, st', PostOrder(cfg, cfg.nodes, LEVELS))
    ensures st' == ClearWork(cfg, st)
  {
  }

  /** clear_work_stats */
  method ClearWorkStats(g: Globals)
    requires g.Valid()
    modifies g.irqs`load
    ensures g.St() == ClearWork(g.Cfg(), old(g.St())) && g.Cfg() == old(g.Cfg()) && g.Valid()
  {
    hide *;
    ghost var st := g.St();
    LayersThere(g);
    LayerFields(g);
    ClearAllStats(g, g.nodes, LEVELS);
    WipedIsClear(g.Cfg(), st, g.St());
  }

  // ---- reading /proc ----

  ghost function CountLine(irqs: map<IrqInfo, IrqState>, line: Line): map<IrqInfo, IrqState>
    requires line.info != null
  {
    if line.info in irqs then irqs[line.info := irqs[line.info].(lastIrqCount := irqs[line.info].irqCount, irqCount := line.count)] else irqs
  }

  lemma CountsNext(irqs: map<IrqInfo, IrqState>, lines: seq<Line>, i: nat)
    requires i < |lines|
    ensures Upsets(irqs, lines[i]) ==> ReadCounts(irqs, lines[i..]) == (irqs, true)
    ensures !Upsets(irqs, lines[i]) ==> ReadCounts(irqs, lines[i..]) == ReadCounts(CountLine(irqs, lines[i]), lines[i + 1..])
  {
    assert lines[i..][0] == lines[i] && lines[i..][1..] == lines[i + 1..];
  }

  lemma CountsEnd(irqs: map<IrqInfo, IrqState>, lines: seq<Line>)
    ensures ReadCounts(irqs, lines[|lines|..]) == (irqs, false)
  {
  }

  /** parse_proc_interrupts, after a line's number and counts have been read */
  method ParseProcInterrupts(g: Globals, lines: seq<Line>) returns (needRescan: bool)
    requires forall i | 0 <= i < |lines| && lines[i].info != null :: lines[i].info in g.irqs
    modifies g.irqs`irqCount, g.irqs`lastIrqCount
    ensures needRescan == ReadCounts(old(g.St().irqs), lines).1
    ensures g.St() == old(g.St()).(irqs := ReadCounts(old(g.St().irqs), lines).0) && g.Cfg() == old(g.Cfg())
  {
    hide Globals.St, Globals.Cfg, ReadCounts;
    ghost var cfg, st := g.Cfg(), g.St();
    var i := 0;
    while i < |lines|
      invariant i <= |lines| && g.Cfg() == cfg
      invariant ReadCounts(g.St().irqs, lines[i..]) == ReadCounts(st.irqs, lines)
      invariant g.St() == st.(irqs := g.St().irqs)
    {
      ghost var irqs1 := g.St().irqs;
      CountsNext(irqs1, lines, i);
      var info := lines[i].info;
      if info == null {
        return true;
      }
      PlacementCode.IrqThere(g, info);
      if !lines[i].columns {
        return true;
      }
      if lines[i].count < info.irqCount {
        return true;
      }
      SetCountsOf(g, info, info.irqCount, lines[i].count);
      i := i + 1;
    }
    CountsEnd(g.St().irqs, lines);
    return false;
  }

  /** The loads of the CPUs before index i are set. */
  function SomeLoads(objs: map<TopoObj, ObjState>, loads: map<TopoObj, U64>, cpus: seq<TopoObj>): map<TopoObj, ObjState> {
    map o | o in objs :: if o in loads && o in cpus then objs[o].(load := loads[o]) else objs[o]
  }

  lemma SomeLoadsNext(objs: map<TopoObj, ObjState>, loads: map<TopoObj, U64>, cpus: seq<TopoObj>, i: nat)
    requires i < |cpus| && cpus[i] in objs
    ensures SomeLoads(objs, loads, cpus[..i + 1]) ==
      if cpus[i] in loads
      then SomeLoads(objs, loads, cpus[..i])[cpus[i] := SomeLoads(objs, loads, cpus[..i])[cpus[i]].(load := loads[cpus[i]])]
      else SomeLoads(objs, loads, cpus[..i])
  {
    assert cpus[..i + 1] == cpus[..i] + [cpus[i]];
  }

  lemma EveryCpuLoad(cfg: Config, objs: map<TopoObj, ObjState>, loads: map<TopoObj, U64>)
    requires TreeOk(cfg, objs.Keys)
    ensures SomeLoads(objs, loads, cfg.cpus) == WithLoads(objs, loads)
  {
    hide TreeOk;
    CpuLayer(cfg, objs.Keys);
  }

  lemma CpuLayer(cfg: Config, objs: set<TopoObj>)
    requires TreeOk(cfg, objs)
    ensures forall o | o in objs :: o in cfg.cpus <==> o.kind == ObjCpu
  {
    hide LinksOk, MasksOk;
    LayerKnown(cfg, objs, ObjCpu);
    assert cfg.cpus == Layer(cfg, ObjCpu);
    forall o | o in objs && o.kind == ObjCpu
      ensures o in cfg.cpus
    {
      assert o in Layer(cfg, o.kind);
    }
  }

  lemma NoLoadsYet(objs: map<TopoObj, ObjState>, loads: map<TopoObj, U64>)
    ensures SomeLoads(objs, loads, []) == objs
  {
  }

  /** The CPU loads read by parse_proc_stat */
  method SetCpuLoads(g: Globals, loads: map<TopoObj, U64>)
    requires forall d | d in g.cpus :: d in g.objs
    modifies g.objs`load
    ensures g.St() == old(g.St()).(objs := SomeLoads(old(g.St().objs), loads, g.cpus)) && g.Cfg() == old(g.Cfg())
  {
    hide Globals.St, Globals.Cfg, SomeLoads;
    ghost var cfg, st := g.Cfg(), g.St();
    NoLoadsYet(st.objs, loads);
    assert g.cpus[..0] == [];
    var i := 0;
    while i < |g.cpus|
      invariant i <= |g.cpus| && g.Cfg() == cfg
      invariant g.St() == st.(objs := SomeLoads(st.objs, loads, g.cpus[..i]))
    {
      assert g.cpus[i] in g.cpus;
      SomeLoadsNext(st.objs, loads, g.cpus, i);
      if g.cpus[i] in loads {
        SetObjLoad(g, g.cpus[i], loads[g.cpus[i]]);
      }
      i := i + 1;
    }
    assert g.cpus[..i] == g.cpus;
  }

  lemma CpuLoadsValid(g: Globals, cfg: Config, st: State, loads: map<TopoObj, U64>)
    requires Ready(cfg, st) && g.Cfg() == cfg && g.St() == st.(objs := WithLoads(st.objs, loads))
    ensures g.Valid()
  {
    hide Ready;
    TreeOnly(g, cfg, st);
  }

  lemma ReadLoadsIs(cfg: Config, st: State, r: Reading, st1: State)
    requires TreeOk(cfg, st.objs.Keys) && st1 == st.(objs := WithLoads(st.objs, r.cpuLoads))
    ensures TreeOk(cfg, st1.objs.Keys)
    ensures ReadLoads(cfg, st, r) == if r.complete then Propagate(cfg, st1) else st1
  {
    hide TreeOk, Propagate;
  }

  /** parse_proc_stat */
  method ParseProcStat(g: Globals, r: Reading)
    requires g.Valid()
    modifies g.objs`load, g.objs`irqCount, g.irqs`load
    ensures g.Cfg() == old(g.Cfg()) && g.Valid() && TreeOk(g.Cfg(), old(g.St().objs.Keys))
    ensures g.St() == ReadLoads(g.Cfg(), old(g.St()), r)
  {
    hide *;
    ghost var cfg, st := g.Cfg(), g.St();
    TreeStays(g);
    LayersThere(g);
    LayerFields(g);
    ValidMeans(g);
    EveryCpuLoad(cfg, st.objs, r.cpuLoads);
    SetCpuLoads(g, r.cpuLoads);
    CpuLoadsValid(g, cfg, st, r.cpuLoads);
    ReadLoadsIs(cfg, st, r, g.St());
    if r.complete {
      PropagateLoads(g);
    }
  }

  lemma MeasuringIs(cfg: Config, st: State, r: Reading, st1: State, st2: State)
    requires TreeOk(cfg, st.objs.Keys) && st1 == ClearWork(cfg, st) && st2 == st1.(irqs := ReadCounts(st1.irqs, r.lines).0)
    ensures TreeOk(cfg, st2.objs.Keys) && Measuring(cfg, st, r) == ReadLoads(cfg, st2, r)
  {
    hide TreeOk, ReadLoads, ClearWork;
  }

  lemma CountsValid(g: Globals, cfg: Config, st: State, lines: seq<Line>)
    requires Ready(cfg, st) && g.Cfg() == cfg && g.St() == st.(irqs := ReadCounts(st.irqs, lines).0)
    ensures g.Valid()
  {
    hide Ready;
    IrqLoadsValid(g, cfg, st);
  }

  /** clear_work_stats, parse_proc_interrupts and parse_proc_stat, as in a turn of the main loop */
  method MeasureAll(g: Globals, r: Reading) returns (needRescan: bool)
    requires g.Valid() && forall i | 0 <= i < |r.lines| && r.lines[i].info != null :: r.lines[i].info in g.irqs
    modifies g.objs`load, g.objs`irqCount, g.irqs`load, g.irqs`irqCount, g.irqs`lastIrqCount
    ensures g.Cfg() == old(g.Cfg()) && g.Valid() && TreeOk(g.Cfg(), old(g.St().objs.Keys))
    ensures g.St() == Measuring(g.Cfg(), old(g.St()), r)
    ensures needRescan == ReadCounts(ClearWork(g.Cfg(), old(g.St())).irqs, r.lines).1
  {
    hide *;
    ghost var cfg, st := g.Cfg(), g.St();
    TreeStays(g);
    ClearWorkStats(g);
    ghost var st1 := g.St();
    ValidMeans(g);
    needRescan := ParseProcInterrupts(g, r.lines);
    CountsValid(g, cfg, st1, r.lines);
    MeasuringIs(cfg, st, r, st1, g.St());
    ParseProcStat(g, r);
  }
}
