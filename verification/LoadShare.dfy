/** procinterrupts.c: measuring loads on the tree and attributing them to IRQs. */
module LoadShare {
  import opened Irqs
  import opened Tree

  // ---- walking the tree ----

  function Children(cfg: Config, d: TopoObj): seq<TopoObj> {
    if d in cfg.children then cfg.children[d] else []
  }

  /** The order in which the recursive callbacks finish with objects: children
      before parents.  `levels` bounds the depth. */
  function PostOrder(cfg: Config, ds: seq<TopoObj>, levels: nat): seq<TopoObj>
    decreases levels, |ds|
  {
    if ds == [] || levels == 0 then []
    else PostOrder(cfg, Children(cfg, ds[0]), levels - 1) + [ds[0]] + PostOrder(cfg, ds[1..], levels)
  }

  const LEVELS: nat := 4

  /** Every object, children first, as walked from the nodes. */
  function Walk(cfg: Config): seq<TopoObj> {
    PostOrder(cfg, cfg.nodes, LEVELS)
  }

  // ---- sums ----

  function PlainSum(objs: map<TopoObj, ObjState>, ds: seq<TopoObj>): nat {
    if ds == [] then 0
    else (if ds[0] in objs then objs[ds[0]].load else 0) + PlainSum(objs, ds[1..])
  }

  /** accumulate_load over a list: the sum in 64 bits. */
  function LoadSum(objs: map<TopoObj, ObjState>, ds: seq<TopoObj>): U64 {
    PlainSum(objs, ds) % TWO64
  }

  function CountSum(objs: map<TopoObj, ObjState>, ds: seq<TopoObj>): nat {
    if ds == [] then 0
    else (if ds[0] in objs then objs[ds[0]].irqCount else 0) + CountSum(objs, ds[1..])
  }

  /** Interrupts since the last reading. */
  function Delta(q: IrqState): nat {
    Sub64(q.irqCount, q.lastIrqCount)
  }

  function DeltaSum(irqs: map<IrqInfo, IrqState>, qs: seq<IrqInfo>): nat {
    if qs == [] then 0
    else (if qs[0] in irqs then Delta(irqs[qs[0]]) else 0) + DeltaSum(irqs, qs[1..])
  }

  // ---- set_load and accumulate_interrupts ----

  function SetLoadOf(objs: map<TopoObj, ObjState>, d: TopoObj, load: U64): map<TopoObj, ObjState> {
    if d in objs then objs[d := objs[d].(load := load)] else objs
  }

  /** set_load on one object, its children being done. */
  function SumLoad(cfg: Config, objs: map<TopoObj, ObjState>, d: TopoObj): map<TopoObj, ObjState> {
    if Children(cfg, d) == [] then objs else SetLoadOf(objs, d, LoadSum(objs, Children(cfg, d)))
  }

  function SumLoads(cfg: Config, objs: map<TopoObj, ObjState>, ds: seq<TopoObj>): (r: map<TopoObj, ObjState>)
    ensures r.Keys == objs.Keys
    decreases |ds|
  {
    if ds == [] then objs else SumLoads(cfg, SumLoad(cfg, objs, ds[0]), ds[1..])
  }

  function SetCount(st: State, d: TopoObj): State {
    if d in st.objs then st.(objs := st.objs[d := st.objs[d].(irqCount := DeltaSum(st.irqs, st.objs[d].interrupts))]) else st
  }

  function SetCounts(st: State, ds: seq<TopoObj>): (r: State)
    ensures r.objs.Keys == st.objs.Keys && r.irqs == st.irqs && r.rebalance == st.rebalance
    decreases |ds|
  {
    if ds == [] then st else SetCounts(SetCount(st, ds[0]), ds[1..])
  }

  // ---- shares ----

  /** get_parent_branch_irq_count_share: an object's own interrupts and its equal
      part of what its parent shares out. */
  ghost function ParentShare(cfg: Config, objs: map<TopoObj, ObjState>, d: TopoObj): nat
    requires Parents(cfg, objs.Keys) && d in objs
    decreases d.kind.Depth()
  {
    var p := cfg.parent[d];
    if p == null then objs[d].irqCount
    else EqualPart(ParentShare(cfg, objs, p), |cfg.children[p]|) + objs[d].irqCount
  }

  function EqualPart(total: nat, parts: nat): nat
    requires parts > 0
  {
    total / parts
  }

  /** Parents are above their children. */
  ghost predicate Parents(cfg: Config, objs: set<TopoObj>) {
    && (forall o | o in objs :: o in cfg.parent)
    && forall o | o in objs && cfg.parent[o] != null ::
         var p := cfg.parent[o];
         && p in objs && p in cfg.children && |cfg.children[p]| > 0 && p.kind.Depth() < o.kind.Depth()
  }

  lemma TreeParents(cfg: Config, objs: set<TopoObj>)
    requires TreeOk(cfg, objs)
    ensures Parents(cfg, objs)
  {
    KeysOfTree(cfg, objs);
    forall o | o in objs && cfg.parent[o] != null
      ensures var p := cfg.parent[o]; p in objs && p in cfg.children && |cfg.children[p]| > 0 && p.kind.Depth() < o.kind.Depth()
    {
      ParentAbove(cfg, objs, o);
    }
  }

  lemma ParentAbove(cfg: Config, objs: set<TopoObj>, d: TopoObj)
    requires TreeOk(cfg, objs) && d in objs && cfg.parent[d] != null
    ensures cfg.parent[d] in objs && d in cfg.children[cfg.parent[d]] && |cfg.children[cfg.parent[d]]| > 0
    ensures cfg.parent[d].kind.Depth() + 1 == d.kind.Depth()
  {
    ChildrenKnown(cfg, objs, cfg.parent[d]);
  }

  /** The interrupts compute_irq_branch_load_share divides an object's load among. */
  ghost function LocalCount(cfg: Config, objs: map<TopoObj, ObjState>, d: TopoObj): nat
    requires TreeOk(cfg, objs.Keys) && d in objs
  {
    TreeParents(cfg, objs.Keys);
    ParentShare(cfg, objs, d) + CountSum(objs, PostOrder(cfg, Children(cfg, d), LEVELS))
  }

  function Slice(load: nat, count: nat): nat {
    if count == 0 then 1 else load / count
  }

  /** assign_load_slice */
  function SlicedLoad(q: IrqState, slice: nat): U64 {
    var load := (Delta(q) * slice) % TWO64;
    if load == 0 then 1 else load
  }

  function AssignSlice(irqs: map<IrqInfo, IrqState>, q: IrqInfo, slice: nat): map<IrqInfo, IrqState> {
    if q in irqs then irqs[q := irqs[q].(load := SlicedLoad(irqs[q], slice))] else irqs
  }

  function AssignSlices(irqs: map<IrqInfo, IrqState>, qs: seq<IrqInfo>, slice: nat): (r: map<IrqInfo, IrqState>)
    ensures r.Keys == irqs.Keys
    decreases |qs|
  {
    if qs == [] then irqs else AssignSlices(AssignSlice(irqs, qs[0], slice), qs[1..], slice)
  }

  /** compute_irq_branch_load_share */
  ghost function Attribute(cfg: Config, st: State, d: TopoObj): State
    requires TreeOk(cfg, st.objs.Keys) && d in st.objs
  {
    st.(irqs := AssignSlices(st.irqs, st.objs[d].interrupts, Slice(st.objs[d].load, LocalCount(cfg, st.objs, d))))
  }

  ghost function AttributeAll(cfg: Config, st: State, ds: seq<TopoObj>): (r: State)
    requires TreeOk(cfg, st.objs.Keys) && forall d | d in ds :: d in st.objs
    ensures r.objs == st.objs && r.irqs.Keys == st.irqs.Keys && r.rebalance == st.rebalance
    decreases |ds|
  {
    if ds == [] then st else AttributeAll(cfg, Attribute(cfg, st, ds[0]), ds[1..])
  }

  function Layers(cfg: Config): seq<TopoObj> {
    cfg.cpus + cfg.caches + cfg.packages + cfg.nodes
  }

  /** The end of parse_proc_stat, once every CPU's load is known. */
  ghost function Propagate(cfg: Config, st: State): (r: State)
    requires TreeOk(cfg, st.objs.Keys)
    ensures r.objs.Keys == st.objs.Keys && r.irqs.Keys == st.irqs.Keys && r.rebalance == st.rebalance
  {
    var st1 := st.(objs := SumLoads(cfg, st.objs, Walk(cfg)));
    var st2 := SetCounts(st1, Walk(cfg));
    LayersKnown(cfg, st.objs.Keys);
    AttributeAll(cfg, st2, Layers(cfg))
  }

  lemma LayersKnown(cfg: Config, objs: set<TopoObj>)
    requires TreeOk(cfg, objs)
    ensures forall d | d in Layers(cfg) :: d in objs
    ensures forall o | o in objs :: o in Layers(cfg)
  {
    LayerKnown(cfg, objs, ObjCpu);
    LayerKnown(cfg, objs, ObjCache);
    LayerKnown(cfg, objs, ObjPackage);
    LayerKnown(cfg, objs, ObjNode);
    forall o | o in objs
      ensures o in Layers(cfg)
    {
      assert o in Layer(cfg, o.kind);
    }
  }

  // ---- every object is visited ----

  lemma {:induction false} PostOrderIncludes(cfg: Config, ds: seq<TopoObj>, levels: nat)
    requires levels > 0
    ensures forall d | d in ds :: d in PostOrder(cfg, ds, levels)
    decreases |ds|
  {
    if ds != [] {
      PostOrderIncludes(cfg, ds[1..], levels);
    }
  }

  lemma {:induction false} PostOrderDescends(cfg: Config, ds: seq<TopoObj>, levels: nat, d: TopoObj, c: TopoObj)
    requires d in PostOrder(cfg, ds, levels) && c in Children(cfg, d)
    requires forall e | e in ds :: e.kind.Depth() + levels == LEVELS
    requires forall e | e in cfg.children :: forall x | x in cfg.children[e] :: x.kind.Depth() == e.kind.Depth() + 1
    ensures c in PostOrder(cfg, ds, levels)
    decreases levels, |ds|
  {
    if ds != [] && levels > 0 {
      var below := Children(cfg, ds[0]);
      if d in PostOrder(cfg, below, levels - 1) {
        PostOrderDescends(cfg, below, levels - 1, d, c);
      } else if d == ds[0] {
        assert c in below && c.kind.Depth() + (levels - 1) == LEVELS;
        PostOrderIncludes(cfg, below, levels - 1);
      } else {
        PostOrderDescends(cfg, ds[1..], levels, d, c);
      }
    }
  }

  lemma ChildDepths(cfg: Config, objs: set<TopoObj>)
    requires TreeOk(cfg, objs)
    ensures forall e | e in cfg.children :: forall x | x in cfg.children[e] :: x in objs && x.kind.Depth() == e.kind.Depth() + 1
  {
    forall e, x | e in cfg.children && x in cfg.children[e]
      ensures x in objs && x.kind.Depth() == e.kind.Depth() + 1
    {
      ChildrenKnown(cfg, objs, e);
    }
  }

  /** The walk from the nodes reaches every object of the tree. */
  lemma {:induction false} WalkReaches(cfg: Config, objs: set<TopoObj>, o: TopoObj)
    requires TreeOk(cfg, objs) && o in objs
    ensures o in Walk(cfg)
    decreases o.kind.Depth()
  {
    LayerKnown(cfg, objs, ObjNode);
    if o.kind == ObjNode {
      assert o in Layer(cfg, o.kind);
      PostOrderIncludes(cfg, cfg.nodes, LEVELS);
    } else {
      ParentAbove(cfg, objs, o);
      WalkReaches(cfg, objs, cfg.parent[o]);
      ChildDepths(cfg, objs);
      PostOrderDescends(cfg, cfg.nodes, LEVELS, cfg.parent[o], o);
    }
  }

  lemma {:induction false} PostOrderKnown(cfg: Config, objs: set<TopoObj>, ds: seq<TopoObj>, levels: nat)
    requires TreeOk(cfg, objs) && forall d | d in ds :: d in objs
    ensures forall d | d in PostOrder(cfg, ds, levels) :: d in objs
    decreases levels, |ds|
  {
    hide TreeOk;
    if ds != [] && levels > 0 {
      ChildDepths(cfg, objs);
      PostOrderKnown(cfg, objs, Children(cfg, ds[0]), levels - 1);
      PostOrderKnown(cfg, objs, ds[1..], levels);
    }
  }

  // ---- set_load: loads add up from the leaves ----

  /** The load of the childless objects at and below an object. */
  ghost function LeafLoad(cfg: Config, objs: map<TopoObj, ObjState>, d: TopoObj): nat
    requires TreeOk(cfg, objs.Keys) && d in objs
    decreases 2 * (LEVELS - d.kind.Depth()) + 1, 0
  {
    ChildrenKnown(cfg, objs.Keys, d);
    KeysOfTree(cfg, objs.Keys);
    if cfg.children[d] == [] then objs[d].load else LeafLoads(cfg, objs, cfg.children[d], d.kind.Depth() + 1)
  }

  ghost function LeafLoads(cfg: Config, objs: map<TopoObj, ObjState>, ds: seq<TopoObj>, depth: nat): nat
    requires TreeOk(cfg, objs.Keys) && forall d | d in ds :: d in objs && d.kind.Depth() == depth
    decreases if depth < LEVELS then 2 * (LEVELS - depth) + 2 else 0, |ds|
  {
    if ds == [] then 0 else LeafLoad(cfg, objs, ds[0]) + LeafLoads(cfg, objs, ds[1..], depth)
  }

  lemma KeysOfTree(cfg: Config, objs: set<TopoObj>)
    requires TreeOk(cfg, objs)
    ensures cfg.children.Keys == objs && cfg.parent.Keys == objs
  {
  }

  ghost predicate SameLeaves(cfg: Config, objs: map<TopoObj, ObjState>, objs': map<TopoObj, ObjState>) {
    && objs'.Keys == objs.Keys
    && forall o | o in objs && Children(cfg, o) == [] :: objs'[o].load == objs[o].load
  }

  lemma {:induction false} LeavesDecide(cfg: Config, objs: map<TopoObj, ObjState>, objs': map<TopoObj, ObjState>, d: TopoObj)
    requires TreeOk(cfg, objs.Keys) && SameLeaves(cfg, objs, objs') && d in objs
    ensures LeafLoad(cfg, objs', d) == LeafLoad(cfg, objs, d)
    decreases 2 * (LEVELS - d.kind.Depth()) + 1, 0
  {
    hide TreeOk;
    ChildrenKnown(cfg, objs.Keys, d);
    KeysOfTree(cfg, objs.Keys);
    if cfg.children[d] != [] {
      LeavesDecideAll(cfg, objs, objs', cfg.children[d], d.kind.Depth() + 1);
    }
  }

  lemma {:induction false} LeavesDecideAll(cfg: Config, objs: map<TopoObj, ObjState>, objs': map<TopoObj, ObjState>, ds: seq<TopoObj>, depth: nat)
    requires TreeOk(cfg, objs.Keys) && SameLeaves(cfg, objs, objs') && forall d | d in ds :: d in objs && d.kind.Depth() == depth
    ensures LeafLoads(cfg, objs', ds, depth) == LeafLoads(cfg, objs, ds, depth)
    decreases if depth < LEVELS then 2 * (LEVELS - depth) + 2 else 0, |ds|
  {
    hide TreeOk;
    if ds != [] {
      LeavesDecide(cfg, objs, objs', ds[0]);
      LeavesDecideAll(cfg, objs, objs', ds[1..], depth);
    }
  }

  /** This object carries the load of its leaves, in 64 bits. */
  ghost predicate Right(cfg: Config, objs0: map<TopoObj, ObjState>, objs: map<TopoObj, ObjState>, d: TopoObj)
    requires TreeOk(cfg, objs0.Keys) && d in objs0 && d in objs
  {
    objs[d].load == LeafLoad(cfg, objs0, d) % TWO64
  }

  lemma {:induction false} SumOfRight(cfg: Config, objs0: map<TopoObj, ObjState>, objs: map<TopoObj, ObjState>, ds: seq<TopoObj>, depth: nat)
    requires TreeOk(cfg, objs0.Keys) && (forall d | d in ds :: d in objs0 && d.kind.Depth() == depth) && objs.Keys == objs0.Keys
    requires forall d | d in ds :: Right(cfg, objs0, objs, d)
    ensures LoadSum(objs, ds) == LeafLoads(cfg, objs0, ds, depth) % TWO64
  {
    hide *;
    if ds == [] {
      NoLeaves(cfg, objs0, objs, depth);
      return;
    }
    SumOfRight(cfg, objs0, objs, ds[1..], depth);
    LeafFirst(cfg, objs0, ds, depth);
    RightMeans(cfg, objs0, objs, ds[0]);
    PlainRest(objs, ds);
    var first, rest := LeafLoad(cfg, objs0, ds[0]), LeafLoads(cfg, objs0, ds[1..], depth);
    ModOfSum(objs[ds[0]].load, PlainSum(objs, ds[1..]));
    AddMods(first, rest);
  }

  lemma NoLeaves(cfg: Config, objs0: map<TopoObj, ObjState>, objs: map<TopoObj, ObjState>, depth: nat)
    requires TreeOk(cfg, objs0.Keys)
    ensures LoadSum(objs, []) == LeafLoads(cfg, objs0, [], depth) % TWO64
  {
    hide TreeOk;
  }

  lemma LeafFirst(cfg: Config, objs: map<TopoObj, ObjState>, ds: seq<TopoObj>, depth: nat)
    requires TreeOk(cfg, objs.Keys) && ds != [] && forall d | d in ds :: d in objs && d.kind.Depth() == depth
    ensures LeafLoads(cfg, objs, ds, depth) == LeafLoad(cfg, objs, ds[0]) + LeafLoads(cfg, objs, ds[1..], depth)
  {
    hide TreeOk, LeafLoad;
  }

  lemma RightMeans(cfg: Config, objs0: map<TopoObj, ObjState>, objs: map<TopoObj, ObjState>, d: TopoObj)
    requires TreeOk(cfg, objs0.Keys) && d in objs0 && d in objs && Right(cfg, objs0, objs, d)
    ensures objs[d].load == LeafLoad(cfg, objs0, d) % TWO64
  {
    hide TreeOk, LeafLoad;
  }

  lemma PlainRest(objs: map<TopoObj, ObjState>, ds: seq<TopoObj>)
    requires ds != [] && ds[0] in objs
    ensures PlainSum(objs, ds) == objs[ds[0]].load + PlainSum(objs, ds[1..])
    ensures LoadSum(objs, ds) == PlainSum(objs, ds) % TWO64 && LoadSum(objs, ds[1..]) == PlainSum(objs, ds[1..]) % TWO64
  {
  }

  lemma ModOfSum(a: U64, b: nat)
    ensures (a + b) % TWO64 == Add64(a, b % TWO64)
  {
    AddMod(b, a);
  }

  /** set_load on an object whose children are right makes it right, and changes nothing else. */
  lemma SumLoadRight(cfg: Config, objs0: map<TopoObj, ObjState>, objs: map<TopoObj, ObjState>, d: TopoObj)
    requires TreeOk(cfg, objs0.Keys) && SameLeaves(cfg, objs0, objs) && d in objs0
    requires forall c | c in Children(cfg, d) :: c in objs0 && Right(cfg, objs0, objs, c)
    ensures var r := SumLoad(cfg, objs, d);
      && SameLeaves(cfg, objs0, r) && Right(cfg, objs0, r, d)
      && forall o | o in objs && o != d :: r[o] == objs[o]
    ensures var r := SumLoad(cfg, objs, d); forall o | o in objs :: r[o] == objs[o].(load := r[o].load)
  {
    hide TreeOk;
    ChildrenKnown(cfg, objs0.Keys, d);
    KeysOfTree(cfg, objs0.Keys);
    if cfg.children[d] != [] {
      SumOfRight(cfg, objs0, objs, cfg.children[d], d.kind.Depth() + 1);
    }
  }

  lemma {:induction false} SumLoadsAppend(cfg: Config, objs: map<TopoObj, ObjState>, a: seq<TopoObj>, b: seq<TopoObj>)
    ensures SumLoads(cfg, objs, a + b) == SumLoads(cfg, SumLoads(cfg, objs, a), b)
    decreases |a|
  {
    if a == [] {
      assert a + b == b;
    } else {
      assert (a + b)[0] == a[0] && (a + b)[1..] == a[1..] + b;
      SumLoadsAppend(cfg, SumLoad(cfg, objs, a[0]), a[1..], b);
    }
  }

  /** What walking below ds has achieved: the walked objects are right, and the
      objects not walked are unchanged. */
  ghost predicate Walked(cfg: Config, objs0: map<TopoObj, ObjState>, objs: map<TopoObj, ObjState>, r: map<TopoObj, ObjState>, walk: seq<TopoObj>)
    requires TreeOk(cfg, objs0.Keys) && (forall d | d in walk :: d in objs0) && SameLeaves(cfg, objs0, objs)
  {
    && SameLeaves(cfg, objs0, r)
    && (forall d | d in walk :: Right(cfg, objs0, r, d))
    && (forall o | o in objs && o !in walk :: r[o] == objs[o])
    && (forall o | o in objs :: r[o] == objs[o].(load := r[o].load))
    && (forall o | o in objs && Right(cfg, objs0, objs, o) :: Right(cfg, objs0, r, o))
  }

  lemma WalkedBoth(cfg: Config, objs0: map<TopoObj, ObjState>, a: map<TopoObj, ObjState>, b: map<TopoObj, ObjState>, c: map<TopoObj, ObjState>,
                   walk1: seq<TopoObj>, walk2: seq<TopoObj>)
    requires TreeOk(cfg, objs0.Keys) && (forall d | d in walk1 :: d in objs0) && (forall d | d in walk2 :: d in objs0)
    requires SameLeaves(cfg, objs0, a) && Walked(cfg, objs0, a, b, walk1) && Walked(cfg, objs0, b, c, walk2)
    ensures forall d | d in walk1 + walk2 :: d in objs0
    ensures Walked(cfg, objs0, a, c, walk1 + walk2)
  {
    hide TreeOk;
    assert forall d :: d in walk1 + walk2 <==> d in walk1 || d in walk2;
  }

  lemma OneWalked(cfg: Config, objs0: map<TopoObj, ObjState>, objs: map<TopoObj, ObjState>, d: TopoObj)
    requires TreeOk(cfg, objs0.Keys) && SameLeaves(cfg, objs0, objs) && d in objs0
    requires forall c | c in Children(cfg, d) :: c in objs0 && Right(cfg, objs0, objs, c)
    ensures Walked(cfg, objs0, objs, SumLoads(cfg, objs, [d]), [d])
  {
    hide TreeOk, SumLoad, Right, SameLeaves;
    SumLoadRight(cfg, objs0, objs, d);
    var r := SumLoad(cfg, objs, d);
    assert SumLoads(cfg, objs, [d]) == SumLoads(cfg, r, []);
    LeavesKeys(cfg, objs0, objs);
    LeavesKeys(cfg, objs0, r);
    OthersRight(cfg, objs0, objs, r, d);
  }

  lemma LeavesKeys(cfg: Config, objs: map<TopoObj, ObjState>, objs': map<TopoObj, ObjState>)
    requires SameLeaves(cfg, objs, objs')
    ensures objs'.Keys == objs.Keys
  {
  }

  lemma OthersRight(cfg: Config, objs0: map<TopoObj, ObjState>, objs: map<TopoObj, ObjState>, r: map<TopoObj, ObjState>, d: TopoObj)
    requires TreeOk(cfg, objs0.Keys) && d in objs0 && objs.Keys == objs0.Keys && r.Keys == objs0.Keys && Right(cfg, objs0, r, d)
    requires forall o | o in objs && o != d :: r[o] == objs[o]
    ensures forall o | o in objs && Right(cfg, objs0, objs, o) :: Right(cfg, objs0, r, o)
  {
    hide TreeOk, LeafLoad;
  }

  lemma {:induction false} WalkLoads(cfg: Config, objs0: map<TopoObj, ObjState>, objs: map<TopoObj, ObjState>, ds: seq<TopoObj>, levels: nat)
    requires TreeOk(cfg, objs0.Keys) && SameLeaves(cfg, objs0, objs)
    requires forall d | d in ds :: d in objs0 && d.kind.Depth() + levels == LEVELS
    ensures forall d | d in PostOrder(cfg, ds, levels) :: d in objs0
    ensures Walked(cfg, objs0, objs, SumLoads(cfg, objs, PostOrder(cfg, ds, levels)), PostOrder(cfg, ds, levels))
    decreases levels, |ds|
  {
    hide TreeOk, Right, Walked, SumLoad, SameLeaves;
    if ds == [] || levels == 0 {
      NoneWalked(cfg, objs0, objs);
      return;
    }
    var d := ds[0];
    var cs := Children(cfg, d);
    ChildrenKnown(cfg, objs0.Keys, d);
    KeysOfTree(cfg, objs0.Keys);
    NoLeafAbove(cfg, objs0.Keys, d);
    var below, after := PostOrder(cfg, cs, levels - 1), PostOrder(cfg, ds[1..], levels);
    WalkLoads(cfg, objs0, objs, cs, levels - 1);
    var r1 := SumLoads(cfg, objs, below);
    ChildrenRight(cfg, objs0, objs, r1, cs, levels - 1);
    OneWalked(cfg, objs0, r1, d);
    var r2 := SumLoads(cfg, r1, [d]);
    WalkedLeaves(cfg, objs0, objs, r1, below);
    WalkedLeaves(cfg, objs0, r1, r2, [d]);
    WalkLoads(cfg, objs0, r2, ds[1..], levels);
    var r3 := SumLoads(cfg, r2, after);
    WalkedBoth(cfg, objs0, objs, r1, r2, below, [d]);
    WalkedBoth(cfg, objs0, objs, r2, r3, below + [d], after);
    SumLoadsAppend(cfg, objs, below, [d]);
    SumLoadsAppend(cfg, objs, below + [d], after);
  }

  lemma NoneWalked(cfg: Config, objs0: map<TopoObj, ObjState>, objs: map<TopoObj, ObjState>)
    requires TreeOk(cfg, objs0.Keys) && SameLeaves(cfg, objs0, objs)
    ensures Walked(cfg, objs0, objs, SumLoads(cfg, objs, []), [])
  {
    hide TreeOk;
  }

  lemma WalkedLeaves(cfg: Config, objs0: map<TopoObj, ObjState>, objs: map<TopoObj, ObjState>, r: map<TopoObj, ObjState>, walk: seq<TopoObj>)
    requires TreeOk(cfg, objs0.Keys) && (forall d | d in walk :: d in objs0) && SameLeaves(cfg, objs0, objs)
    requires Walked(cfg, objs0, objs, r, walk)
    ensures SameLeaves(cfg, objs0, r)
  {
  }

  lemma EmptyOrFirst(ds: seq<TopoObj>)
    ensures ds == [] || ds[0] in ds
  {
  }

  /** Objects at the last level have no children. */
  lemma NoLeafAbove(cfg: Config, objs: set<TopoObj>, d: TopoObj)
    requires TreeOk(cfg, objs) && d in objs
    ensures d.kind.Depth() == 3 ==> Children(cfg, d) == []
  {
    ChildrenKnown(cfg, objs, d);
    EmptyOrFirst(Children(cfg, d));
  }

  lemma ChildrenRight(cfg: Config, objs0: map<TopoObj, ObjState>, objs: map<TopoObj, ObjState>, r: map<TopoObj, ObjState>, cs: seq<TopoObj>, levels: nat)
    requires TreeOk(cfg, objs0.Keys) && SameLeaves(cfg, objs0, objs) && (levels == 0 ==> cs == [])
    requires forall d | d in PostOrder(cfg, cs, levels) :: d in objs0
    requires Walked(cfg, objs0, objs, r, PostOrder(cfg, cs, levels))
    ensures SameLeaves(cfg, objs0, r)
    ensures forall c | c in cs :: c in objs0 && Right(cfg, objs0, r, c)
  {
    hide TreeOk, Right;
    if levels > 0 {
      PostOrderIncludes(cfg, cs, levels);
    }
  }

  /** After set_load has walked the tree, every object carries exactly the load of the leaves below it, in 64 bits. */
  lemma LoadsAddUp(cfg: Config, objs: map<TopoObj, ObjState>, o: TopoObj)
    requires TreeOk(cfg, objs.Keys) && o in objs
    ensures var r := SumLoads(cfg, objs, Walk(cfg));
      && r[o].load == LeafLoad(cfg, objs, o) % TWO64
      && r[o] == objs[o].(load := r[o].load)
  {
    hide TreeOk;
    LayerKnown(cfg, objs.Keys, ObjNode);
    assert cfg.nodes == Layer(cfg, ObjNode);
    WalkLoads(cfg, objs, objs, cfg.nodes, LEVELS);
    WalkReaches(cfg, objs.Keys, o);
  }
}
