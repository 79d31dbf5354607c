/** placement.c: greedy placement of waiting IRQs, top down through the tree. */
module Placement {
  import opened MergeSort
  import opened Irqs
  import opened Ownership
  import opened Tree

  // ---- find_best_object ----

  /** The tests of `find_best_object` that do not depend on the state. */
  ghost predicate Suits(cfg: Config, info: IrqInfo, d: TopoObj) {
    && !(cfg.numaAvail && d.kind == ObjNode && d.number == -1)
    && !(d.kind == ObjNode && d.mask <= cfg.banned)
    && (info.hintPolicy == HintSubset && info.affinityHint != {} ==> info.affinityHint * d.mask != {})
  }

  ghost predicate Eligible(cfg: Config, st: State, info: IrqInfo, d: TopoObj)
    requires d in st.objs
  {
    Suits(cfg, info, d) && !st.objs[d].powersave
  }

  datatype Best = Best(obj: TopoObj?, cost: nat)

  /** One call of the `find_best_object` callback. */
  ghost function Consider(cfg: Config, st: State, info: IrqInfo, d: TopoObj, b: Best): Best
    requires d in st.objs && (b.obj != null ==> b.obj in st.objs)
  {
    if !Eligible(cfg, st, info, d) then b
    else if st.objs[d].load < b.cost then Best(d, st.objs[d].load)
    else if st.objs[d].load == b.cost && b.obj != null
            && |st.objs[d].interrupts| < |st.objs[b.obj].interrupts| then Best(d, b.cost)
    else b
  }

  ghost function BestOf(cfg: Config, st: State, info: IrqInfo, ds: seq<TopoObj>, b: Best): (r: Best)
    requires (forall d | d in ds :: d in st.objs) && (b.obj != null ==> b.obj in st.objs)
    ensures r.obj != null ==> r.obj in st.objs && (r.obj == b.obj || r.obj in ds)
    decreases |ds|
  {
    if ds == [] then b else BestOf(cfg, st, info, ds[1..], Consider(cfg, st, info, ds[0], b))
  }

  ghost function Choice(cfg: Config, st: State, info: IrqInfo, ds: seq<TopoObj>): (r: TopoObj?)
    requires forall d | d in ds :: d in st.objs
    ensures r != null ==> r in ds
  {
    BestOf(cfg, st, info, ds, Best(null, ULLONG_MAX)).obj
  }

  /** The one way the callback can fail: it reads the interrupts of the best object
      so far, when there is none, because an object's load equals the initial cost. */
  ghost predicate Dereferences(cfg: Config, st: State, info: IrqInfo, d: TopoObj, b: Best)
    requires d in st.objs
  {
    Eligible(cfg, st, info, d) && st.objs[d].load == b.cost && b.obj == null
  }

  /** The scan never reads through NULL. */
  ghost predicate ScanFrom(cfg: Config, st: State, info: IrqInfo, ds: seq<TopoObj>, b: Best)
    requires (forall d | d in ds :: d in st.objs) && (b.obj != null ==> b.obj in st.objs)
    decreases |ds|
  {
    ds == [] || (!Dereferences(cfg, st, info, ds[0], b) && ScanFrom(cfg, st, info, ds[1..], Consider(cfg, st, info, ds[0], b)))
  }

  ghost predicate ScanOk(cfg: Config, st: State, info: IrqInfo, ds: seq<TopoObj>)
    requires forall d | d in ds :: d in st.objs
  {
    ScanFrom(cfg, st, info, ds, Best(null, ULLONG_MAX))
  }

  ghost function FirstEligible(cfg: Config, st: State, info: IrqInfo, ds: seq<TopoObj>): (r: TopoObj?)
    requires forall d | d in ds :: d in st.objs
    ensures r != null ==> r in st.objs
  {
    if ds == [] then null
    else if Eligible(cfg, st, info, ds[0]) then ds[0]
    else FirstEligible(cfg, st, info, ds[1..])
  }

  /** Once there is a best object, the callback cannot fail. */
  lemma {:induction false} ScansOn(cfg: Config, st: State, info: IrqInfo, ds: seq<TopoObj>, b: Best)
    requires (forall d | d in ds :: d in st.objs) && b.obj != null && b.obj in st.objs
    ensures ScanFrom(cfg, st, info, ds, b)
    decreases |ds|
  {
    hide Eligible;
    if ds != [] {
      ScansOn(cfg, st, info, ds[1..], Consider(cfg, st, info, ds[0], b));
    }
  }

  /** A scan reads through NULL exactly when the first object that may take the IRQ
      has the load ULLONG_MAX: no later object, however loaded, makes it fail. */
  lemma {:induction false} ScanFails(cfg: Config, st: State, info: IrqInfo, ds: seq<TopoObj>)
    requires forall d | d in ds :: d in st.objs
    ensures !ScanOk(cfg, st, info, ds) <==>
      var d := FirstEligible(cfg, st, info, ds); d != null && st.objs[d].load == ULLONG_MAX
    decreases |ds|
  {
    hide Eligible;
    if ds != [] {
      if Eligible(cfg, st, info, ds[0]) {
        if st.objs[ds[0]].load < ULLONG_MAX {
          ScansOn(cfg, st, info, ds[1..], Best(ds[0], st.objs[ds[0]].load));
        }
      } else {
        ScanFails(cfg, st, info, ds[1..]);
      }
    }
  }

  /** For instance, a scan of one package with that load, for an IRQ without hint. */
  lemma FullPackageFails(cfg: Config, info: IrqInfo, d: TopoObj)
    requires d.kind == ObjPackage && info.hintPolicy == HintIgnore
    ensures !ScanOk(cfg, State(map[], map[d := ObjState(ULLONG_MAX, 0, false, [])], []), info, [d])
  {
    var st := State(map[], map[d := ObjState(ULLONG_MAX, 0, false, [])], []);
    assert Eligible(cfg, st, info, d);
    ScanFails(cfg, st, info, [d]);
  }

  /** Only a load of ULLONG_MAX can make a scan fail. */
  ghost predicate LoadsOk(st: State) {
    forall o | o in st.objs :: st.objs[o].load < ULLONG_MAX
  }

  lemma {:induction false} LoadsOkScans(cfg: Config, st: State, info: IrqInfo, ds: seq<TopoObj>, b: Best)
    requires LoadsOk(st) && (forall d | d in ds :: d in st.objs) && (b.obj != null ==> b.obj in st.objs)
    requires b.obj == null ==> b.cost == ULLONG_MAX
    ensures ScanFrom(cfg, st, info, ds, b)
    decreases |ds|
  {
    hide Suits;
    if ds != [] {
      LoadsOkScans(cfg, st, info, ds[1..], Consider(cfg, st, info, ds[0], b));
    }
  }

  /** `o` is at least as good as `e`: less loaded, or equally loaded with no more interrupts. */
  ghost predicate AsGood(st: State, o: TopoObj, e: TopoObj)
    requires o in st.objs && e in st.objs
  {
    || st.objs[o].load < st.objs[e].load
    || (st.objs[o].load == st.objs[e].load && |st.objs[o].interrupts| <= |st.objs[e].interrupts|)
  }

  ghost predicate BestSoFar(cfg: Config, st: State, info: IrqInfo, ds: seq<TopoObj>, b: Best)
    requires forall d | d in ds :: d in st.objs
  {
    && (b.obj == null ==> b.cost == ULLONG_MAX && forall d | d in ds :: !Eligible(cfg, st, info, d))
    && (b.obj != null ==>
          && b.obj in ds && Eligible(cfg, st, info, b.obj) && b.cost == st.objs[b.obj].load
          && forall d | d in ds && Eligible(cfg, st, info, d) :: AsGood(st, b.obj, d))
  }

  lemma ConsiderKeepsBest(cfg: Config, st: State, info: IrqInfo, ds: seq<TopoObj>, d: TopoObj, b: Best)
    requires d in st.objs && (forall e | e in ds :: e in st.objs) && (b.obj != null ==> b.obj in st.objs)
    requires BestSoFar(cfg, st, info, ds, b) && !Dereferences(cfg, st, info, d, b)
    ensures BestSoFar(cfg, st, info, ds + [d], Consider(cfg, st, info, d, b))
  {
    hide Suits;
    assert st.objs[d].load <= ULLONG_MAX;
  }

  lemma {:induction false} BestOfIsBest(cfg: Config, st: State, info: IrqInfo, done: seq<TopoObj>, ds: seq<TopoObj>, b: Best)
    requires (forall d | d in done :: d in st.objs) && (forall d | d in ds :: d in st.objs) && (b.obj != null ==> b.obj in st.objs)
    requires BestSoFar(cfg, st, info, done, b) && ScanFrom(cfg, st, info, ds, b)
    ensures BestSoFar(cfg, st, info, done + ds, BestOf(cfg, st, info, ds, b))
    decreases |ds|
  {
    hide Eligible;
    if ds == [] {
      assert done + ds == done;
    } else {
      ConsiderKeepsBest(cfg, st, info, done, ds[0], b);
      BestOfIsBest(cfg, st, info, done + [ds[0]], ds[1..], Consider(cfg, st, info, ds[0], b));
      assert done + [ds[0]] + ds[1..] == done + ds;
    }
  }

  /** What it takes for an object to be considered: it does not save power; a node must have an
      unbanned CPU, and on a machine with NUMA not be the unspecified one; and it has a CPU of
      a SUBSET hint. */
  ghost predicate Takes(cfg: Config, st: State, info: IrqInfo, d: TopoObj)
    requires d in st.objs
  {
    && !st.objs[d].powersave
    && (d.kind == ObjNode ==> (exists cpu :: cpu in d.mask && cpu !in cfg.banned) && (cfg.numaAvail ==> d.number != -1))
    && (info.hintPolicy == HintSubset && info.affinityHint != {} ==> exists cpu :: cpu in d.mask && cpu in info.affinityHint)
  }

  lemma TakesIfEligible(cfg: Config, st: State, info: IrqInfo, d: TopoObj)
    requires d in st.objs
    ensures Eligible(cfg, st, info, d) <==> Takes(cfg, st, info, d)
  {
    assert (info.affinityHint * d.mask != {}) <==> exists cpu :: cpu in d.mask && cpu in info.affinityHint by {
      if cpu :| cpu in d.mask && cpu in info.affinityHint {
        assert cpu in info.affinityHint * d.mask;
      }
    }
  }

  /** The scan finds a least loaded object that takes the IRQ with, among those, the fewest
      interrupts; it finds none exactly when no object does. */
  lemma ChoiceIsBest(cfg: Config, st: State, info: IrqInfo, ds: seq<TopoObj>)
    requires (forall d | d in ds :: d in st.objs) && ScanOk(cfg, st, info, ds)
    ensures var o := Choice(cfg, st, info, ds);
      && (o == null <==> forall d | d in ds :: !Takes(cfg, st, info, d))
      && (o != null ==> o in ds && Takes(cfg, st, info, o)
                        && forall d | d in ds && Takes(cfg, st, info, d) :: AsGood(st, o, d))
    ensures forall d | d in ds :: Eligible(cfg, st, info, d) <==> Takes(cfg, st, info, d)
  {
    hide Takes;
    BestOfIsBest(cfg, st, info, [], ds, Best(null, ULLONG_MAX));
    assert [] + ds == ds;
    forall d | d in ds
      ensures Eligible(cfg, st, info, d) <==> Takes(cfg, st, info, d)
    {
      TakesIfEligible(cfg, st, info, d);
    }
  }

  // ---- placing one IRQ ----

  /** The IRQ has come down to the depth it is balanced at (or is not balanced and sits on a node). */
  predicate AtLevel(kind: Kind, level: Level) {
    kind.Depth() == level.Depth()
  }

  /** The child find_best_object_for_irq pushes the IRQ to, if any. */
  ghost function Target(cfg: Config, st: State, d: TopoObj, info: IrqInfo): (c: TopoObj?)
    requires Ready(cfg, st) && d in st.objs && info in st.irqs
    ensures c != null ==> c in st.objs && c != d
  {
    ChildrenKnown(cfg, st.objs.Keys, d);
    if !st.irqs[info].moved || AtLevel(d.kind, info.level) then null
    else Choice(cfg, st, info, cfg.children[d])
  }

  /** find_best_object_for_irq: push one IRQ from `d` to its best child. */
  ghost function PlaceIrq(cfg: Config, st: State, d: TopoObj, info: IrqInfo): (r: State)
    requires Ready(cfg, st) && d in st.objs && info in st.irqs
    ensures Ready(cfg, r) && r.objs.Keys == st.objs.Keys && r.irqs.Keys == st.irqs.Keys
  {
    var asign := Target(cfg, st, d, info);
    if asign == null then st
    else
      AssignReady(cfg, st, On(d), asign, info, st.irqs[info].load);
      Assign(st, On(d), asign, info, st.irqs[info].load)
  }

  ghost predicate PlaceIrqSafe(cfg: Config, st: State, d: TopoObj, info: IrqInfo)
    requires Ready(cfg, st) && d in st.objs && info in st.irqs
  {
    ChildrenKnown(cfg, st.objs.Keys, d);
    st.irqs[info].moved && !AtLevel(d.kind, info.level) ==> ScanOk(cfg, st, info, cfg.children[d])
  }

  /** The IRQ's device has a preferred node with an unbanned CPU. */
  predicate Preferred(cfg: Config, info: IrqInfo) {
    info.numaNode.number != -1 && !(info.numaNode.mask <= cfg.banned)
  }

  /** The node place_irq_in_node gives the IRQ to, if any, and what it adds to the load there. */
  ghost function NodeTarget(cfg: Config, st: State, info: IrqInfo): (r: (TopoObj?, nat))
    requires Ready(cfg, st) && info in st.irqs
    ensures r.0 != null ==> r.0 in st.objs
  {
    NodeKnown(cfg, st, info);
    LayerKnown(cfg, st.objs.Keys, ObjNode);
    if info.level == BalanceNone && cfg.banned == {} then (null, 0)
    else if Preferred(cfg, info) then (info.numaNode, st.irqs[info].load + 1)
    else (Choice(cfg, st, info, Layer(cfg, ObjNode)), st.irqs[info].load)
  }

  /** place_irq_in_node: give a waiting IRQ its preferred node, or the best node. */
  ghost function PlaceInNode(cfg: Config, st: State, info: IrqInfo): (r: State)
    requires Ready(cfg, st) && info in st.irqs
    ensures Ready(cfg, r) && r.objs.Keys == st.objs.Keys && r.irqs.Keys == st.irqs.Keys
  {
    var (asign, extra) := NodeTarget(cfg, st, info);
    if asign == null then st
    else
      AssignReady(cfg, st, Waiting, asign, info, extra);
      Assign(st, Waiting, asign, info, extra)
  }

  ghost predicate PlaceInNodeSafe(cfg: Config, st: State, info: IrqInfo)
    requires Ready(cfg, st) && info in st.irqs
  {
    NodeKnown(cfg, st, info);
    LayerKnown(cfg, st.objs.Keys, ObjNode);
    !(info.level == BalanceNone && cfg.banned == {}) && !Preferred(cfg, info) ==> ScanOk(cfg, st, info, Layer(cfg, ObjNode))
  }

  // ---- the loops over IRQs and objects ----

  ghost function PlaceIrqs(cfg: Config, st: State, d: TopoObj, qs: seq<IrqInfo>): (r: State)
    requires Ready(cfg, st) && d in st.objs && forall q | q in qs :: q in st.irqs
    ensures Ready(cfg, r) && r.objs.Keys == st.objs.Keys && r.irqs.Keys == st.irqs.Keys
    decreases |qs|
  {
    if qs == [] then st else PlaceIrqs(cfg, PlaceIrq(cfg, st, d, qs[0]), d, qs[1..])
  }

  /** place_irq_in_object */
  ghost function PlaceObject(cfg: Config, st: State, d: TopoObj): (r: State)
    requires Ready(cfg, st) && d in st.objs
    ensures Ready(cfg, r) && r.objs.Keys == st.objs.Keys && r.irqs.Keys == st.irqs.Keys
  {
    PlaceIrqs(cfg, st, d, st.objs[d].interrupts)
  }

  ghost function PlaceObjects(cfg: Config, st: State, ds: seq<TopoObj>): (r: State)
    requires Ready(cfg, st) && forall d | d in ds :: d in st.objs
    ensures Ready(cfg, r) && r.objs.Keys == st.objs.Keys && r.irqs.Keys == st.irqs.Keys
    decreases |ds|
  {
    if ds == [] then st else PlaceObjects(cfg, PlaceObject(cfg, st, ds[0]), ds[1..])
  }

  ghost function PlaceInNodes(cfg: Config, st: State, qs: seq<IrqInfo>): (r: State)
    requires Ready(cfg, st) && forall q | q in qs :: q in st.irqs
    ensures Ready(cfg, r) && r.objs.Keys == st.objs.Keys && r.irqs.Keys == st.irqs.Keys
    decreases |qs|
  {
    if qs == [] then st else PlaceInNodes(cfg, PlaceInNode(cfg, st, qs[0]), qs[1..])
  }

  lemma SortReady(cfg: Config, st: State)
    requires Ready(cfg, st)
    ensures Ready(cfg, st.(rebalance := SortIrqs(st.irqs, st.rebalance)))
  {
    hide TreeOk, IrqsOk, SortIrqs;
    SortIrqsPermutes(st.irqs, st.rebalance);
    var st' := st.(rebalance := SortIrqs(st.irqs, st.rebalance));
    assert Within(st.rebalance, st.irqs.Keys);
    assert Within(st'.rebalance, st.irqs.Keys);
    assert forall o | o in st'.objs :: st'.objs[o] == st.objs[o];
  }

  ghost function SortWaiting(cfg: Config, st: State): (r: State)
    requires Ready(cfg, st)
    ensures Ready(cfg, r) && r.objs == st.objs && r.irqs == st.irqs
  {
    SortReady(cfg, st);
    st.(rebalance := SortIrqs(st.irqs, st.rebalance))
  }

  ghost function PlaceLayer(cfg: Config, st: State, kind: Kind): (r: State)
    requires Ready(cfg, st)
    ensures Ready(cfg, r) && r.objs.Keys == st.objs.Keys && r.irqs.Keys == st.irqs.Keys
  {
    LayerKnown(cfg, st.objs.Keys, kind);
    PlaceObjects(cfg, st, Layer(cfg, kind))
  }

  /** calculate_placement */
  ghost function CalculatePlacement(cfg: Config, st: State): (r: State)
    requires Ready(cfg, st)
    ensures Ready(cfg, r) && r.objs.Keys == st.objs.Keys && r.irqs.Keys == st.irqs.Keys
  {
    var st0 := SortWaiting(cfg, st);
    if st0.rebalance == [] then st0
    else
      var st1 := PlaceInNodes(cfg, st0, st0.rebalance);
      var st2 := PlaceLayer(cfg, st1, ObjNode);
      var st3 := PlaceLayer(cfg, st2, ObjPackage);
      PlaceLayer(cfg, st3, ObjCache)
  }

  // ---- runs of the loops that never read through NULL ----

  ghost predicate PlaceIrqsSafe(cfg: Config, st: State, d: TopoObj, qs: seq<IrqInfo>)
    requires Ready(cfg, st) && d in st.objs && forall q | q in qs :: q in st.irqs
    decreases |qs|
  {
    qs == [] || (PlaceIrqSafe(cfg, st, d, qs[0]) && PlaceIrqsSafe(cfg, PlaceIrq(cfg, st, d, qs[0]), d, qs[1..]))
  }

  ghost predicate PlaceObjectSafe(cfg: Config, st: State, d: TopoObj)
    requires Ready(cfg, st) && d in st.objs
  {
    PlaceIrqsSafe(cfg, st, d, st.objs[d].interrupts)
  }

  ghost predicate PlaceObjectsSafe(cfg: Config, st: State, ds: seq<TopoObj>)
    requires Ready(cfg, st) && forall d | d in ds :: d in st.objs
    decreases |ds|
  {
    ds == [] || (PlaceObjectSafe(cfg, st, ds[0]) && PlaceObjectsSafe(cfg, PlaceObject(cfg, st, ds[0]), ds[1..]))
  }

  ghost predicate PlaceInNodesSafe(cfg: Config, st: State, qs: seq<IrqInfo>)
    requires Ready(cfg, st) && forall q | q in qs :: q in st.irqs
    decreases |qs|
  {
    qs == [] || (PlaceInNodeSafe(cfg, st, qs[0]) && PlaceInNodesSafe(cfg, PlaceInNode(cfg, st, qs[0]), qs[1..]))
  }

  ghost predicate PlaceLayerSafe(cfg: Config, st: State, kind: Kind)
    requires Ready(cfg, st)
  {
    LayerKnown(cfg, st.objs.Keys, kind);
    PlaceObjectsSafe(cfg, st, Layer(cfg, kind))
  }

  ghost predicate PlacementSafe(cfg: Config, st: State)
    requires Ready(cfg, st)
  {
    var st0 := SortWaiting(cfg, st);
    st0.rebalance == [] ||
    var st1 := PlaceInNodes(cfg, st0, st0.rebalance);
    var st2 := PlaceLayer(cfg, st1, ObjNode);
    var st3 := PlaceLayer(cfg, st2, ObjPackage);
    && PlaceInNodesSafe(cfg, st0, st0.rebalance) && PlaceLayerSafe(cfg, st1, ObjNode)
    && PlaceLayerSafe(cfg, st2, ObjPackage) && PlaceLayerSafe(cfg, st3, ObjCache)
  }
}
