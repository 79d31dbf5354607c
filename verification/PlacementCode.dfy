/** placement.c, on the heap, against the specification in Placement. */
module PlacementCode {
  import opened Irqs
  import opened Ownership
  import opened Tree
  import opened Placement
  import opened Globals

  /** find_best_object, one call on one object */
  method FindBestObject(g: Globals, d: TopoObj, info: IrqInfo, best: TopoObj?, bestCost: nat) returns (best': TopoObj?, bestCost': nat)
    requires d in g.objs && (best != null ==> best in g.objs)
    requires !Dereferences(g.Cfg(), g.St(), info, d, Best(best, bestCost))
    ensures Best(best', bestCost') == Consider(g.Cfg(), g.St(), info, d, Best(best, bestCost))
    ensures best' == best || best' == d
  {
    best', bestCost' := best, bestCost;
    if g.numaAvail && d.kind == ObjNode && d.number == -1 {
      return;
    }
    if d.kind == ObjNode && d.mask <= g.banned {
      return;
    }
    if info.hintPolicy == HintSubset {
      if info.affinityHint != {} {
        var subset := info.affinityHint * d.mask;
        if subset == {} {
          return;
        }
      }
    }
    if d.powersaveMode {
      return;
    }
    var newload := d.load;
    if newload < bestCost {
      best' := d;
      bestCost' := newload;
    } else if newload == bestCost {
      if |d.interrupts| < |best.interrupts| {
        best' := d;
      }
    }
  }

  /** for_each_object with find_best_object */
  method FindBest(g: Globals, ds: seq<TopoObj>, info: IrqInfo) returns (asign: TopoObj?)
    requires (forall d | d in ds :: d in g.objs) && ScanOk(g.Cfg(), g.St(), info, ds)
    ensures asign == Choice(g.Cfg(), g.St(), info, ds)
  {
    hide Consider, Dereferences, Globals.St, Globals.Cfg;
    var cost: nat := ULLONG_MAX;
    asign := null;
    var i := 0;
    while i < |ds|
      invariant i <= |ds| && (asign != null ==> asign in g.objs)
      invariant ScanFrom(g.Cfg(), g.St(), info, ds[i..], Best(asign, cost))
      invariant BestOf(g.Cfg(), g.St(), info, ds[i..], Best(asign, cost)) == BestOf(g.Cfg(), g.St(), info, ds, Best(null, ULLONG_MAX))
    {
      assert ds[i..][0] == ds[i] && ds[i..][1..] == ds[i + 1..];
      asign, cost := FindBestObject(g, ds[i], info, asign, cost);
      i := i + 1;
    }
  }

  lemma ChildrenThere(g: Globals, d: TopoObj)
    requires g.Valid() && d in g.objs
    ensures d in g.Cfg().children && g.Cfg().children[d] == d.children && forall c | c in d.children :: c in g.objs && c != d
  {
    hide TreeOk;
    ChildrenKnown(g.Cfg(), g.objs, d);
  }

  lemma IrqThere(g: Globals, info: IrqInfo)
    requires info in g.irqs
    ensures g.St().irqs[info] == info.Fields()
  {
  }

  /** find_best_object_for_irq */
  method FindBestObjectForIrq(g: Globals, info: IrqInfo, d: TopoObj)
    requires g.Valid() && info in g.irqs && d in g.objs && PlaceIrqSafe(g.Cfg(), g.St(), d, info)
    modifies g`rebalance, g.objs`interrupts, g.objs`load, info`moved, info`assignedObj
    ensures g.St() == PlaceIrq(old(g.Cfg()), old(g.St()), d, info) && g.Cfg() == old(g.Cfg()) && g.Valid()
  {
    hide Ready, Assign, Choice, ScanOk, Globals.Cfg, Globals.St;
    IrqThere(g, info);
    if !info.moved {
      return;
    }
    match d.kind {
      case ObjNode =>
        if info.level == BalanceNone {
          return;
        }
      case ObjPackage =>
        if info.level == BalancePackage {
          return;
        }
      case ObjCache =>
        if info.level == BalanceCache {
          return;
        }
      case ObjCpu =>
        if info.level == BalanceCore {
          return;
        }
    }
    ChildrenThere(g, d);
    var asign := FindBest(g, d.children, info);
    if asign != null {
      AssignTo(g, On(d), asign, info, info.load);
    }
  }

  lemma PlaceIrqsNext(cfg: Config, st: State, d: TopoObj, qs: seq<IrqInfo>, i: nat, st1: State)
    requires Ready(cfg, st) && d in st.objs && (forall q | q in qs :: q in st.irqs) && i < |qs| && qs[i] in st.irqs
    requires st1 == PlaceIrq(cfg, st, d, qs[i])
    ensures Ready(cfg, st1) && st1.objs.Keys == st.objs.Keys && st1.irqs.Keys == st.irqs.Keys
    ensures PlaceIrqs(cfg, st, d, qs[i..]) == PlaceIrqs(cfg, st1, d, qs[i + 1..])
    ensures PlaceIrqsSafe(cfg, st, d, qs[i..]) ==> PlaceIrqsSafe(cfg, st1, d, qs[i + 1..])
  {
    hide Ready, PlaceIrq, PlaceIrqSafe;
    assert qs[i..][0] == qs[i] && qs[i..][1..] == qs[i + 1..];
  }

  lemma FirstIrqSafe(cfg: Config, st: State, d: TopoObj, qs: seq<IrqInfo>, i: nat)
    requires Ready(cfg, st) && d in st.objs && (forall q | q in qs :: q in st.irqs) && i < |qs| && qs[i] in st.irqs
    requires PlaceIrqsSafe(cfg, st, d, qs[i..])
    ensures PlaceIrqSafe(cfg, st, d, qs[i])
  {
    hide Ready, PlaceIrq, PlaceIrqSafe;
    assert qs[i..][0] == qs[i];
  }

  lemma PlaceIrqsEnd(cfg: Config, st: State, d: TopoObj, qs: seq<IrqInfo>)
    requires Ready(cfg, st) && d in st.objs
    ensures PlaceIrqs(cfg, st, d, qs[|qs|..]) == st
  {
    hide Ready;
  }

  lemma ListThere(g: Globals, d: TopoObj)
    requires g.Valid() && d in g.objs
    ensures forall q | q in d.interrupts :: q in g.irqs
    ensures g.St().objs[d].interrupts == d.interrupts && g.St().objs[d].load == d.load
  {
    hide TreeOk, IrqsOk;
  }

  /** place_irq_in_object */
  method PlaceIrqInObject(g: Globals, d: TopoObj)
    requires g.Valid() && d in g.objs && PlaceObjectSafe(g.Cfg(), g.St(), d)
    modifies g`rebalance, g.objs`interrupts, g.objs`load, g.irqs`moved, g.irqs`assignedObj
    ensures g.St() == PlaceObject(old(g.Cfg()), old(g.St()), d) && g.Cfg() == old(g.Cfg()) && g.Valid()
  {
    hide Ready, PlaceIrq, PlaceIrqs, PlaceIrqSafe, PlaceIrqsSafe, Globals.St, Globals.Cfg;
    ghost var cfg, st := g.Cfg(), g.St();
    ListThere(g, d);
    var list := d.interrupts;
    var i := 0;
    while i < |list|
      invariant i <= |list|
      invariant g.Valid() && g.Cfg() == cfg
      invariant PlaceIrqs(cfg, g.St(), d, list[i..]) == PlaceIrqs(cfg, st, d, list)
      invariant PlaceIrqsSafe(cfg, g.St(), d, list[i..])
    {
      ghost var st1 := g.St();
      assert list[i] in list;
      FirstIrqSafe(cfg, st1, d, list, i);
      FindBestObjectForIrq(g, list[i], d);
      PlaceIrqsNext(cfg, st1, d, list, i, g.St());
      i := i + 1;
    }
    PlaceIrqsEnd(cfg, g.St(), d, list);
  }

  lemma PlaceObjectsNext(cfg: Config, st: State, ds: seq<TopoObj>, i: nat, st1: State)
    requires Ready(cfg, st) && (forall d | d in ds :: d in st.objs) && i < |ds| && ds[i] in st.objs
    requires st1 == PlaceObject(cfg, st, ds[i])
    ensures Ready(cfg, st1) && st1.objs.Keys == st.objs.Keys && st1.irqs.Keys == st.irqs.Keys
    ensures PlaceObjects(cfg, st, ds[i..]) == PlaceObjects(cfg, st1, ds[i + 1..])
    ensures PlaceObjectsSafe(cfg, st, ds[i..]) ==> PlaceObjectsSafe(cfg, st1, ds[i + 1..])
  {
    hide Ready, PlaceObject, PlaceObjectSafe;
    assert ds[i..][0] == ds[i] && ds[i..][1..] == ds[i + 1..];
  }

  lemma FirstObjectSafe(cfg: Config, st: State, ds: seq<TopoObj>, i: nat)
    requires Ready(cfg, st) && (forall d | d in ds :: d in st.objs) && i < |ds| && ds[i] in st.objs
    requires PlaceObjectsSafe(cfg, st, ds[i..])
    ensures PlaceObjectSafe(cfg, st, ds[i])
  {
    hide Ready, PlaceObject, PlaceObjectSafe;
    assert ds[i..][0] == ds[i];
  }

  lemma PlaceObjectsEnd(cfg: Config, st: State, ds: seq<TopoObj>)
    requires Ready(cfg, st)
    ensures PlaceObjects(cfg, st, ds[|ds|..]) == st
  {
    hide Ready;
  }

  lemma LayerThere(g: Globals, kind: Kind)
    requires g.Valid()
    ensures forall d | d in Layer(g.Cfg(), kind) :: d in g.objs
  {
    hide TreeOk;
    LayerKnown(g.Cfg(), g.objs, kind);
  }

  /** for_each_object with place_irq_in_object over a layer */
  method PlaceInLayer(g: Globals, ds: seq<TopoObj>, ghost kind: Kind)
    requires g.Valid() && ds == Layer(g.Cfg(), kind) && PlaceLayerSafe(g.Cfg(), g.St(), kind)
    modifies g`rebalance, g.objs`interrupts, g.objs`load, g.irqs`moved, g.irqs`assignedObj
    ensures g.St() == PlaceLayer(old(g.Cfg()), old(g.St()), kind) && g.Cfg() == old(g.Cfg()) && g.Valid()
  {
    hide Ready, PlaceObject, PlaceObjects, PlaceObjectSafe, PlaceObjectsSafe, Layer, Globals.St, Globals.Cfg;
    ghost var cfg, st := g.Cfg(), g.St();
    LayerThere(g, kind);
    var i := 0;
    while i < |ds|
      invariant i <= |ds|
      invariant g.Valid() && g.Cfg() == cfg
      invariant PlaceObjects(cfg, g.St(), ds[i..]) == PlaceObjects(cfg, st, ds)
      invariant PlaceObjectsSafe(cfg, g.St(), ds[i..])
    {
      ghost var st1 := g.St();
      assert ds[i] in ds;
      FirstObjectSafe(cfg, st1, ds, i);
      PlaceIrqInObject(g, ds[i]);
      PlaceObjectsNext(cfg, st1, ds, i, g.St());
      i := i + 1;
    }
    PlaceObjectsEnd(cfg, g.St(), ds);
  }

  lemma NodeThere(g: Globals, info: IrqInfo)
    requires g.Valid() && info in g.irqs
    ensures info.numaNode in g.objs && g.St().irqs[info].load == info.load
    ensures g.Cfg().nodes == g.nodes && g.Cfg().banned == g.banned && forall n | n in g.nodes :: n in g.objs
  {
    hide TreeOk, IrqsOk;
    NodeKnown(g.Cfg(), g.St(), info);
    LayerThere(g, ObjNode);
  }

  /** place_irq_in_node */
  method PlaceIrqInNode(g: Globals, info: IrqInfo)
    requires g.Valid() && info in g.irqs && PlaceInNodeSafe(g.Cfg(), g.St(), info)
    modifies g`rebalance, g.objs`interrupts, g.objs`load, info`moved, info`assignedObj
    ensures g.St() == PlaceInNode(old(g.Cfg()), old(g.St()), info) && g.Cfg() == old(g.Cfg()) && g.Valid()
  {
    hide Ready, Assign, Choice, ScanOk, Globals.Cfg, Globals.St;
    NodeThere(g, info);
    if info.level == BalanceNone && g.banned == {} {
      return;
    }
    if info.numaNode.number != -1 {
      if !(info.numaNode.mask <= g.banned) {
        AssignTo(g, Waiting, info.numaNode, info, info.load + 1);
        return;
      }
    }
    var asign := FindBest(g, g.nodes, info);
    if asign != null {
      AssignTo(g, Waiting, asign, info, info.load);
    }
  }

  lemma PlaceInNodesNext(cfg: Config, st: State, qs: seq<IrqInfo>, i: nat, st1: State)
    requires Ready(cfg, st) && (forall q | q in qs :: q in st.irqs) && i < |qs| && qs[i] in st.irqs
    requires st1 == PlaceInNode(cfg, st, qs[i])
    ensures Ready(cfg, st1) && st1.objs.Keys == st.objs.Keys && st1.irqs.Keys == st.irqs.Keys
    ensures PlaceInNodes(cfg, st, qs[i..]) == PlaceInNodes(cfg, st1, qs[i + 1..])
    ensures PlaceInNodesSafe(cfg, st, qs[i..]) ==> PlaceInNodesSafe(cfg, st1, qs[i + 1..])
  {
    hide Ready, PlaceInNode, PlaceInNodeSafe;
    assert qs[i..][0] == qs[i] && qs[i..][1..] == qs[i + 1..];
  }

  lemma FirstWaitingSafe(cfg: Config, st: State, qs: seq<IrqInfo>, i: nat)
    requires Ready(cfg, st) && (forall q | q in qs :: q in st.irqs) && i < |qs| && qs[i] in st.irqs
    requires PlaceInNodesSafe(cfg, st, qs[i..])
    ensures PlaceInNodeSafe(cfg, st, qs[i])
  {
    hide Ready, PlaceInNode, PlaceInNodeSafe;
    assert qs[i..][0] == qs[i];
  }

  lemma PlaceInNodesEnd(cfg: Config, st: State, qs: seq<IrqInfo>)
    requires Ready(cfg, st)
    ensures PlaceInNodes(cfg, st, qs[|qs|..]) == st
  {
    hide Ready;
  }

  lemma WaitingThere(g: Globals)
    requires g.Valid()
    ensures forall q | q in g.rebalance :: q in g.irqs
    ensures g.St().rebalance == g.rebalance
  {
    hide TreeOk, IrqsOk;
  }

  /** for_each_irq with place_irq_in_node over the waiting list */
  method PlaceWaiting(g: Globals)
    requires g.Valid() && (forall q | q in g.rebalance :: q in g.irqs) && PlaceInNodesSafe(g.Cfg(), g.St(), g.rebalance)
    modifies g`rebalance, g.objs`interrupts, g.objs`load, g.irqs`moved, g.irqs`assignedObj
    ensures g.St() == PlaceInNodes(old(g.Cfg()), old(g.St()), old(g.rebalance)) && g.Cfg() == old(g.Cfg()) && g.Valid()
  {
    hide Ready, PlaceInNode, PlaceInNodes, PlaceInNodeSafe, PlaceInNodesSafe, Globals.St, Globals.Cfg;
    ghost var cfg, st := g.Cfg(), g.St();
    var list := g.rebalance;
    var i := 0;
    while i < |list|
      invariant i <= |list|
      invariant g.Valid() && g.Cfg() == cfg
      invariant PlaceInNodes(cfg, g.St(), list[i..]) == PlaceInNodes(cfg, st, list)
      invariant PlaceInNodesSafe(cfg, g.St(), list[i..])
    {
      ghost var st1 := g.St();
      assert list[i] in list;
      FirstWaitingSafe(cfg, st1, list, i);
      PlaceIrqInNode(g, list[i]);
      PlaceInNodesNext(cfg, st1, list, i, g.St());
      i := i + 1;
    }
    PlaceInNodesEnd(cfg, g.St(), list);
  }

  lemma LayersOf(g: Globals)
    ensures Layer(g.Cfg(), ObjNode) == g.nodes && Layer(g.Cfg(), ObjPackage) == g.packages
    ensures Layer(g.Cfg(), ObjCache) == g.caches && Layer(g.Cfg(), ObjCpu) == g.cpus
  {
  }

  lemma CalculateIs(cfg: Config, st: State, st0: State)
    requires Ready(cfg, st) && st0 == SortWaiting(cfg, st)
    ensures st0.rebalance == [] ==> CalculatePlacement(cfg, st) == st0
    ensures forall q | q in st0.rebalance :: q in st0.irqs
    ensures st0.rebalance != [] ==>
      CalculatePlacement(cfg, st) ==
      PlaceLayer(cfg, PlaceLayer(cfg, PlaceLayer(cfg, PlaceInNodes(cfg, st0, st0.rebalance), ObjNode), ObjPackage), ObjCache)
  {
    hide TreeOk, IrqsOk, PlaceInNodes, PlaceLayer, SortIrqs;
  }

  lemma SafeIs(cfg: Config, st: State, st0: State, st1: State, st2: State, st3: State)
    requires Ready(cfg, st) && PlacementSafe(cfg, st) && st0 == SortWaiting(cfg, st) && st0.rebalance != []
    requires (forall q | q in st0.rebalance :: q in st0.irqs) && st1 == PlaceInNodes(cfg, st0, st0.rebalance)
    requires st2 == PlaceLayer(cfg, st1, ObjNode) && st3 == PlaceLayer(cfg, st2, ObjPackage)
    ensures PlaceInNodesSafe(cfg, st0, st0.rebalance) && PlaceLayerSafe(cfg, st1, ObjNode)
    ensures PlaceLayerSafe(cfg, st2, ObjPackage) && PlaceLayerSafe(cfg, st3, ObjCache)
  {
    hide TreeOk, IrqsOk, Known, PlaceInNodes, PlaceLayer, SortWaiting, PlaceInNodesSafe, PlaceLayerSafe;
  }

  lemma SortWaitingIs(cfg: Config, st: State)
    requires Ready(cfg, st)
    ensures SortWaiting(cfg, st) == st.(rebalance := SortIrqs(st.irqs, st.rebalance))
  {
    hide Ready, SortIrqs;
  }

  /** sort_irq_list on the waiting list */
  method SortRebalanceList(g: Globals)
    requires g.Valid()
    modifies g`rebalance
    ensures g.St() == SortWaiting(old(g.Cfg()), old(g.St())) && g.Cfg() == old(g.Cfg()) && g.Valid()
  {
    hide Ready, Globals.St, Globals.Cfg, SortWaiting;
    WaitingThere(g);
    SortWaitingIs(g.Cfg(), g.St());
    var sorted := SortIrqList(g, g.rebalance);
    SetWaiting(g, sorted);
  }

  /** calculate_placement, when no scan reads through NULL */
  method RunPlacement(g: Globals)
    requires g.Valid() && PlacementSafe(g.Cfg(), g.St())
    modifies g`rebalance, g.objs`interrupts, g.objs`load, g.irqs`moved, g.irqs`assignedObj
    ensures g.St() == CalculatePlacement(old(g.Cfg()), old(g.St())) && g.Cfg() == old(g.Cfg()) && g.Valid()
  {
    hide Ready, SortWaiting, PlaceLayer, PlaceInNodes, CalculatePlacement, Layer, Globals.St, Globals.Cfg;
    hide PlacementSafe, PlaceLayerSafe, PlaceInNodesSafe;
    ghost var cfg, st := g.Cfg(), g.St();
    SortRebalanceList(g);
    ghost var st0 := g.St();
    CalculateIs(cfg, st, st0);
    WaitingThere(g);
    if |g.rebalance| > 0 {
      ghost var st1 := PlaceInNodes(cfg, st0, st0.rebalance);
      ghost var st2 := PlaceLayer(cfg, st1, ObjNode);
      SafeIs(cfg, st, st0, st1, st2, PlaceLayer(cfg, st2, ObjPackage));
      LayersOf(g);
      PlaceWaiting(g);
      PlaceInLayer(g, g.nodes, ObjNode);
      PlaceInLayer(g, g.packages, ObjPackage);
      PlaceInLayer(g, g.caches, ObjCache);
    }
  }
}
