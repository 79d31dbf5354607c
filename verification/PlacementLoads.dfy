/** When loads leave room, no load wraps and no scan fails during a placement. */
module PlacementLoads {
  import opened MergeSort
  import opened Irqs
  import opened Ownership
  import opened Tree
  import opened Placement
  import opened PlacementProofs

  const LIMIT := 0x8000_0000_0000_0000

  /** Not yet at this depth of the tree. */
  ghost predicate Above(owner: TopoObj?, depth: nat) {
    owner == null || owner.kind.Depth() < depth
  }

  /** What the IRQs of qs that are above a depth could still add to an object there. */
  ghost function Pending(irqs: map<IrqInfo, IrqState>, qs: seq<IrqInfo>, depth: nat): nat
    requires forall i | 0 <= i < |qs| :: qs[i] in irqs
  {
    if qs == [] then 0
    else (if Above(irqs[qs[0]].owner, depth) then irqs[qs[0]].load + 1 else 0) + Pending(irqs, qs[1..], depth)
  }

  /** Even if every IRQ that can still come down to an object comes, its load stays below the limit. */
  ghost predicate Budget(cfg: Config, st: State)
    requires forall i | 0 <= i < |cfg.db| :: cfg.db[i] in st.irqs
  {
    forall o | o in st.objs :: st.objs[o].load + Pending(st.irqs, cfg.db, o.kind.Depth()) < LIMIT
  }

  /** Invariants, and loads that leave room. */
  ghost predicate Good(cfg: Config, st: State) {
    Inv(cfg, st) && (forall i | 0 <= i < |cfg.db| :: cfg.db[i] in st.irqs) && Budget(cfg, st)
  }

  lemma GoodParts(cfg: Config, st: State)
    requires Good(cfg, st)
    ensures Inv(cfg, st) && Ready(cfg, st) && LoadsOk(st)
    ensures (forall i | 0 <= i < |cfg.db| :: cfg.db[i] in st.irqs) && Budget(cfg, st)
  {
    hide Ready, Owned, PowerOk;
    assert Budget(cfg, st);
  }

  lemma ReadyIrqs(cfg: Config, st: State)
    requires Ready(cfg, st)
    ensures IrqsOk(cfg, st.irqs.Keys)
  {
  }

  /** IRQ q comes down to `owner`: nothing more is pending anywhere, and at that depth less by q. */
  lemma {:induction false} PendingMove(irqs: map<IrqInfo, IrqState>, irqs': map<IrqInfo, IrqState>,
                                       qs: seq<IrqInfo>, q: IrqInfo, depth: nat)
    requires NoDup(qs) && (forall i | 0 <= i < |qs| :: qs[i] in irqs) && q in irqs
    requires irqs'.Keys == irqs.Keys && irqs'[q].load == irqs[q].load
    requires forall x | x in irqs && x != q :: irqs'[x] == irqs[x]
    requires Above(irqs'[q].owner, depth) ==> Above(irqs[q].owner, depth)
    ensures Pending(irqs', qs, depth) <= Pending(irqs, qs, depth)
    ensures q in qs && Above(irqs[q].owner, depth) && !Above(irqs'[q].owner, depth) ==>
      Pending(irqs', qs, depth) + irqs[q].load + 1 <= Pending(irqs, qs, depth)
  {
    if qs != [] {
      assert qs == [qs[0]] + qs[1..];
      PendingMove(irqs, irqs', qs[1..], q, depth);
    }
  }

  lemma MoveKeepsBudget(cfg: Config, st: State, st': State, from: Loc, c: TopoObj, q: IrqInfo, extra: nat)
    requires Ready(cfg, st) && Budget(cfg, st)
    requires LocOk(st, from) && c in st.objs && q in st.irqs
    requires MovedTo(st, st', from, On(c), q, extra) && extra <= st.irqs[q].load + 1
    requires Above(st.irqs[q].owner, c.kind.Depth())
    ensures forall i | 0 <= i < |cfg.db| :: cfg.db[i] in st'.irqs
    ensures Budget(cfg, st')
  {
    hide Ready, MovedTo, Pending;
    ReadyIrqs(cfg, st);
    MovedParts(st, st', from, On(c), q, extra);
    LoadAfter(st, st', from, c, q, extra);
    forall o | o in st'.objs
      ensures st'.objs[o].load + Pending(st'.irqs, cfg.db, o.kind.Depth()) < LIMIT
    {
      PendingMove(st.irqs, st'.irqs, cfg.db, q, o.kind.Depth());
      SmallSum(st.objs[o].load, extra);
    }
  }

  lemma {:induction false} PendingHas(irqs: map<IrqInfo, IrqState>, qs: seq<IrqInfo>, q: IrqInfo, depth: nat)
    requires (forall i | 0 <= i < |qs| :: qs[i] in irqs) && q in qs && q in irqs && Above(irqs[q].owner, depth)
    ensures irqs[q].load + 1 <= Pending(irqs, qs, depth)
  {
    if qs[0] != q {
      PendingHas(irqs, qs[1..], q, depth);
    }
  }

  /** An IRQ above an object can come down to it without its load wrapping. */
  lemma RoomFor(cfg: Config, st: State, c: TopoObj, q: IrqInfo)
    requires Good(cfg, st) && c in st.objs && q in st.irqs && Above(st.irqs[q].owner, c.kind.Depth())
    ensures st.objs[c].load + st.irqs[q].load + 1 < LIMIT
  {
    hide Inv, Ready;
    GoodParts(cfg, st);
    ReadyIrqs(cfg, st);
    assert Budget(cfg, st);
    PendingHas(st.irqs, cfg.db, q, c.kind.Depth());
  }

  lemma SmallSum(load: nat, extra: nat)
    ensures Add64(load, extra) <= load + extra
  {
  }

  lemma LoadAfter(st: State, st': State, from: Loc, c: TopoObj, q: IrqInfo, extra: nat)
    requires LocOk(st, from) && c in st.objs && q in st.irqs && MovedTo(st, st', from, On(c), q, extra)
    ensures forall o | o in st.objs :: o in st'.objs && st'.objs[o].load == if o == c then Add64(st.objs[o].load, extra) else st.objs[o].load
  {
    hide Add64;
    forall o | o in st.objs
      ensures o in st'.objs && st'.objs[o].load == if o == c then Add64(st.objs[o].load, extra) else st.objs[o].load
    {
      assert On(o) == On(c) <==> o == c;
    }
  }

  // ---- every step stays within the budget ----

  lemma IrqSafe(cfg: Config, st: State, d: TopoObj, q: IrqInfo)
    requires Ready(cfg, st) && LoadsOk(st) && d in st.objs && q in st.irqs
    ensures PlaceIrqSafe(cfg, st, d, q)
  {
    hide TreeOk, IrqsOk, Known, LoadsOk;
    ChildrenKnown(cfg, st.objs.Keys, d);
    KeysOfChildren(cfg, st.objs.Keys);
    LoadsOkScans(cfg, st, q, cfg.children[d], Best(null, ULLONG_MAX));
  }

  lemma NodeSafe(cfg: Config, st: State, q: IrqInfo)
    requires Ready(cfg, st) && LoadsOk(st) && q in st.irqs
    ensures PlaceInNodeSafe(cfg, st, q)
  {
    hide TreeOk, IrqsOk, Known, LoadsOk;
    LayerKnown(cfg, st.objs.Keys, ObjNode);
    LoadsOkScans(cfg, st, q, Layer(cfg, ObjNode), Best(null, ULLONG_MAX));
  }

  lemma PushOneGood(cfg: Config, st: State, d: TopoObj, q: IrqInfo, st1: State)
    requires Good(cfg, st) && Ready(cfg, st) && d in st.objs && q in st.irqs && st.irqs[q].owner == d && st1 == PlaceIrq(cfg, st, d, q)
    ensures PlaceIrqSafe(cfg, st, d, q) && Good(cfg, st1)
  {
    hide Inv, Ready, PlaceIrq, PlaceIrqSafe, MovedTo, Budget, Stays, BestChild, LoadsOk;
    GoodParts(cfg, st);
    IrqSafe(cfg, st, d, q);
    var c := PlaceIrqDoes(cfg, st, d, q);
    if c != null {
      MoveKeepsBudget(cfg, st, st1, On(d), c, q, st.irqs[q].load);
    }
  }

  lemma NodeOneGood(cfg: Config, st: State, q: IrqInfo, st1: State)
    requires Good(cfg, st) && Ready(cfg, st) && q in st.irqs && q in st.rebalance && st1 == PlaceInNode(cfg, st, q)
    ensures PlaceInNodeSafe(cfg, st, q) && Good(cfg, st1)
  {
    hide Inv, Ready, PlaceInNode, PlaceInNodeSafe, MovedTo, Budget, NoNode, LoadsOk, Eligible, Preferred, Owned;
    GoodParts(cfg, st);
    InvParts(cfg, st);
    NodeSafe(cfg, st, q);
    WaitingIs(st, q);
    var n, extra := PlaceInNodeDoes(cfg, st, q);
    if n != null {
      MoveKeepsBudget(cfg, st, st1, Waiting, n, q, extra);
    }
  }

  lemma NoIrqsSafe(cfg: Config, st: State, d: TopoObj)
    requires Ready(cfg, st) && d in st.objs
    ensures PlaceIrqs(cfg, st, d, []) == st && PlaceIrqsSafe(cfg, st, d, [])
  {
    hide Ready;
  }

  lemma SafeFirst(cfg: Config, st: State, d: TopoObj, qs: seq<IrqInfo>)
    requires Ready(cfg, st) && d in st.objs && qs != [] && forall q | q in qs :: q in st.irqs
    requires PlaceIrqSafe(cfg, st, d, qs[0]) && PlaceIrqsSafe(cfg, PlaceIrq(cfg, st, d, qs[0]), d, qs[1..])
    ensures PlaceIrqsSafe(cfg, st, d, qs)
  {
    hide Ready, PlaceIrq, PlaceIrqSafe;
  }

  lemma {:induction false} PushAllGood(cfg: Config, st: State, d: TopoObj, qs: seq<IrqInfo>, st2: State)
    requires Good(cfg, st) && Ready(cfg, st) && d in st.objs && OnObject(st, d, qs)
    requires (forall q | q in qs :: q in st.irqs) && st2 == PlaceIrqs(cfg, st, d, qs)
    ensures PlaceIrqsSafe(cfg, st, d, qs) && Good(cfg, st2)
    decreases |qs|
  {
    hide *;
    if qs == [] {
      NoIrqsSafe(cfg, st, d);
      return;
    }
    var q := qs[0];
    var st1 := PlaceIrq(cfg, st, d, q);
    GoodParts(cfg, st);
    OnObjectFirst(st, d, qs);
    PlaceIrqsStep(cfg, st, d, qs);
    PushOneGood(cfg, st, d, q, st1);
    PushOne(cfg, st, d, q, st1);
    OnObjectRest(cfg, st, st1, d, qs);
    PushAllGood(cfg, st1, d, qs[1..], st2);
    SafeFirst(cfg, st, d, qs);
  }

  lemma ObjectGood(cfg: Config, st: State, d: TopoObj, st1: State)
    requires Good(cfg, st) && Ready(cfg, st) && d in st.objs && st1 == PlaceObject(cfg, st, d)
    ensures PlaceObjectSafe(cfg, st, d) && Good(cfg, st1)
  {
    hide *;
    GoodParts(cfg, st);
    InvParts(cfg, st);
    ListIsOnObject(cfg, st, d);
    KnownList(st, d);
    PlaceObjectIs(cfg, st, d);
    PushAllGood(cfg, st, d, st.objs[d].interrupts, st1);
  }

  lemma NoObjectsSafe(cfg: Config, st: State)
    requires Ready(cfg, st)
    ensures PlaceObjects(cfg, st, []) == st && PlaceObjectsSafe(cfg, st, [])
  {
    hide Ready;
  }

  lemma SafeFirstObject(cfg: Config, st: State, ds: seq<TopoObj>)
    requires Ready(cfg, st) && ds != [] && forall d | d in ds :: d in st.objs
    requires PlaceObjectSafe(cfg, st, ds[0]) && PlaceObjectsSafe(cfg, PlaceObject(cfg, st, ds[0]), ds[1..])
    ensures PlaceObjectsSafe(cfg, st, ds)
  {
    hide Ready, PlaceObject, PlaceObjectSafe;
  }

  lemma {:induction false} ObjectsGood(cfg: Config, st: State, ds: seq<TopoObj>, st2: State)
    requires Good(cfg, st) && Ready(cfg, st) && (forall d | d in ds :: d in st.objs) && st2 == PlaceObjects(cfg, st, ds)
    ensures PlaceObjectsSafe(cfg, st, ds) && Good(cfg, st2)
    decreases |ds|
  {
    hide *;
    if ds == [] {
      NoObjectsSafe(cfg, st);
      return;
    }
    var st1 := PlaceObject(cfg, st, ds[0]);
    PlaceObjectsStep(cfg, st, ds);
    ObjectGood(cfg, st, ds[0], st1);
    ObjectsGood(cfg, st1, ds[1..], st2);
    SafeFirstObject(cfg, st, ds);
  }

  lemma LayerGood(cfg: Config, st: State, kind: Kind, st1: State)
    requires Good(cfg, st) && Ready(cfg, st) && st1 == PlaceLayer(cfg, st, kind)
    ensures PlaceLayerSafe(cfg, st, kind) && Good(cfg, st1)
  {
    hide Good, Ready, PlaceObjects, PlaceObjectsSafe, TreeOk, Inv;
    GoodParts(cfg, st);
    InvParts(cfg, st);
    LayerKnown(cfg, st.objs.Keys, kind);
    ObjectsGood(cfg, st, Layer(cfg, kind), st1);
  }

  lemma NoWaitingSafe(cfg: Config, st: State)
    requires Ready(cfg, st)
    ensures PlaceInNodes(cfg, st, []) == st && PlaceInNodesSafe(cfg, st, [])
  {
    hide Ready;
  }

  lemma SafeFirstWaiting(cfg: Config, st: State, qs: seq<IrqInfo>)
    requires Ready(cfg, st) && qs != [] && forall q | q in qs :: q in st.irqs
    requires PlaceInNodeSafe(cfg, st, qs[0]) && PlaceInNodesSafe(cfg, PlaceInNode(cfg, st, qs[0]), qs[1..])
    ensures PlaceInNodesSafe(cfg, st, qs)
  {
    hide Ready, PlaceInNode, PlaceInNodeSafe;
  }

  lemma {:induction false} NodesGood(cfg: Config, st: State, qs: seq<IrqInfo>, st2: State)
    requires Good(cfg, st) && Ready(cfg, st) && AllWaiting(st, qs)
    requires (forall q | q in qs :: q in st.irqs) && st2 == PlaceInNodes(cfg, st, qs)
    ensures PlaceInNodesSafe(cfg, st, qs) && Good(cfg, st2)
    decreases |qs|
  {
    hide *;
    if qs == [] {
      NoWaitingSafe(cfg, st);
      return;
    }
    var q := qs[0];
    var st1 := PlaceInNode(cfg, st, q);
    GoodParts(cfg, st);
    WaitingFirst(st, qs);
    PlaceInNodesStep(cfg, st, qs);
    NodeOneGood(cfg, st, q, st1);
    NodeOne(cfg, st, q, st1);
    WaitingRest(cfg, st, st1, qs);
    NodesGood(cfg, st1, qs[1..], st2);
    SafeFirstWaiting(cfg, st, qs);
  }

  lemma SortGood(cfg: Config, st: State, st0: State)
    requires Good(cfg, st) && Inv(cfg, st0) && st0.irqs == st.irqs && st0.objs == st.objs
    ensures Good(cfg, st0)
  {
    hide Inv;
  }

  /** When loads leave room, a placement reads nothing through NULL, and leaves room. */
  lemma PlacementIsSafe(cfg: Config, st: State)
    requires Good(cfg, st) && Ready(cfg, st)
    ensures PlacementSafe(cfg, st) && Good(cfg, CalculatePlacement(cfg, st))
  {
    hide *;
    GoodParts(cfg, st);
    if st.rebalance == [] {
      NothingWaiting(cfg, st);
      return;
    }
    var st0, st1, st2, st3 := PlacementSteps(cfg, st);
    SortKeepsInv(cfg, st, st0);
    SortGood(cfg, st, st0);
    NodesGood(cfg, st0, st0.rebalance, st1);
    LayerGood(cfg, st1, ObjNode, st2);
    LayerGood(cfg, st2, ObjPackage, st3);
    LayerGood(cfg, st3, ObjCache, CalculatePlacement(cfg, st));
  }
}
