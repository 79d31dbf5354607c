/** What placement keeps and where it ends: the invariants of the balancing
    state, the bound on loads, and the level-by-level descent. */
module PlacementProofs {
  import opened MergeSort
  import opened Irqs
  import opened Ownership
  import opened Tree
  import opened Placement

  // ---- invariants ----

  /** An IRQ is never deeper than the level it is balanced at, and below the
      nodes a SUBSET hint meets the mask of the object it is on. */
  ghost predicate Fitting(st: State, q: IrqInfo)
    requires q in st.irqs
  {
    var o := st.irqs[q].owner;
    o != null ==>
      && o.kind.Depth() <= q.level.Depth()
      && (o.kind != ObjNode && q.hintPolicy == HintSubset && q.affinityHint != {} ==> q.affinityHint * o.mask != {})
  }

  /** Only CPUs save power, and those that do handle no IRQ. */
  ghost predicate PowerOk(st: State) {
    forall o | o in st.objs && st.objs[o].powersave :: o.kind == ObjCpu && st.objs[o].interrupts == []
  }

  ghost predicate Inv(cfg: Config, st: State) {
    && Ready(cfg, st)
    && Owned(st)
    && (forall q | q in st.irqs :: Fitting(st, q))
    && PowerOk(st)
  }

  // ---- one placement ----

  ghost predicate AllFitting(st: State) {
    forall q | q in st.irqs :: Fitting(st, q)
  }

  lemma InvParts(cfg: Config, st: State)
    requires Inv(cfg, st)
    ensures Ready(cfg, st) && TreeOk(cfg, st.objs.Keys) && IrqsOk(cfg, st.irqs.Keys) && Known(st)
    ensures Owned(st) && AllFitting(st) && PowerOk(st)
  {
  }

  lemma MakeInv(cfg: Config, st: State)
    requires Ready(cfg, st) && Owned(st) && AllFitting(st) && PowerOk(st)
    ensures Inv(cfg, st)
  {
  }

  lemma FittingKept(st: State, st': State, c: TopoObj, q: IrqInfo)
    requires AllFitting(st) && q in st.irqs
    requires st'.irqs == st.irqs[q := st.irqs[q].(moved := true, owner := c)]
    requires c.kind.Depth() <= q.level.Depth()
    requires c.kind != ObjNode && q.hintPolicy == HintSubset && q.affinityHint != {} ==> q.affinityHint * c.mask != {}
    ensures AllFitting(st')
  {
    forall x | x in st'.irqs
      ensures Fitting(st', x)
    {
      assert Fitting(st, x);
    }
  }

  /** Moving q to a fitting object that does not save power keeps all invariants. */
  lemma MoveKeepsInv(cfg: Config, st: State, st': State, from: Loc, c: TopoObj, q: IrqInfo, extra: nat)
    requires Inv(cfg, st) && Ready(cfg, st')
    requires LocOk(st, from) && c in st.objs && q in st.irqs && q in ListAt(st, from) && from != On(c)
    requires MovedTo(st, st', from, On(c), q, extra) && c.kind.Depth() <= q.level.Depth()
    requires c.kind != ObjNode && q.hintPolicy == HintSubset && q.affinityHint != {} ==> q.affinityHint * c.mask != {}
    requires !st.objs[c].powersave
    ensures Inv(cfg, st')
  {
    hide Ready, Owned, MovedTo, PowerOk, Inv, AllFitting, Fitting;
    InvParts(cfg, st);
    MoveKeepsOwned(st, st', from, On(c), q, extra);
    MovedParts(st, st', from, On(c), q, extra);
    FittingKept(st, st', c, q);
    EmptyStays(st, st', from, c, q, extra);
    MakeInv(cfg, st');
  }

  lemma MovedParts(st: State, st': State, from: Loc, to: Loc, q: IrqInfo, extra: nat)
    requires LocOk(st, from) && LocOk(st, to) && q in st.irqs && MovedTo(st, st', from, to, q, extra)
    ensures st'.irqs == st.irqs[q := st.irqs[q].(moved := true, owner := if to.On? then to.obj else null)]
    ensures st'.objs.Keys == st.objs.Keys
    ensures forall o | o in st.objs :: st'.objs[o].powersave == st.objs[o].powersave
    ensures forall o | o in st.objs && On(o) != to && On(o) != from :: st'.objs[o].interrupts == st.objs[o].interrupts
    ensures to != Waiting && from != Waiting ==> st'.rebalance == st.rebalance
    ensures forall o | o in st.objs && On(o) != to :: st'.objs[o].load == st.objs[o].load
  {
  }

  lemma EmptyStays(st: State, st': State, from: Loc, c: TopoObj, q: IrqInfo, extra: nat)
    requires PowerOk(st) && LocOk(st, from) && c in st.objs && q in st.irqs && q in ListAt(st, from)
    requires MovedTo(st, st', from, On(c), q, extra) && !st.objs[c].powersave
    ensures PowerOk(st')
  {
    MovedParts(st, st', from, On(c), q, extra);
    forall o | o in st'.objs && st'.objs[o].powersave
      ensures o.kind == ObjCpu && st'.objs[o].interrupts == []
    {
      assert st.objs[o].powersave;
      assert On(o) != On(c) && On(o) != from;
    }
  }

  /** No child of d would take q. */
  ghost predicate NoTaker(cfg: Config, st: State, d: TopoObj, q: IrqInfo)
    requires d in cfg.children && forall c | c in cfg.children[d] :: c in st.objs
  {
    forall c | c in cfg.children[d] :: !Eligible(cfg, st, q, c)
  }

  /** q stays on d for a reason. */
  ghost predicate Stays(cfg: Config, st: State, d: TopoObj, q: IrqInfo)
    requires q in st.irqs && d in cfg.children && forall c | c in cfg.children[d] :: c in st.objs
  {
    !st.irqs[q].moved || AtLevel(d.kind, q.level) || NoTaker(cfg, st, d, q)
  }

  /** c is a best child of d for q. */
  ghost predicate BestChild(cfg: Config, st: State, d: TopoObj, q: IrqInfo, c: TopoObj)
    requires d in cfg.children && forall e | e in cfg.children[d] :: e in st.objs
  {
    && c in cfg.children[d] && Eligible(cfg, st, q, c)
    && forall e | e in cfg.children[d] && Eligible(cfg, st, q, e) :: AsGood(st, c, e)
  }

  lemma OnItsObject(cfg: Config, st: State, d: TopoObj, q: IrqInfo)
    requires Inv(cfg, st) && d in st.objs && q in st.irqs && st.irqs[q].owner == d
    ensures q in st.objs[d].interrupts && d.kind.Depth() <= q.level.Depth()
  {
    assert OwnedIrq(st, q) && Fitting(st, q);
  }

  lemma KeysOfChildren(cfg: Config, objs: set<TopoObj>)
    requires TreeOk(cfg, objs)
    ensures cfg.children.Keys == objs && cfg.parent.Keys == objs
  {
  }

  lemma TargetIs(cfg: Config, st: State, d: TopoObj, q: IrqInfo)
    requires Inv(cfg, st) && d in st.objs && q in st.irqs && PlaceIrqSafe(cfg, st, d, q)
    ensures d in cfg.children && forall c | c in cfg.children[d] :: c in st.objs && c.kind.Depth() == d.kind.Depth() + 1
    ensures var c := Target(cfg, st, d, q);
      if c == null then Stays(cfg, st, d, q)
      else st.irqs[q].moved && !AtLevel(d.kind, q.level) && BestChild(cfg, st, d, q, c)
  {
    InvParts(cfg, st);
    hide TreeOk, Inv, Choice, ScanOk;
    ChildrenKnown(cfg, st.objs.Keys, d);
    KeysOfChildren(cfg, st.objs.Keys);
    if st.irqs[q].moved && !AtLevel(d.kind, q.level) {
      ChoiceIsBest(cfg, st, q, cfg.children[d]);
    }
  }

  /** find_best_object_for_irq moves the IRQ to a best child, or leaves it for a reason. */
  lemma PlaceIrqDoes(cfg: Config, st: State, d: TopoObj, q: IrqInfo) returns (c: TopoObj?)
    requires Inv(cfg, st) && d in st.objs && q in st.irqs && st.irqs[q].owner == d && PlaceIrqSafe(cfg, st, d, q)
    ensures d in cfg.children && forall c | c in cfg.children[d] :: c in st.objs
    ensures Inv(cfg, PlaceIrq(cfg, st, d, q))
    ensures c == null ==> PlaceIrq(cfg, st, d, q) == st && Stays(cfg, st, d, q)
    ensures c != null ==>
      && st.irqs[q].moved && !AtLevel(d.kind, q.level) && c in st.objs && c.kind.Depth() == d.kind.Depth() + 1
      && BestChild(cfg, st, d, q, c)
      && MovedTo(st, PlaceIrq(cfg, st, d, q), On(d), On(c), q, st.irqs[q].load)
  {
    hide TreeOk, IrqsOk, Owned, Assign, Known, Inv, Target, MovedTo, AllFitting, PowerOk, Ready, Stays, PlaceIrqSafe;
    OnItsObject(cfg, st, d, q);
    InvParts(cfg, st);
    TargetIs(cfg, st, d, q);
    c := Target(cfg, st, d, q);
    if c != null {
      AssignMoves(st, On(d), c, q, st.irqs[q].load);
      MoveKeepsInv(cfg, st, PlaceIrq(cfg, st, d, q), On(d), c, q, st.irqs[q].load);
    }
  }

  /** No NUMA node will have the IRQ: its preferred one is unusable and no other suits it. */
  ghost predicate NoNode(cfg: Config, q: IrqInfo) {
    !Preferred(cfg, q) && forall n | n in cfg.nodes :: !Suits(cfg, q, n)
  }

  lemma WaitingIs(st: State, q: IrqInfo)
    requires Owned(st) && q in st.irqs && q in st.rebalance
    ensures st.irqs[q].owner == null && q.level != BalanceNone
  {
    assert OwnedIrq(st, q);
  }

  lemma HasNode(cfg: Config, irqs: set<IrqInfo>, q: IrqInfo)
    requires IrqsOk(cfg, irqs) && q in irqs
    ensures q.numaNode in cfg.nodes
  {
  }

  /** The preferred node if it is usable, at a load of one more; else a best node. */
  ghost predicate NodeChosen(cfg: Config, st: State, q: IrqInfo, n: TopoObj, extra: nat)
    requires q in st.irqs
  {
    if q.numaNode.number != -1 && exists cpu :: cpu in q.numaNode.mask && cpu !in cfg.banned
    then n == q.numaNode && extra == st.irqs[q].load + 1
    else
      && extra == st.irqs[q].load && n in st.objs && Eligible(cfg, st, q, n)
      && forall e | e in cfg.nodes && e in st.objs && Eligible(cfg, st, q, e) :: AsGood(st, n, e)
  }

  lemma NodeTargetIs(cfg: Config, st: State, q: IrqInfo)
    requires Inv(cfg, st) && q in st.irqs && q in st.rebalance && PlaceInNodeSafe(cfg, st, q)
    ensures st.irqs[q].owner == null && q.level != BalanceNone
    ensures var (n, extra) := NodeTarget(cfg, st, q);
      if n == null then NoNode(cfg, q)
      else n in cfg.nodes && n in st.objs && n.kind == ObjNode && !st.objs[n].powersave && NodeChosen(cfg, st, q, n, extra)
  {
    hide TreeOk, Inv, Choice, Owned, Known, IrqsOk, AllFitting, Ready, ScanOk;
    InvParts(cfg, st);
    WaitingIs(st, q);
    HasNode(cfg, st.irqs.Keys, q);
    LayerKnown(cfg, st.objs.Keys, ObjNode);
    assert cfg.nodes == Layer(cfg, ObjNode);
    if !Preferred(cfg, q) {
      ChoiceIsBest(cfg, st, q, cfg.nodes);
    }
  }

  /** A waiting IRQ goes to its usable preferred node, or to the best node, if there is one. */
  lemma PlaceInNodeDoes(cfg: Config, st: State, q: IrqInfo) returns (n: TopoObj?, extra: nat)
    requires Inv(cfg, st) && q in st.irqs && q in st.rebalance && PlaceInNodeSafe(cfg, st, q)
    ensures Inv(cfg, PlaceInNode(cfg, st, q))
    ensures n == null ==> PlaceInNode(cfg, st, q) == st && NoNode(cfg, q)
    ensures n != null ==>
      && n in cfg.nodes && n in st.objs && n.kind == ObjNode && NodeChosen(cfg, st, q, n, extra)
      && MovedTo(st, PlaceInNode(cfg, st, q), Waiting, On(n), q, extra)
  {
    hide TreeOk, IrqsOk, Owned, Assign, Known, Inv, NodeTarget, MovedTo, AllFitting, PowerOk, Ready, NoNode, PlaceInNodeSafe;
    InvParts(cfg, st);
    NodeTargetIs(cfg, st, q);
    n, extra := NodeTarget(cfg, st, q).0, NodeTarget(cfg, st, q).1;
    if n != null {
      AssignMoves(st, Waiting, n, q, extra);
      MoveKeepsInv(cfg, st, PlaceInNode(cfg, st, q), Waiting, n, q, extra);
    }
  }

  // ---- the loop over an object's IRQs ----

  /** q is on d, ready to be considered once. */
  ghost predicate OnObject(st: State, d: TopoObj, qs: seq<IrqInfo>) {
    NoDup(qs) && forall i | 0 <= i < |qs| :: qs[i] in st.irqs && st.irqs[qs[i]].owner == d
  }

  /** Powersave modes, and the loads and counts of IRQs are as before. */
  ghost predicate SameFrame(st: State, st': State) {
    && st'.objs.Keys == st.objs.Keys && st'.irqs.Keys == st.irqs.Keys
    && (forall o | o in st.objs :: st'.objs[o].powersave == st.objs[o].powersave)
    && (forall q | q in st.irqs :: st'.irqs[q].load == st.irqs[q].load)
    && (forall q | q in st.irqs :: st'.irqs[q].irqCount == st.irqs[q].irqCount && st'.irqs[q].lastIrqCount == st.irqs[q].lastIrqCount)
  }

  /** A node that IRQs may be put on: it has an unbanned CPU, and is not the
      unspecified node of a machine with NUMA. */
  ghost predicate UsableNode(cfg: Config, node: TopoObj) {
    !(node.mask <= cfg.banned) && !(cfg.numaAvail && node.number == -1)
  }

  ghost predicate IdleNode(cfg: Config, o: TopoObj) {
    o.kind == ObjNode && !UsableNode(cfg, o)
  }

  /** Nodes that are not used keep their loads. */
  ghost predicate IdleKept(cfg: Config, st: State, st': State) {
    && st'.objs.Keys == st.objs.Keys
    && forall o | o in st.objs && IdleNode(cfg, o) :: st'.objs[o].load == st.objs[o].load
  }

  /** q went down from d to a child that suits it. */
  ghost predicate WentTo(cfg: Config, d: TopoObj, q: IrqInfo, o: TopoObj?)
    requires d in cfg.children
  {
    o != null && o in cfg.children[d] && Suits(cfg, q, o)
  }

  /** The outcome of pushing the IRQs qs down from d. */
  ghost predicate Pushed(cfg: Config, st: State, st': State, d: TopoObj, qs: seq<IrqInfo>)
    requires SameFrame(st, st') && d in cfg.children && forall c | c in cfg.children[d] :: c in st.objs
  {
    && (forall q | q in st.irqs && q !in qs :: st'.irqs[q] == st.irqs[q])
    && (forall q | q in st.irqs && q in qs ::
          || (st'.irqs[q] == st.irqs[q] && Stays(cfg, st, d, q))
          || (st'.irqs[q].moved && WentTo(cfg, d, q, st'.irqs[q].owner)))
    && st'.rebalance == st.rebalance && IdleKept(cfg, st, st')
  }

  lemma SameTakers(cfg: Config, st: State, st': State, d: TopoObj, q: IrqInfo)
    requires SameFrame(st, st') && d in cfg.children && (forall c | c in cfg.children[d] :: c in st.objs) && q in st.irqs
    requires st'.irqs[q] == st.irqs[q]
    ensures Stays(cfg, st, d, q) <==> Stays(cfg, st', d, q)
  {
  }

  lemma PushedMoved(cfg: Config, st: State, st1: State, d: TopoObj, c: TopoObj, q: IrqInfo)
    requires q in st.irqs && d in cfg.children && (forall e | e in cfg.children[d] :: e in st.objs) && c in cfg.children[d]
    requires st1.irqs == st.irqs[q := st.irqs[q].(moved := true, owner := c)]
    requires st1.objs.Keys == st.objs.Keys && st1.rebalance == st.rebalance
    requires forall o | o in st.objs :: st1.objs[o].powersave == st.objs[o].powersave
    requires forall o | o in st.objs && o != c :: st1.objs[o].load == st.objs[o].load
    requires Suits(cfg, q, c) && c.kind != ObjNode
    ensures SameFrame(st, st1) && Pushed(cfg, st, st1, d, [q])
  {
    assert q in [q];
  }

  lemma PushOne(cfg: Config, st: State, d: TopoObj, q: IrqInfo, st1: State)
    requires Inv(cfg, st) && d in st.objs && q in st.irqs && st.irqs[q].owner == d && st1 == PlaceIrq(cfg, st, d, q)
    requires PlaceIrqSafe(cfg, st, d, q)
    ensures d in cfg.children && forall c | c in cfg.children[d] :: c in st.objs
    ensures Inv(cfg, st1) && SameFrame(st, st1) && Pushed(cfg, st, st1, d, [q])
  {
    hide Inv, Stays, PlaceIrq, MovedTo, Ready, PlaceIrqSafe;
    var c := PlaceIrqDoes(cfg, st, d, q);
    if c != null {
      MovedParts(st, st1, On(d), On(c), q, st.irqs[q].load);
      assert forall o | o in st.objs && o != c :: On(o) != On(c);
      PushedMoved(cfg, st, st1, d, c, q);
    } else {
      assert q in [q];
    }
  }

  lemma OnObjectRest(cfg: Config, st: State, st1: State, d: TopoObj, qs: seq<IrqInfo>)
    requires d in cfg.children && (forall c | c in cfg.children[d] :: c in st.objs)
    requires qs != [] && OnObject(st, d, qs) && SameFrame(st, st1) && Pushed(cfg, st, st1, d, [qs[0]])
    ensures OnObject(st1, d, qs[1..]) && qs[0] !in qs[1..]
  {
  }

  lemma PlaceIrqsStep(cfg: Config, st: State, d: TopoObj, qs: seq<IrqInfo>)
    requires Ready(cfg, st) && d in st.objs && qs != [] && forall q | q in qs :: q in st.irqs
    ensures PlaceIrqs(cfg, st, d, qs) == PlaceIrqs(cfg, PlaceIrq(cfg, st, d, qs[0]), d, qs[1..])
    ensures PlaceIrqsSafe(cfg, st, d, qs) ==>
      PlaceIrqSafe(cfg, st, d, qs[0]) && PlaceIrqsSafe(cfg, PlaceIrq(cfg, st, d, qs[0]), d, qs[1..])
  {
    hide Ready, PlaceIrq, PlaceIrqSafe;
  }

  lemma PushNone(cfg: Config, st: State, d: TopoObj)
    requires Ready(cfg, st) && d in st.objs && d in cfg.children && forall c | c in cfg.children[d] :: c in st.objs
    ensures PlaceIrqs(cfg, st, d, []) == st && SameFrame(st, st) && Pushed(cfg, st, st, d, [])
  {
  }

  lemma OnObjectFirst(st: State, d: TopoObj, qs: seq<IrqInfo>)
    requires OnObject(st, d, qs) && qs != []
    ensures qs[0] in st.irqs && st.irqs[qs[0]].owner == d
  {
  }

  lemma {:induction false} PushAll(cfg: Config, st: State, d: TopoObj, qs: seq<IrqInfo>, st2: State)
    requires Inv(cfg, st) && d in st.objs && OnObject(st, d, qs)
    requires (forall q | q in qs :: q in st.irqs) && st2 == PlaceIrqs(cfg, st, d, qs) && PlaceIrqsSafe(cfg, st, d, qs)
    ensures d in cfg.children && forall c | c in cfg.children[d] :: c in st.objs
    ensures Inv(cfg, st2) && SameFrame(st, st2) && Pushed(cfg, st, st2, d, qs)
    decreases |qs|
  {
    hide *;
    KeysFromInv(cfg, st, d);
    InvParts(cfg, st);
    if qs == [] {
      PushNone(cfg, st, d);
      return;
    }
    var q, rest := qs[0], qs[1..];
    var st1 := PlaceIrq(cfg, st, d, q);
    PlaceIrqsStep(cfg, st, d, qs);
    OnObjectFirst(st, d, qs);
    PushOne(cfg, st, d, q, st1);
    OnObjectRest(cfg, st, st1, d, qs);
    PushAll(cfg, st1, d, rest, st2);
    FrameKeys(st, st1);
    PushedBoth(cfg, st, st1, st2, d, q, rest);
    assert [q] + rest == qs;
  }

  lemma FrameKeys(st: State, st': State)
    requires SameFrame(st, st')
    ensures st'.objs.Keys == st.objs.Keys && st'.irqs.Keys == st.irqs.Keys
  {
  }

  lemma KeysFromInv(cfg: Config, st: State, d: TopoObj)
    requires Inv(cfg, st) && d in st.objs
    ensures d in cfg.children && forall c | c in cfg.children[d] :: c in st.objs && c != d && c.kind.Depth() == d.kind.Depth() + 1
  {
    hide TreeOk, Inv;
    InvParts(cfg, st);
    KeysOfChildren(cfg, st.objs.Keys);
    ChildrenKnown(cfg, st.objs.Keys, d);
  }

  lemma PushedBoth(cfg: Config, st: State, st1: State, st2: State, d: TopoObj, q: IrqInfo, rest: seq<IrqInfo>)
    requires SameFrame(st, st1) && SameFrame(st1, st2) && d in cfg.children && forall c | c in cfg.children[d] :: c in st.objs
    requires q !in rest && q in st.irqs
    requires Pushed(cfg, st, st1, d, [q]) && Pushed(cfg, st1, st2, d, rest)
    ensures SameFrame(st, st2) && Pushed(cfg, st, st2, d, [q] + rest)
  {
    forall x | x in st.irqs && x in [q] + rest
      ensures (st2.irqs[x] == st.irqs[x] && Stays(cfg, st, d, x)) || (st2.irqs[x].moved && WentTo(cfg, d, x, st2.irqs[x].owner))
    {
      if x != q {
        assert st1.irqs[x] == st.irqs[x];
        SameTakers(cfg, st, st1, d, x);
      } else {
        assert q in [q];
      }
    }
  }

  /** The outcome of place_irq_in_object. */
  ghost predicate ObjectDone(cfg: Config, st: State, st': State, d: TopoObj)
    requires SameFrame(st, st') && d in cfg.children && forall c | c in cfg.children[d] :: c in st.objs
  {
    && (forall q | q in st.irqs && st.irqs[q].owner != d :: st'.irqs[q] == st.irqs[q])
    && (forall q | q in st.irqs && st.irqs[q].owner == d ::
          || (st'.irqs[q] == st.irqs[q] && Stays(cfg, st, d, q))
          || (st'.irqs[q].moved && WentTo(cfg, d, q, st'.irqs[q].owner)))
    && st'.rebalance == st.rebalance && IdleKept(cfg, st, st')
  }

  lemma ListIsOnObject(cfg: Config, st: State, d: TopoObj)
    requires Inv(cfg, st) && d in st.objs
    ensures OnObject(st, d, st.objs[d].interrupts)
    ensures forall q | q in st.irqs :: q in st.objs[d].interrupts <==> st.irqs[q].owner == d
  {
    assert ListOk(st, st.objs[d].interrupts);
    forall q | q in st.irqs
      ensures q in st.objs[d].interrupts <==> st.irqs[q].owner == d
    {
      assert OwnedIrq(st, q);
    }
  }

  lemma PlaceObjectDoes(cfg: Config, st: State, d: TopoObj, st': State)
    requires Inv(cfg, st) && d in st.objs && st' == PlaceObject(cfg, st, d) && PlaceObjectSafe(cfg, st, d)
    ensures d in cfg.children && forall c | c in cfg.children[d] :: c in st.objs && c.kind.Depth() == d.kind.Depth() + 1
    ensures Inv(cfg, st') && SameFrame(st, st') && ObjectDone(cfg, st, st', d)
  {
    hide *;
    ListIsOnObject(cfg, st, d);
    KeysFromInv(cfg, st, d);
    InvParts(cfg, st);
    KnownList(st, d);
    PlaceObjectIs(cfg, st, d);
    PushAll(cfg, st, d, st.objs[d].interrupts, st');
    PushedIsDone(cfg, st, st', d);
  }

  lemma KnownList(st: State, d: TopoObj)
    requires Known(st) && d in st.objs
    ensures forall q | q in st.objs[d].interrupts :: q in st.irqs
  {
  }

  lemma PlaceObjectIs(cfg: Config, st: State, d: TopoObj)
    requires Ready(cfg, st) && d in st.objs
    ensures forall q | q in st.objs[d].interrupts :: q in st.irqs
    ensures PlaceObject(cfg, st, d) == PlaceIrqs(cfg, st, d, st.objs[d].interrupts)
    ensures PlaceObjectSafe(cfg, st, d) <==> PlaceIrqsSafe(cfg, st, d, st.objs[d].interrupts)
  {
  }

  lemma PushedIsDone(cfg: Config, st: State, st': State, d: TopoObj)
    requires SameFrame(st, st') && d in cfg.children && (forall c | c in cfg.children[d] :: c in st.objs) && d in st.objs
    requires forall q | q in st.irqs :: q in st.objs[d].interrupts <==> st.irqs[q].owner == d
    requires Pushed(cfg, st, st', d, st.objs[d].interrupts)
    ensures ObjectDone(cfg, st, st', d)
  {
  }

  // ---- the loops over a layer ----

  /** An IRQ is as before or has moved; a node that has it now had it before, or is
      usable and the one the IRQ prefers, if it can; an object with no child for it keeps
      it; and unusable nodes get no load. */
  ghost predicate Followed(cfg: Config, st: State, st': State) {
    && st'.irqs.Keys == st.irqs.Keys && IdleKept(cfg, st, st')
    && (forall q | q in st.irqs :: st'.irqs[q] == st.irqs[q] || st'.irqs[q].moved)
    && (forall q | q in st.irqs && st'.irqs[q].owner != null && st'.irqs[q].owner.kind == ObjNode ::
          || st'.irqs[q].owner == st.irqs[q].owner
          || (UsableNode(cfg, st'.irqs[q].owner) && (Preferred(cfg, q) ==> st'.irqs[q].owner == q.numaNode)))
    && (forall q | q in st.irqs && st.irqs[q].owner != null && NoChildSuits(cfg, st.irqs[q].owner, q) ::
          st'.irqs[q].owner == st.irqs[q].owner)
  }

  /** None of the object's children will ever take q. */
  ghost predicate NoChildSuits(cfg: Config, d: TopoObj, q: IrqInfo) {
    d in cfg.children && forall c | c in cfg.children[d] :: !Suits(cfg, q, c)
  }

  lemma FollowedSame(cfg: Config, st: State)
    ensures Followed(cfg, st, st)
  {
  }

  lemma FollowedBoth(cfg: Config, st: State, st1: State, st2: State)
    requires Followed(cfg, st, st1) && Followed(cfg, st1, st2)
    ensures Followed(cfg, st, st2)
  {
  }

  lemma DoneFollowed(cfg: Config, st: State, st': State, d: TopoObj)
    requires SameFrame(st, st') && d in cfg.children
    requires forall c | c in cfg.children[d] :: c in st.objs && c.kind.Depth() == d.kind.Depth() + 1
    requires ObjectDone(cfg, st, st', d)
    ensures Followed(cfg, st, st')
  {
    hide Stays;
  }

  /** An IRQ on an object is unmoved, at its level, or has no child to go to. */
  ghost predicate Settled(cfg: Config, st: State, q: IrqInfo)
    requires q in st.irqs
  {
    var o := st.irqs[q].owner;
    o != null ==> o in cfg.children && (forall c | c in cfg.children[o] :: c in st.objs) && Stays(cfg, st, o, q)
  }

  ghost predicate SettledIn(cfg: Config, st: State, ds: seq<TopoObj>) {
    forall q | q in st.irqs && st.irqs[q].owner in ds :: Settled(cfg, st, q)
  }

  /** Everything above a depth is settled. */
  ghost predicate SettledAbove(cfg: Config, st: State, depth: nat) {
    forall q | q in st.irqs && st.irqs[q].owner != null && st.irqs[q].owner.kind.Depth() < depth :: Settled(cfg, st, q)
  }

  lemma SettledSame(cfg: Config, st: State, st': State, q: IrqInfo)
    requires SameFrame(st, st') && q in st.irqs && st'.irqs[q] == st.irqs[q] && Settled(cfg, st, q)
    ensures Settled(cfg, st', q)
  {
    if st.irqs[q].owner != null {
      SameTakers(cfg, st, st', st.irqs[q].owner, q);
    }
  }

  /** Pushing down from one object settles it and disturbs nothing at or above its depth. */
  lemma ObjectSettles(cfg: Config, st: State, st': State, d: TopoObj, done: seq<TopoObj>, depth: nat)
    requires d in cfg.children && (forall c | c in cfg.children[d] :: c in st.objs && c.kind.Depth() == d.kind.Depth() + 1)
    requires SameFrame(st, st') && ObjectDone(cfg, st, st', d) && d.kind.Depth() == depth
    requires forall o | o in done :: o.kind.Depth() == depth
    requires SettledAbove(cfg, st, depth) && SettledIn(cfg, st, done)
    ensures SettledAbove(cfg, st', depth) && SettledIn(cfg, st', done + [d])
  {
    forall q | q in st'.irqs && st'.irqs[q].owner != null
               && (st'.irqs[q].owner.kind.Depth() < depth || st'.irqs[q].owner in done + [d])
      ensures Settled(cfg, st', q)
    {
      assert st'.irqs[q] == st.irqs[q];
      if st.irqs[q].owner == d {
        SameTakers(cfg, st, st', d, q);
      } else {
        SettledSame(cfg, st, st', q);
      }
    }
  }

  lemma {:induction false} ObjectsSettle(cfg: Config, st: State, ds: seq<TopoObj>, done: seq<TopoObj>, depth: nat, st2: State)
    requires Inv(cfg, st) && (forall d | d in ds :: d in st.objs) && st2 == PlaceObjects(cfg, st, ds) && PlaceObjectsSafe(cfg, st, ds)
    requires (forall d | d in ds :: d.kind.Depth() == depth) && (forall d | d in done :: d.kind.Depth() == depth)
    requires SettledAbove(cfg, st, depth) && SettledIn(cfg, st, done)
    ensures Inv(cfg, st2) && SameFrame(st, st2) && st2.rebalance == st.rebalance && Followed(cfg, st, st2)
    ensures SettledAbove(cfg, st2, depth) && SettledIn(cfg, st2, done + ds)
    decreases |ds|
  {
    hide *;
    InvParts(cfg, st);
    if ds == [] {
      NoObjects(cfg, st);
      FollowedSame(cfg, st);
      assert done + ds == done;
      return;
    }
    var d := ds[0];
    var st1 := PlaceObject(cfg, st, d);
    PlaceObjectsStep(cfg, st, ds);
    PlaceObjectDoes(cfg, st, d, st1);
    ObjectSettles(cfg, st, st1, d, done, depth);
    FrameKeys(st, st1);
    DoneWaiting(cfg, st, st1, d);
    DoneFollowed(cfg, st, st1, d);
    ObjectsSettle(cfg, st1, ds[1..], done + [d], depth, st2);
    FrameBoth(st, st1, st2);
    FollowedBoth(cfg, st, st1, st2);
    assert done + [d] + ds[1..] == done + ds;
  }

  lemma NoObjects(cfg: Config, st: State)
    requires Ready(cfg, st)
    ensures PlaceObjects(cfg, st, []) == st && SameFrame(st, st)
  {
  }

  lemma PlaceObjectsStep(cfg: Config, st: State, ds: seq<TopoObj>)
    requires Ready(cfg, st) && ds != [] && forall d | d in ds :: d in st.objs
    ensures PlaceObjects(cfg, st, ds) == PlaceObjects(cfg, PlaceObject(cfg, st, ds[0]), ds[1..])
    ensures PlaceObjectsSafe(cfg, st, ds) ==>
      PlaceObjectSafe(cfg, st, ds[0]) && PlaceObjectsSafe(cfg, PlaceObject(cfg, st, ds[0]), ds[1..])
  {
    hide Ready, PlaceObject, PlaceObjectSafe;
  }

  lemma DoneWaiting(cfg: Config, st: State, st': State, d: TopoObj)
    requires SameFrame(st, st') && d in cfg.children && (forall c | c in cfg.children[d] :: c in st.objs)
    requires ObjectDone(cfg, st, st', d)
    ensures st'.rebalance == st.rebalance
  {
  }

  lemma FrameBoth(st: State, st1: State, st2: State)
    requires SameFrame(st, st1) && SameFrame(st1, st2)
    ensures SameFrame(st, st2)
  {
  }

  /** One layer: what was settled above it stays settled, and the layer itself is settled. */
  lemma LayerSettles(cfg: Config, st: State, kind: Kind, st': State)
    requires Inv(cfg, st) && st' == PlaceLayer(cfg, st, kind) && SettledAbove(cfg, st, kind.Depth()) && PlaceLayerSafe(cfg, st, kind)
    ensures Inv(cfg, st') && SameFrame(st, st') && st'.rebalance == st.rebalance && Followed(cfg, st, st')
    ensures SettledAbove(cfg, st', kind.Depth() + 1)
  {
    hide Inv, Ready, TreeOk, SettledAbove, PlaceObjects, SameFrame, Settled, PlaceObjectsSafe, Followed;
    InvParts(cfg, st);
    LayerKnown(cfg, st.objs.Keys, kind);
    ObjectsSettle(cfg, st, Layer(cfg, kind), [], kind.Depth(), st');
    assert [] + Layer(cfg, kind) == Layer(cfg, kind);
    InvParts(cfg, st');
    WholeLayer(cfg, st', kind);
  }

  lemma WholeLayer(cfg: Config, st: State, kind: Kind)
    requires TreeOk(cfg, st.objs.Keys) && Owned(st)
    requires SettledAbove(cfg, st, kind.Depth()) && SettledIn(cfg, st, Layer(cfg, kind))
    ensures SettledAbove(cfg, st, kind.Depth() + 1)
  {
    hide Settled, TreeOk, Owned;
    forall q | q in st.irqs && st.irqs[q].owner != null && st.irqs[q].owner.kind.Depth() < kind.Depth() + 1
      ensures Settled(cfg, st, q)
    {
      OwnerInLayer(cfg, st, q);
      KindAtDepth(st.irqs[q].owner.kind, kind);
    }
  }

  lemma OwnerInLayer(cfg: Config, st: State, q: IrqInfo)
    requires TreeOk(cfg, st.objs.Keys) && Owned(st) && q in st.irqs && st.irqs[q].owner != null
    ensures st.irqs[q].owner in Layer(cfg, st.irqs[q].owner.kind)
  {
    hide LinksOk, MasksOk;
    assert OwnedIrq(st, q);
  }

  lemma KindAtDepth(a: Kind, b: Kind)
    ensures a.Depth() == b.Depth() ==> a == b
  {
  }

  // ---- the waiting list ----

  ghost predicate AllWaiting(st: State, qs: seq<IrqInfo>) {
    NoDup(qs) && forall i | 0 <= i < |qs| :: qs[i] in st.irqs && qs[i] in st.rebalance
  }

  /** Those of qs that still wait have no node to go to; others are untouched. */
  ghost predicate Noded(cfg: Config, st: State, st': State, qs: seq<IrqInfo>)
    requires SameFrame(st, st')
  {
    && IdleKept(cfg, st, st')
    && (forall q | q in st.irqs && q !in qs ::
          st'.irqs[q] == st.irqs[q] && (q in st'.rebalance <==> q in st.rebalance))
    && (forall q | q in st.irqs && q in qs && q in st'.rebalance :: NoNode(cfg, q))
    && (forall q | q in st.irqs && q in qs :: st'.irqs[q] == st.irqs[q] || st'.irqs[q].moved)
    && (forall q | q in st.irqs && q in qs :: st.irqs[q].owner == null)
    && (forall q | q in st.irqs && q in qs && q !in st'.rebalance ::
          && st'.irqs[q].owner in cfg.nodes && UsableNode(cfg, st'.irqs[q].owner)
          && (Preferred(cfg, q) ==> st'.irqs[q].owner == q.numaNode))
    && (forall q | q in st.irqs && q in qs && q in st'.rebalance :: st'.irqs[q] == st.irqs[q])
  }

  lemma ChosenUsable(cfg: Config, st: State, q: IrqInfo, n: TopoObj, extra: nat)
    requires q in st.irqs && n.kind == ObjNode && NodeChosen(cfg, st, q, n, extra)
    ensures UsableNode(cfg, n) && (Preferred(cfg, q) ==> n == q.numaNode)
  {
  }

  lemma NodedMoved(cfg: Config, st: State, st1: State, q: IrqInfo, n: TopoObj)
    requires q in st.irqs && st.irqs[q].owner == null && n in cfg.nodes && UsableNode(cfg, n)
    requires Preferred(cfg, q) ==> n == q.numaNode
    requires st1.irqs == st.irqs[q := st.irqs[q].(moved := true, owner := n)] && st1.objs.Keys == st.objs.Keys
    requires forall o | o in st.objs && o != n :: st1.objs[o].load == st.objs[o].load
    requires forall o | o in st.objs :: st1.objs[o].powersave == st.objs[o].powersave
    requires forall x | x in st.irqs :: x in st1.rebalance <==> x in st.rebalance && x != q
    ensures SameFrame(st, st1) && Noded(cfg, st, st1, [q])
  {
    hide NoNode, Preferred;
    assert q in [q];
  }

  lemma NodedNot(cfg: Config, st: State, q: IrqInfo)
    requires q in st.irqs && st.irqs[q].owner == null && q in st.rebalance && NoNode(cfg, q)
    ensures SameFrame(st, st) && Noded(cfg, st, st, [q])
  {
    hide NoNode, Preferred;
  }

  lemma NodeOne(cfg: Config, st: State, q: IrqInfo, st1: State)
    requires Inv(cfg, st) && q in st.irqs && q in st.rebalance && st1 == PlaceInNode(cfg, st, q) && PlaceInNodeSafe(cfg, st, q)
    ensures Inv(cfg, st1) && SameFrame(st, st1) && Noded(cfg, st, st1, [q])
  {
    hide Inv, PlaceInNode, MovedTo, Ready, NoNode, PlaceInNodeSafe, Owned, Noded, NodeChosen, Preferred, UsableNode;
    InvParts(cfg, st);
    WaitingIs(st, q);
    var n, extra := PlaceInNodeDoes(cfg, st, q);
    if n != null {
      MovedParts(st, st1, Waiting, On(n), q, extra);
      MovedFrom(st, st1, Waiting, On(n), q, extra);
      ChosenUsable(cfg, st, q, n, extra);
      assert forall o | o in st.objs && o != n :: On(o) != On(n);
      NodedMoved(cfg, st, st1, q, n);
    } else {
      NodedNot(cfg, st, q);
    }
  }

  lemma MovedFrom(st: State, st': State, from: Loc, to: Loc, q: IrqInfo, extra: nat)
    requires LocOk(st, from) && LocOk(st, to) && q in st.irqs && MovedTo(st, st', from, to, q, extra)
    ensures st'.objs.Keys == st.objs.Keys
    ensures forall x | x in st.irqs :: x in ListAt(st', from) <==> x in ListAt(st, from) && x != q
  {
  }

  lemma NodedBoth(cfg: Config, st: State, st1: State, st2: State, q: IrqInfo, rest: seq<IrqInfo>)
    requires SameFrame(st, st1) && SameFrame(st1, st2) && q !in rest && q in st.irqs
    requires Noded(cfg, st, st1, [q]) && Noded(cfg, st1, st2, rest)
    ensures SameFrame(st, st2) && Noded(cfg, st, st2, [q] + rest)
  {
    hide NoNode;
    assert q in [q];
  }

  lemma WaitingRest(cfg: Config, st: State, st1: State, qs: seq<IrqInfo>)
    requires qs != [] && AllWaiting(st, qs) && SameFrame(st, st1) && Noded(cfg, st, st1, [qs[0]])
    ensures AllWaiting(st1, qs[1..]) && qs[0] !in qs[1..]
  {
  }

  lemma WaitingFirst(st: State, qs: seq<IrqInfo>)
    requires AllWaiting(st, qs) && qs != []
    ensures qs[0] in st.irqs && qs[0] in st.rebalance
  {
  }

  lemma PlaceInNodesStep(cfg: Config, st: State, qs: seq<IrqInfo>)
    requires Ready(cfg, st) && qs != [] && forall q | q in qs :: q in st.irqs
    ensures PlaceInNodes(cfg, st, qs) == PlaceInNodes(cfg, PlaceInNode(cfg, st, qs[0]), qs[1..])
    ensures PlaceInNodesSafe(cfg, st, qs) ==>
      PlaceInNodeSafe(cfg, st, qs[0]) && PlaceInNodesSafe(cfg, PlaceInNode(cfg, st, qs[0]), qs[1..])
  {
    hide Ready, PlaceInNode, PlaceInNodeSafe;
  }

  lemma NoWaiting(cfg: Config, st: State)
    requires Ready(cfg, st)
    ensures PlaceInNodes(cfg, st, []) == st && SameFrame(st, st) && Noded(cfg, st, st, [])
  {
  }

  lemma {:induction false} NodeAll(cfg: Config, st: State, qs: seq<IrqInfo>, st2: State)
    requires Inv(cfg, st) && AllWaiting(st, qs)
    requires (forall q | q in qs :: q in st.irqs) && st2 == PlaceInNodes(cfg, st, qs) && PlaceInNodesSafe(cfg, st, qs)
    ensures Inv(cfg, st2) && SameFrame(st, st2) && Noded(cfg, st, st2, qs)
    decreases |qs|
  {
    hide *;
    InvParts(cfg, st);
    if qs == [] {
      NoWaiting(cfg, st);
      return;
    }
    var q, rest := qs[0], qs[1..];
    var st1 := PlaceInNode(cfg, st, q);
    PlaceInNodesStep(cfg, st, qs);
    WaitingFirst(st, qs);
    NodeOne(cfg, st, q, st1);
    WaitingRest(cfg, st, st1, qs);
    NodeAll(cfg, st1, rest, st2);
    NodedBoth(cfg, st, st1, st2, q, rest);
    assert [q] + rest == qs;
  }

  lemma NodedFollowed(cfg: Config, st: State, st': State, qs: seq<IrqInfo>)
    requires SameFrame(st, st') && Noded(cfg, st, st', qs)
    ensures Followed(cfg, st, st')
  {
    hide NoNode;
  }

  // ---- a whole placement ----

  lemma SortKeepsInv(cfg: Config, st: State, st0: State)
    requires Inv(cfg, st) && st0 == SortWaiting(cfg, st)
    ensures Inv(cfg, st0) && st0.irqs == st.irqs && st0.objs == st.objs
    ensures AllWaiting(st0, st0.rebalance) && HeaviestFirst(st.irqs, st0.rebalance)
    ensures multiset(st0.rebalance) == multiset(st.rebalance)
    ensures forall q | q in st.irqs :: q in st0.rebalance <==> q in st.rebalance
    ensures |st0.rebalance| == |st.rebalance|
  {
    hide SortIrqs, HeaviestFirst, Inv, Ready, TreeOk, IrqsOk, Known;
    InvParts(cfg, st);
    SortIrqsPermutes(st.irqs, st.rebalance);
    WaitingWithin(st);
    SortIrqsOrders(st.irqs, st.rebalance);
    PermutedList(st.rebalance, st0.rebalance);
    SortedOwned(st, st0);
    MakeInv(cfg, st0);
  }

  lemma WaitingWithin(st: State)
    requires Owned(st)
    ensures Within(st.rebalance, st.irqs.Keys)
  {
    assert ListOk(st, st.rebalance);
  }

  // ---- the order in which IRQs are placed ----

  /** Where an IRQ placed in a node stands: at the end of the node's list. */
  lemma PlacedLast(cfg: Config, st: State, q: IrqInfo, st1: State, node: TopoObj)
    requires Inv(cfg, st) && q in st.irqs && q in st.rebalance && st1 == PlaceInNode(cfg, st, q) && PlaceInNodeSafe(cfg, st, q)
    requires node in st.objs
    ensures node in st1.objs && (st1.objs[node].interrupts == st.objs[node].interrupts
                                 || st1.objs[node].interrupts == st.objs[node].interrupts + [q])
  {
    hide Inv, PlaceInNode, Ready, NoNode, PlaceInNodeSafe, NodeChosen;
    var n, extra := PlaceInNodeDoes(cfg, st, q);
    if n != null {
      assert On(node) == On(n) <==> node == n;
    }
  }

  /** The IRQs a node gets join its list in the order they are placed in. */
  lemma {:induction false} PlacedInOrder(cfg: Config, st: State, qs: seq<IrqInfo>, st2: State, node: TopoObj, had: seq<IrqInfo>, got: seq<IrqInfo>)
    returns (got2: seq<IrqInfo>)
    requires Inv(cfg, st) && AllWaiting(st, qs) && node in st.objs
    requires (forall q | q in qs :: q in st.irqs) && st2 == PlaceInNodes(cfg, st, qs) && PlaceInNodesSafe(cfg, st, qs)
    requires st.objs[node].interrupts == had + got && HeaviestFirst(st.irqs, got + qs)
    ensures node in st2.objs && st2.objs[node].interrupts == had + got2 && HeaviestFirst(st2.irqs, got2)
    decreases |qs|
  {
    hide *;
    InvParts(cfg, st);
    if qs == [] {
      NoWaiting(cfg, st);
      got2 := got;
      assert got + [] == got;
      return;
    }
    var q, rest := qs[0], qs[1..];
    var st1 := PlaceInNode(cfg, st, q);
    PlaceInNodesStep(cfg, st, qs);
    WaitingFirst(st, qs);
    NodeOne(cfg, st, q, st1);
    PlacedLast(cfg, st, q, st1, node);
    WaitingRest(cfg, st, st1, qs);
    FrameKeys(st, st1);
    FrameLoad(st, st1);
    assert got + qs == got + ([q] + rest);
    if st1.objs[node].interrupts == st.objs[node].interrupts {
      DropHeaviestFirst(st.irqs, got, q, rest);
      StillHeaviestFirst(st.irqs, st1.irqs, got + rest);
      got2 := PlacedInOrder(cfg, st1, rest, st2, node, had, got);
    } else {
      assert (had + got) + [q] == had + (got + [q]) && (got + [q]) + rest == got + ([q] + rest);
      StillHeaviestFirst(st.irqs, st1.irqs, got + ([q] + rest));
      got2 := PlacedInOrder(cfg, st1, rest, st2, node, had, got + [q]);
    }
  }

  lemma FrameLoad(st: State, st': State)
    requires SameFrame(st, st')
    ensures st'.irqs.Keys == st.irqs.Keys && forall q | q in st.irqs :: st'.irqs[q].load == st.irqs[q].load
  {
  }

  /** calculate_placement takes the waiting IRQs heaviest first: each node gets its IRQs in
      that order behind those it had, and pushes them down in the order of its list. */
  lemma NodesGetInOrder(cfg: Config, st: State, st0: State, st1: State, node: TopoObj) returns (got: seq<IrqInfo>)
    requires Inv(cfg, st) && st.rebalance != [] && PlacementSafe(cfg, st) && node in st.objs
    requires st0 == SortWaiting(cfg, st) && (forall q | q in st0.rebalance :: q in st0.irqs) && st1 == PlaceInNodes(cfg, st0, st0.rebalance)
    requires Ready(cfg, st1)
    ensures CalculatePlacement(cfg, st) == PlaceLayer(cfg, PlaceLayer(cfg, PlaceLayer(cfg, st1, ObjNode), ObjPackage), ObjCache)
    ensures multiset(st0.rebalance) == multiset(st.rebalance) && HeaviestFirst(st.irqs, st0.rebalance)
    ensures node in st1.objs && st1.objs[node].interrupts == st.objs[node].interrupts + got && HeaviestFirst(st1.irqs, got)
  {
    hide *;
    InvParts(cfg, st);
    var s0, s1, s2, s3 := PlacementSteps(cfg, st);
    SortKeepsInv(cfg, st, st0);
    assert [] + st0.rebalance == st0.rebalance && st.objs[node].interrupts + [] == st.objs[node].interrupts;
    got := PlacedInOrder(cfg, st0, st0.rebalance, st1, node, st.objs[node].interrupts, []);
  }

  lemma PermutedList(s: seq<IrqInfo>, t: seq<IrqInfo>)
    requires multiset(s) == multiset(t) && NoDup(s)
    ensures NoDup(t)
    ensures forall x | x in s :: x in t
    ensures forall x | x in t :: x in s
  {
    assert forall x | x in s :: x in multiset(t);
    assert forall x | x in t :: x in multiset(s);
    forall i, j | 0 <= i < j < |t|
      ensures t[i] != t[j]
    {
      if t[i] == t[j] {
        TwiceInMultiset(t, i, j);
        OnceInMultiset(s, t[i]);
      }
    }
  }

  lemma TwiceInMultiset(s: seq<IrqInfo>, i: nat, j: nat)
    requires i < j < |s| && s[i] == s[j]
    ensures multiset(s)[s[i]] >= 2
  {
    assert s == s[..j] + s[j..];
    assert s[..j][i] == s[i] && s[j..][0] == s[j];
    assert multiset(s) == multiset(s[..j]) + multiset(s[j..]);
  }

  lemma {:induction false} OnceInMultiset(s: seq<IrqInfo>, x: IrqInfo)
    requires NoDup(s)
    ensures multiset(s)[x] <= 1
  {
    if s != [] {
      assert s == [s[0]] + s[1..];
      OnceInMultiset(s[1..], x);
      if x == s[0] {
        assert x !in s[1..];
      }
    }
  }

  lemma SortedOwned(st: State, st0: State)
    requires Owned(st) && st0 == st.(rebalance := st0.rebalance)
    requires NoDup(st0.rebalance) && (forall x | x in st.rebalance :: x in st0.rebalance)
    requires forall x | x in st0.rebalance :: x in st.rebalance
    ensures Owned(st0) && AllWaiting(st0, st0.rebalance)
  {
    assert ListOk(st, st.rebalance);
    forall i | 0 <= i < |st0.rebalance|
      ensures st0.rebalance[i] in st0.irqs
    {
      assert st0.rebalance[i] in st.rebalance;
    }
    forall o | o in st0.objs
      ensures ListOk(st0, st0.objs[o].interrupts)
    {
      assert ListOk(st, st.objs[o].interrupts);
    }
    forall q | q in st0.irqs
      ensures OwnedIrq(st0, q)
    {
      assert OwnedIrq(st, q);
    }
  }

  lemma NoneSettledYet(cfg: Config, st: State)
    ensures SettledAbove(cfg, st, 0)
  {
  }

  /** The steps of calculate_placement. */
  lemma PlacementSteps(cfg: Config, st: State) returns (st0: State, st1: State, st2: State, st3: State)
    requires Ready(cfg, st) && st.rebalance != []
    ensures st0 == SortWaiting(cfg, st) && Ready(cfg, st0)
    ensures forall q | q in st0.rebalance :: q in st0.irqs
    ensures st1 == PlaceInNodes(cfg, st0, st0.rebalance) && Ready(cfg, st1)
    ensures st2 == PlaceLayer(cfg, st1, ObjNode) && Ready(cfg, st2)
    ensures st3 == PlaceLayer(cfg, st2, ObjPackage) && Ready(cfg, st3)
    ensures CalculatePlacement(cfg, st) == PlaceLayer(cfg, st3, ObjCache)
    ensures PlacementSafe(cfg, st) <==>
      && PlaceInNodesSafe(cfg, st0, st0.rebalance) && PlaceLayerSafe(cfg, st1, ObjNode)
      && PlaceLayerSafe(cfg, st2, ObjPackage) && PlaceLayerSafe(cfg, st3, ObjCache)
  {
    hide SortIrqs, TreeOk, PlaceInNodes, PlaceLayer, PlaceInNodesSafe, PlaceLayerSafe;
    SortIrqsPermutes(st.irqs, st.rebalance);
    st0 := SortWaiting(cfg, st);
    st1 := PlaceInNodes(cfg, st0, st0.rebalance);
    st2 := PlaceLayer(cfg, st1, ObjNode);
    st3 := PlaceLayer(cfg, st2, ObjPackage);
  }

  /** calculate_placement keeps every invariant.  When anything was waiting,
      every moved IRQ that is on an object afterwards is at its level's depth or
      has no child to go to, and an IRQ still waits only if no node will have it. */
  lemma PlacementDescends(cfg: Config, st: State, st': State)
    requires Inv(cfg, st) && st' == CalculatePlacement(cfg, st) && PlacementSafe(cfg, st)
    ensures Inv(cfg, st') && SameFrame(st, st') && Followed(cfg, st, st')
    ensures st.rebalance != [] ==> forall q | q in st'.irqs && st'.irqs[q].owner != null && st'.irqs[q].moved ::
      AtLevel(st'.irqs[q].owner.kind, q.level) || Settled(cfg, st', q)
    ensures forall q | q in st'.irqs && q in st'.rebalance :: NoNode(cfg, q)
    ensures st.rebalance == [] ==> st' == st
  {
    hide *;
    InvParts(cfg, st);
    if st.rebalance == [] {
      NothingWaiting(cfg, st);
      FollowedSame(cfg, st);
      return;
    }
    var st0, st1, st2, st3 := PlacementSteps(cfg, st);
    SortKeepsInv(cfg, st, st0);
    NodeAll(cfg, st0, st0.rebalance, st1);
    NoneSettledYet(cfg, st1);
    DepthOf();
    LayerSettles(cfg, st1, ObjNode, st2);
    LayerSettles(cfg, st2, ObjPackage, st3);
    LayerSettles(cfg, st3, ObjCache, st');
    SortFrame(st, st0);
    FrameBoth(st0, st1, st2);
    FrameBoth(st0, st2, st3);
    FrameBoth(st0, st3, st');
    FrameBoth(st, st0, st');
    NodedFollowed(cfg, st0, st1, st0.rebalance);
    FollowedBoth(cfg, st0, st1, st2);
    FollowedBoth(cfg, st0, st2, st3);
    FollowedBoth(cfg, st0, st3, st');
    SortFollowed(cfg, st, st0, st');
    Waiters(cfg, st0, st1, st');
    SettledAll(cfg, st');
  }

  /** Where the IRQs on objects that have moved are after a placement: packages, caches and CPUs
      have those balanced at that level; and any other IRQ is on an object each child of which
      saves power or has no CPU of the IRQ's SUBSET hint. */
  lemma PlacementEnds(cfg: Config, st: State, st': State, q: IrqInfo)
    requires Inv(cfg, st) && st' == CalculatePlacement(cfg, st) && PlacementSafe(cfg, st) && st.rebalance != []
    requires q in st'.irqs && st'.irqs[q].owner != null && st'.irqs[q].moved
    ensures var o := st'.irqs[q].owner;
      || (q.level == BalancePackage && o.kind == ObjPackage)
      || (q.level == BalanceCache && o.kind == ObjCache)
      || (q.level == BalanceCore && o.kind == ObjCpu)
      || (o in cfg.children && forall c | c in cfg.children[o] ::
            c in st'.objs && (st'.objs[c].powersave || (q.hintPolicy == HintSubset && q.affinityHint != {} && c.mask !! q.affinityHint)))
  {
    hide *;
    PlacementDescends(cfg, st, st');
    InvParts(cfg, st');
    BalancedThere(st', q);
    KeysFromInv(cfg, st', st'.irqs[q].owner);
    EndsWhere(cfg, st', q);
  }

  lemma BalancedThere(st: State, q: IrqInfo)
    requires Owned(st) && q in st.irqs && st.irqs[q].owner != null
    ensures q.level != BalanceNone && st.irqs[q].owner in st.objs
  {
    assert OwnedIrq(st, q);
  }

  lemma EndsWhere(cfg: Config, st: State, q: IrqInfo)
    requires q in st.irqs && st.irqs[q].owner != null && st.irqs[q].moved && q.level != BalanceNone
    requires AtLevel(st.irqs[q].owner.kind, q.level) || Settled(cfg, st, q)
    requires var o := st.irqs[q].owner; o in cfg.children && forall c | c in cfg.children[o] :: c in st.objs && c.kind.Depth() == o.kind.Depth() + 1
    ensures var o := st.irqs[q].owner;
      || (q.level == BalancePackage && o.kind == ObjPackage)
      || (q.level == BalanceCache && o.kind == ObjCache)
      || (q.level == BalanceCore && o.kind == ObjCpu)
      || (forall c | c in cfg.children[o] ::
            st.objs[c].powersave || (q.hintPolicy == HintSubset && q.affinityHint != {} && c.mask !! q.affinityHint))
  {
    var o := st.irqs[q].owner;
    if !AtLevel(o.kind, q.level) {
      forall c | c in cfg.children[o]
        ensures st.objs[c].powersave || (q.hintPolicy == HintSubset && q.affinityHint != {} && c.mask !! q.affinityHint)
      {
        assert !Eligible(cfg, st, q, c) && c.kind != ObjNode;
        assert forall cpu | cpu in c.mask && cpu in q.affinityHint :: cpu in q.affinityHint * c.mask;
      }
    }
  }

  /** A waiting IRQ can only be given this node: it prefers it, or there is no other. */
  ghost predicate Headed(cfg: Config, q: IrqInfo, node: TopoObj) {
    (Preferred(cfg, q) && node == q.numaNode) || (cfg.nodes == [node] && Suits(cfg, q, node))
  }

  /** Where a waiting IRQ that can be given one node only ends, if no child of that takes it. */
  lemma HeadedEnds(cfg: Config, st: State, st': State, q: IrqInfo, node: TopoObj)
    requires Inv(cfg, st) && st' == CalculatePlacement(cfg, st) && PlacementSafe(cfg, st)
    requires q in st.irqs && q in st.rebalance && Headed(cfg, q, node) && NoChildSuits(cfg, node, q)
    ensures q in st'.irqs && st'.irqs[q].owner == node
  {
    hide *;
    InvParts(cfg, st);
    assert st.rebalance != [];
    var st0, st1, st2, st3 := PlacementSteps(cfg, st);
    SortKeepsInv(cfg, st, st0);
    NodeAll(cfg, st0, st0.rebalance, st1);
    NoneSettledYet(cfg, st1);
    DepthOf();
    LayerSettles(cfg, st1, ObjNode, st2);
    LayerSettles(cfg, st2, ObjPackage, st3);
    LayerSettles(cfg, st3, ObjCache, st');
    FollowedBoth(cfg, st1, st2, st3);
    FollowedBoth(cfg, st1, st3, st');
    HeadedNoded(cfg, st0, st1, st', q, node);
  }

  lemma HeadedNoded(cfg: Config, st0: State, st1: State, st': State, q: IrqInfo, node: TopoObj)
    requires SameFrame(st0, st1) && Noded(cfg, st0, st1, st0.rebalance) && Followed(cfg, st1, st')
    requires q in st0.irqs && q in st0.rebalance && Headed(cfg, q, node) && NoChildSuits(cfg, node, q)
    ensures q in st'.irqs && st'.irqs[q].owner == node
  {
    hide NoChildSuits, Preferred, Suits;
    assert cfg.nodes == [node] ==> node in cfg.nodes;
    assert !NoNode(cfg, q);
  }

  lemma DepthOf()
    ensures ObjNode.Depth() == 0 && ObjPackage.Depth() == 1 && ObjCache.Depth() == 2 && ObjCpu.Depth() == 3
  {
  }

  lemma NothingWaiting(cfg: Config, st: State)
    requires Ready(cfg, st) && st.rebalance == []
    ensures CalculatePlacement(cfg, st) == st && SameFrame(st, st) && PlacementSafe(cfg, st)
    ensures forall q | q in st.irqs && q in st.rebalance :: NoNode(cfg, q)
  {
  }

  lemma SortFollowed(cfg: Config, st: State, st0: State, st': State)
    requires st0.irqs == st.irqs && st0.objs == st.objs && Followed(cfg, st0, st')
    ensures Followed(cfg, st, st')
  {
  }

  lemma SortFrame(st: State, st0: State)
    requires st0.irqs == st.irqs && st0.objs == st.objs
    ensures SameFrame(st, st0)
  {
  }

  lemma Waiters(cfg: Config, st0: State, st1: State, st': State)
    requires SameFrame(st0, st1) && Noded(cfg, st0, st1, st0.rebalance)
    requires SameFrame(st0, st') && st'.rebalance == st1.rebalance
    ensures forall q | q in st'.irqs && q in st'.rebalance :: NoNode(cfg, q)
  {
    hide NoNode;
  }

  /** Below the settled layers there are only CPUs, and a fitting IRQ on a CPU is at its level. */
  lemma SettledAll(cfg: Config, st: State)
    requires Inv(cfg, st) && SettledAbove(cfg, st, ObjCache.Depth() + 1)
    ensures forall q | q in st.irqs && st.irqs[q].owner != null && st.irqs[q].moved ::
      AtLevel(st.irqs[q].owner.kind, q.level) || Settled(cfg, st, q)
  {
    hide Ready, Owned, PowerOk, Settled;
    forall q | q in st.irqs && st.irqs[q].owner != null && st.irqs[q].moved
      ensures AtLevel(st.irqs[q].owner.kind, q.level) || Settled(cfg, st, q)
    {
      assert Fitting(st, q);
    }
  }
}
