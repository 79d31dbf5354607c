/** The masks written over whole runs: when they avoid banned CPUs, and when not. */
module MaskRuns {
  import opened Irqs
  import opened Ownership
  import opened Tree
  import opened Placement
  import opened PlacementProofs
  import opened Drain
  import opened LoadShare
  import opened Measure
  import opened Activation
  import opened Runs

  /** In every run every mask is what the IRQ's hint makes of its object's mask; and below the
      nodes it avoids banned CPUs, and a SUBSET-hinted IRQ gets one, which is not empty. */
  lemma RunMasks(scan: Scan, es: seq<Event>, ms: seq<Machine>, n: nat, q: IrqInfo)
    requires Run(scan, es, ms) && n < |ms| && q in ms[n].st.irqs
    ensures var o := ms[n].st.irqs[q].owner;
      var mask := ChosenMask(ms[n].cfg.banned, q, o);
      && FollowsHint(ms[n].cfg.banned, q, o, mask)
      && (o != null && o.kind != ObjNode ==>
            && (mask.Mask? ==> mask.cpus !! ms[n].cfg.banned)
            && (q.hintPolicy == HintSubset && q.affinityHint != {} ==> mask.Mask? && mask.cpus != {}))
  {
    hide Inv, Run, FollowsHint;
    RunInv(scan, es, ms, n);
    var o := ms[n].st.irqs[q].owner;
    ChosenFollowsHint(ms[n].cfg.banned, q, o);
    if o != null && o.kind != ObjNode {
      MaskBelowNodes(ms[n].cfg, ms[n].st, q);
    }
  }

  // ---- IRQs on nodes ----

  lemma FreshStuck(cfg: Config, st: State, reading: Reading, st': State)
    requires Fresh(cfg, st) && (forall q | q in cfg.db :: q in st.irqs) && st' == BeginFrom(cfg, st, reading)
    ensures Stuck(cfg, st')
  {
    hide TreeOk, IrqsOk, Read, Inv;
    var st1 := ForceRebalanceAll(st, cfg.db);
    ForceFresh(st, cfg.db);
    StartInv(cfg, st, st1);
    InvParts(cfg, st1);
    ReadDoes(cfg, st1, reading, st');
    ReckonedPlaces(st1, st');
    StuckSame(cfg, st1, st');
  }

  lemma ScannedStuck(scan: Scan, m: Machine)
    requires Scanned(scan, m)
    ensures Stuck(m.cfg, m.st)
  {
    hide Fresh, BeginFrom, Stuck;
    FreshStuck(scan.cfg, scan.st, scan.reading, m.st);
  }

  lemma NextStuck(m: Machine, e: Event, m': Machine)
    requires Inv(m.cfg, m.st) && Stuck(m.cfg, m.st) && Next(m, e, m')
    ensures Stuck(m'.cfg, m'.st)
  {
    hide Inv, Turn, TreeOk, Scanned, Rescanned, Stuck;
    match e
    case Plain(world) =>
      TurnKeepsStuck(m.cfg, m.st, m.cycleCount, world, m'.st);
    case Rescan(scan, world) =>
      var m0 := Rescanned(scan);
      ScannedInv(scan, m0);
      ScannedStuck(scan, m0);
      TurnKeepsStuck(m0.cfg, m0.st, m0.cycleCount, world, m'.st);
  }

  /** In every run an IRQ that is on a node is stuck there: no package below the
      node suits it; and the node is usable, and the preferred one if that is. */
  lemma {:induction false} RunStuck(scan: Scan, es: seq<Event>, ms: seq<Machine>, n: nat)
    requires Run(scan, es, ms) && n < |ms|
    ensures Stuck(ms[n].cfg, ms[n].st)
  {
    hide Inv, Next, Scanned, Stuck;
    if n == 0 {
      ScannedStuck(scan, ms[0]);
    } else {
      RunInv(scan, es, ms, n - 1);
      RunStuck(scan, es, ms, n - 1);
      assert Next(ms[n - 1], es[n - 1], ms[n]);
      NextStuck(ms[n - 1], es[n - 1], ms[n]);
    }
  }

  /** Without a SUBSET hint every package suits, so such an IRQ is on a node only
      if the node has no packages. */
  lemma UnhintedOnNode(scan: Scan, es: seq<Event>, ms: seq<Machine>, n: nat, q: IrqInfo)
    requires Run(scan, es, ms) && n < |ms| && q in ms[n].st.irqs && !SubsetHinted(q)
    requires ms[n].st.irqs[q].owner != null && ms[n].st.irqs[q].owner.kind == ObjNode
    ensures ms[n].st.irqs[q].owner in ms[n].cfg.children && ms[n].cfg.children[ms[n].st.irqs[q].owner] == []
  {
    hide Inv, Run;
    var cfg, st := ms[n].cfg, ms[n].st;
    RunInv(scan, es, ms, n);
    RunStuck(scan, es, ms, n);
    assert StuckOnNode(cfg, st, q);
    NoKids(cfg, st, q);
  }

  lemma NoKids(cfg: Config, st: State, q: IrqInfo)
    requires Inv(cfg, st) && q in st.irqs && !SubsetHinted(q) && st.irqs[q].owner != null
    requires NoChildSuits(cfg, st.irqs[q].owner, q)
    ensures cfg.children[st.irqs[q].owner] == []
  {
    hide Ready, Owned, TreeOk, NoChildSuits;
    InvParts(cfg, st);
    var o := st.irqs[q].owner;
    OwnerThere(st, q);
    KeysFromInv(cfg, st, o);
    NoneOfAny(cfg, q, o);
  }

  /** Nothing but a SUBSET hint, or saving power, keeps an IRQ from a package. */
  lemma UnhintedSuits(cfg: Config, q: IrqInfo, c: TopoObj)
    requires c.kind != ObjNode && !SubsetHinted(q)
    ensures Suits(cfg, q, c)
  {
  }

  lemma NoneOfAny(cfg: Config, q: IrqInfo, o: TopoObj)
    requires NoChildSuits(cfg, o, q) && !SubsetHinted(q) && forall c | c in cfg.children[o] :: c.kind != ObjNode
    ensures cfg.children[o] == []
  {
    hide Suits;
    forall c | c in cfg.children[o]
      ensures Suits(cfg, q, c)
    {
      UnhintedSuits(cfg, q, c);
    }
    EmptyOrFirst(cfg.children[o]);
  }

  // ---- when a mask holds a banned CPU ----

  ghost predicate MaskAvoids(mask: Mask, banned: set<nat>) {
    mask.Mask? ==> mask.cpus !! banned
  }

  /** What activate_mapping makes of a node's mask. */
  ghost function MaskOn(q: IrqInfo, node: TopoObj): set<nat> {
    if SubsetHinted(q) then node.mask * q.affinityHint else node.mask
  }

  /** What exposes banned CPUs: the node is used, it takes the IRQ although no package
      of it does, and the mask it gives has banned CPUs, but not only such. */
  ghost predicate Exposed(cfg: Config, q: IrqInfo, node: TopoObj) {
    && UsableNode(cfg, node) && NoChildSuits(cfg, node, q) && !ExactHinted(q)
    && !(MaskOn(q, node) !! cfg.banned) && !(MaskOn(q, node) <= cfg.banned)
  }

  lemma MaskWithin(banned: set<nat>, q: IrqInfo, o: TopoObj?)
    requires ExactHinted(q) || o == null
    ensures MaskAvoids(ChosenMask(banned, q, o), banned)
  {
    if ExactHinted(q) {
      assert forall cpu | cpu in q.affinityHint && cpu in banned :: cpu in q.affinityHint * banned;
    }
  }

  lemma MaskOfNode(cfg: Config, q: IrqInfo, node: TopoObj)
    requires UsableNode(cfg, node) && NoChildSuits(cfg, node, q)
    ensures MaskAvoids(ChosenMask(cfg.banned, q, node), cfg.banned) <==> !Exposed(cfg, q, node)
    ensures Exposed(cfg, q, node) ==> ChosenMask(cfg.banned, q, node) == Mask(MaskOn(q, node))
  {
    hide NoChildSuits;
    if ExactHinted(q) {
      MaskWithin(cfg.banned, q, node);
    }
  }

  lemma NodeFacts(cfg: Config, st: State, q: IrqInfo)
    requires Inv(cfg, st) && Stuck(cfg, st) && q in st.irqs && st.irqs[q].owner != null && st.irqs[q].owner.kind == ObjNode
    ensures var o := st.irqs[q].owner;
      && o in cfg.nodes && o in cfg.children && NoChildSuits(cfg, o, q) && UsableNode(cfg, o)
      && (Preferred(cfg, q) ==> o == q.numaNode)
      && forall c | c in cfg.children[o] :: c.kind != ObjNode
  {
    hide Ready, Owned, TreeOk, NoChildSuits, UsableNode, Preferred;
    InvParts(cfg, st);
    OwnerThere(st, q);
    assert StuckOnNode(cfg, st, q);
    KeysFromInv(cfg, st, st.irqs[q].owner);
    OwnerInLayer(cfg, st, q);
  }

  /** In every run, with any loads, the mask chosen for an IRQ holds a banned CPU exactly
      when the IRQ is on a node that exposes one to it. */
  lemma RunMaskExposed(scan: Scan, es: seq<Event>, ms: seq<Machine>, n: nat, q: IrqInfo)
    requires Run(scan, es, ms) && n < |ms| && q in ms[n].st.irqs
    ensures var o := ms[n].st.irqs[q].owner;
      !MaskAvoids(ChosenMask(ms[n].cfg.banned, q, o), ms[n].cfg.banned) <==>
      o != null && o in ms[n].cfg.nodes && (Preferred(ms[n].cfg, q) ==> o == q.numaNode) && Exposed(ms[n].cfg, q, o)
  {
    hide Inv, Run, Stuck, ChosenMask, Exposed, Preferred, NoChildSuits, UsableNode, MaskAvoids;
    var cfg, st := ms[n].cfg, ms[n].st;
    var o := st.irqs[q].owner;
    RunInv(scan, es, ms, n);
    RunStuck(scan, es, ms, n);
    if o == null {
      MaskWithin(cfg.banned, q, o);
    } else if o.kind != ObjNode {
      BelowAvoids(cfg, st, q);
      NotNode(cfg, st, o);
    } else {
      NodeFacts(cfg, st, q);
      MaskOfNode(cfg, q, o);
    }
  }

  lemma BelowAvoids(cfg: Config, st: State, q: IrqInfo)
    requires Inv(cfg, st) && q in st.irqs && st.irqs[q].owner != null && st.irqs[q].owner.kind != ObjNode
    ensures MaskAvoids(ChosenMask(cfg.banned, q, st.irqs[q].owner), cfg.banned)
  {
    hide Inv, ChosenMask;
    MaskBelowNodes(cfg, st, q);
  }

  lemma NotNode(cfg: Config, st: State, o: TopoObj)
    requires Inv(cfg, st) && o.kind != ObjNode
    ensures o !in cfg.nodes
  {
    hide TreeOk;
    InvParts(cfg, st);
    LayerKnown(cfg, st.objs.Keys, ObjNode);
    assert cfg.nodes == Layer(cfg, ObjNode);
  }

  // ---- which IRQs get such a mask ----

  /** The IRQ's preferred node is usable, or, failing that, there is no choice of node. */
  ghost predicate MeantFor(cfg: Config, q: IrqInfo, node: TopoObj) {
    if Preferred(cfg, q) then node == q.numaNode else cfg.nodes == [node]
  }

  /** An IRQ meant for one node gets, in the first turn after a scan, a mask with a banned
      CPU exactly when that node exposes one to it; and then the mask is the node's. */
  lemma FirstMaskExposed(scan: Scan, m: Machine, world: World, m': Machine, q: IrqInfo, node: TopoObj)
    requires Scanned(scan, m) && TurnOf(m, world, m') && q in m.st.irqs && Balances(q) && MeantFor(m.cfg, q, node)
    ensures q in m'.st.irqs
    ensures !MaskAvoids(ChosenMask(m.cfg.banned, q, m'.st.irqs[q].owner), m.cfg.banned) <==> Exposed(m.cfg, q, node)
    ensures Exposed(m.cfg, q, node) ==>
      m'.st.irqs[q].owner == node && ChosenMask(m.cfg.banned, q, m'.st.irqs[q].owner) == Mask(MaskOn(q, node))
  {
    hide Run, Inv, Turn, Scanned, TurnOf, Exposed, MaskAvoids, ChosenMask, Preferred, NoChildSuits, UsableNode;
    OneTurnRuns(scan, m, world, m');
    SameIrqs(m, world, m', q);
    RunMaskExposed(scan, [Plain(world)], [m, m'], 1, q);
    var o := m'.st.irqs[q].owner;
    if Exposed(m.cfg, q, node) {
      ExposedEnds(scan, m, world, m', q, node);
      ExposedParts(m.cfg, q, node);
      MaskOfNode(m.cfg, q, node);
    }
    if o != null && o in m.cfg.nodes && (Preferred(m.cfg, q) ==> o == q.numaNode) {
      OnlyNode(m.cfg, q, node, o);
    }
  }

  /** The same without a hint, on a node without packages: the mask is the node's. */
  lemma ChildlessMask(scan: Scan, m: Machine, world: World, m': Machine, q: IrqInfo, node: TopoObj)
    requires Scanned(scan, m) && TurnOf(m, world, m') && q in m.st.irqs && Balances(q) && MeantFor(m.cfg, q, node)
    requires !SubsetHinted(q) && !ExactHinted(q) && UsableNode(m.cfg, node) && node in m.cfg.children && m.cfg.children[node] == []
    ensures q in m'.st.irqs && ChosenMask(m.cfg.banned, q, m'.st.irqs[q].owner) == Mask(node.mask)
  {
    hide Turn, Inv, BeginFrom, Fresh, TreeOk, Preferred;
    ScannedInv(scan, m);
    ScannedWaits(scan, m, q);
    assert NoChildSuits(m.cfg, node, q);
    EndsOnNode(m.cfg, m.st, m.cycleCount, world, m'.st, q, node);
  }

  /** Such a mask is written, unless the kernel has it already or refuses. */
  lemma ExposedWritten(scan: Scan, m: Machine, world: World, m': Machine, q: IrqInfo, node: TopoObj)
    requires Scanned(scan, m) && TurnOf(m, world, m') && q in m.st.irqs && Balances(q)
    requires MeantFor(m.cfg, q, node) && Exposed(m.cfg, q, node)
    requires q in world.kernel.writable && q in world.kernel.current && world.kernel.current[q] != MaskOn(q, node)
    ensures TreeOk(m.cfg, m.st.objs.Keys)
    ensures var st1 := Measuring(m.cfg, m.st, world.reading);
      && Ready(m.cfg, st1)
      && var st2 := CalculatePlacement(m.cfg, st1);
      && q in st2.irqs && Written(m.cfg, st2, world.kernel, q) == Mask(MaskOn(q, node))
      && m'.st == ActivateMappings(m.cfg, st2, world.kernel)
  {
    hide *;
    ScannedCfg(scan, m);
    ScannedWaits(scan, m, q);
    TurnParts(m, world, m');
    var st1, st1', st2 := TurnIs(m.cfg, m.st, m.cycleCount, world, m'.st);
    MeasuringDoes(m.cfg, m.st, world.reading, st1);
    ReckonedPlaces(m.st, st1);
    SameWaiting(m.st, st1, q);
    ExposedHeads(m.cfg, st1, q, node);
    HeadedEnds(m.cfg, st1, st2, q, node);
    PlacementDescends(m.cfg, st1, st2);
    InvParts(m.cfg, st1);
    WaitingIs(st1, q);
    ComesMoved(m.cfg, st1, st2, q);
    ExposedParts(m.cfg, q, node);
    MaskOfNode(m.cfg, q, node);
    WrittenIs(m.cfg, st2, world.kernel, q, MaskOn(q, node));
  }

  lemma ComesMoved(cfg: Config, st: State, st': State, q: IrqInfo)
    requires Followed(cfg, st, st') && q in st.irqs && st.irqs[q].owner == null && q in st'.irqs && st'.irqs[q].owner != null
    ensures st'.irqs[q].moved
  {
    hide IdleKept, NoChildSuits;
  }

  lemma WrittenIs(cfg: Config, st: State, kernel: Kernel, q: IrqInfo, cpus: set<nat>)
    requires q in st.irqs && st.irqs[q].owner != null && st.irqs[q].moved
    requires ChosenMask(cfg.banned, q, st.irqs[q].owner) == Mask(cpus)
    requires q in kernel.writable && q in kernel.current && kernel.current[q] != cpus
    ensures Written(cfg, st, kernel, q) == Mask(cpus)
  {
    hide ChosenMask;
  }

  lemma OnlyNode(cfg: Config, q: IrqInfo, node: TopoObj, o: TopoObj)
    requires MeantFor(cfg, q, node) && o in cfg.nodes && (Preferred(cfg, q) ==> o == q.numaNode)
    ensures o == node
  {
    hide Preferred;
  }

  lemma ExposedParts(cfg: Config, q: IrqInfo, node: TopoObj)
    requires Exposed(cfg, q, node)
    ensures UsableNode(cfg, node) && NoChildSuits(cfg, node, q)
  {
  }

  lemma OneTurnRuns(scan: Scan, m: Machine, world: World, m': Machine)
    requires Scanned(scan, m) && TurnOf(m, world, m')
    ensures Run(scan, [Plain(world)], [m, m']) && m'.cfg == m.cfg
  {
    hide Scanned, Turn;
  }

  lemma SameIrqs(m: Machine, world: World, m': Machine, q: IrqInfo)
    requires TurnOf(m, world, m') && q in m.st.irqs
    ensures q in m'.st.irqs
  {
    hide TreeOk, Measuring, UpdateMigration, CalculatePlacement, ActivateMappings, PlacementSafe;
  }

  lemma ExposedEnds(scan: Scan, m: Machine, world: World, m': Machine, q: IrqInfo, node: TopoObj)
    requires Scanned(scan, m) && TurnOf(m, world, m') && q in m.st.irqs && Balances(q)
    requires MeantFor(m.cfg, q, node) && Exposed(m.cfg, q, node)
    ensures q in m'.st.irqs && m'.st.irqs[q].owner == node
  {
    hide Turn, Inv, BeginFrom, Fresh, TreeOk, NoChildSuits, Headed, Exposed, MeantFor;
    ScannedInv(scan, m);
    ScannedWaits(scan, m, q);
    ScannedCfg(scan, m);
    ExposedHeads(m.cfg, m.st, q, node);
    EndsOnNode(m.cfg, m.st, m.cycleCount, world, m'.st, q, node);
  }

  lemma ScannedCfg(scan: Scan, m: Machine)
    requires Scanned(scan, m)
    ensures m.cfg == scan.cfg && Inv(m.cfg, m.st)
  {
    hide Fresh, BeginFrom, Inv;
    ScannedInv(scan, m);
  }

  lemma ExposedHeads(cfg: Config, st: State, q: IrqInfo, node: TopoObj)
    requires Inv(cfg, st) && MeantFor(cfg, q, node) && Exposed(cfg, q, node)
    ensures Headed(cfg, q, node) && NoChildSuits(cfg, node, q)
  {
    hide Inv, NoChildSuits, Preferred;
    if SubsetHinted(q) {
      NotEmpty(node.mask * q.affinityHint, cfg.banned);
    }
  }

  lemma NotEmpty(a: set<nat>, b: set<nat>)
    requires !(a <= b)
    ensures a != {}
  {
  }

  lemma ScannedWaits(scan: Scan, m: Machine, q: IrqInfo)
    requires Scanned(scan, m) && q in m.st.irqs && Balances(q)
    ensures q in m.st.rebalance && m.cycleCount == 0
  {
    hide TreeOk, Read;
    var cfg, st := scan.cfg, scan.st;
    var st1 := ForceRebalanceAll(st, cfg.db);
    ForceFresh(st, cfg.db);
    StartInv(cfg, st, st1);
    InvParts(cfg, st1);
    ReadDoes(cfg, st1, scan.reading, m.st);
    DbKnown(cfg, st.irqs.Keys);
    ParticipantsHas(cfg.db);
    assert q in Participants(cfg.db);
  }

  // ---- trees on which no IRQ does ----

  /** Each unbanned CPU of the node is in the mask of one of its packages. */
  ghost predicate Covered(cfg: Config, node: TopoObj) {
    forall cpu | cpu in node.mask && cpu !in cfg.banned :: exists c :: c in Children(cfg, node) && cpu in c.mask
  }

  /** The node has no banned CPU, or its packages cover it. */
  ghost predicate CleanNode(cfg: Config, node: TopoObj) {
    node.mask !! cfg.banned || Covered(cfg, node)
  }

  /** Nodes on which IRQs are never put may be as they like. */
  ghost predicate CleanNodes(cfg: Config) {
    forall node | node in cfg.nodes && UsableNode(cfg, node) :: CleanNode(cfg, node)
  }

  /** A clean node exposes nothing to any IRQ. */
  lemma CleanExposesNone(cfg: Config, q: IrqInfo, node: TopoObj)
    requires CleanNode(cfg, node) && node in cfg.children && forall c | c in cfg.children[node] :: c.kind != ObjNode
    ensures !Exposed(cfg, q, node)
  {
    if Exposed(cfg, q, node) {
      if SubsetHinted(q) {
        if Covered(cfg, node) {
          HintMisses(cfg, q, node);
        }
      } else {
        NoneOfAny(cfg, q, node);
      }
    }
  }

  /** A hint that no package meets names only banned CPUs of a covered node. */
  lemma HintMisses(cfg: Config, q: IrqInfo, node: TopoObj)
    requires NoChildSuits(cfg, node, q) && SubsetHinted(q) && Covered(cfg, node)
    requires forall c | c in cfg.children[node] :: c.kind != ObjNode
    ensures node.mask * q.affinityHint <= cfg.banned
  {
    forall cpu | cpu in node.mask * q.affinityHint
      ensures cpu in cfg.banned
    {
      forall c | c in cfg.children[node]
        ensures cpu !in c.mask
      {
        assert q.affinityHint * c.mask == {};
        assert cpu !in q.affinityHint * c.mask;
      }
    }
  }

  /** `lost` is an unbanned CPU of the node that no package of it has, `bad` a banned one. */
  ghost predicate Unclean(cfg: Config, node: TopoObj, lost: nat, bad: nat) {
    && node in cfg.nodes && UsableNode(cfg, node)
    && lost in node.mask && lost !in cfg.banned && bad in node.mask && bad in cfg.banned
    && forall c | c in Children(cfg, node) :: lost !in c.mask
  }

  /** The IRQ's device is on the node, and its SUBSET hint names these two CPUs. */
  ghost predicate HintedAt(q: IrqInfo, node: TopoObj, lost: nat, bad: nat) {
    q.numaNode == node && q.hintPolicy == HintSubset && q.affinityHint == {lost, bad}
  }

  lemma UncleanExposes(cfg: Config, st: State, q: IrqInfo, node: TopoObj, lost: nat, bad: nat)
    requires Inv(cfg, st) && Unclean(cfg, node, lost, bad) && HintedAt(q, node, lost, bad)
    ensures Exposed(cfg, q, node) && MaskOn(q, node) == {lost, bad}
  {
    hide Ready, Owned, TreeOk, IrqsOk, PowerOk;
    InvParts(cfg, st);
    LayerKnown(cfg, st.objs.Keys, ObjNode);
    assert cfg.nodes == Layer(cfg, ObjNode);
    KeysFromInv(cfg, st, node);
    assert bad in q.affinityHint && lost in q.affinityHint;
    assert node.mask * q.affinityHint == {lost, bad};
    forall c | c in cfg.children[node]
      ensures !Suits(cfg, q, c)
    {
      MaskThere(cfg, st.objs.Keys, c);
      assert q.affinityHint * c.mask == {};
    }
  }

  /** Without NUMA there is only the unspecified node. */
  ghost predicate NodesBuilt(cfg: Config) {
    cfg.numaAvail || |cfg.nodes| == 1
  }

  lemma MeantByDevice(cfg: Config, q: IrqInfo, node: TopoObj)
    requires NodesBuilt(cfg) && node in cfg.nodes && UsableNode(cfg, node) && q.numaNode == node
    ensures MeantFor(cfg, q, node)
  {
    if |cfg.nodes| == 1 {
      assert cfg.nodes == [cfg.nodes[0]];
    }
  }

  /** The same tree, whatever the database. */
  ghost predicate SameTree(cfg: Config, cfg': Config) {
    cfg' == cfg.(db := cfg'.db)
  }

  lemma TreesUnclean(cfg: Config, cfg': Config, node: TopoObj, lost: nat, bad: nat)
    requires SameTree(cfg, cfg') && Unclean(cfg, node, lost, bad) && NodesBuilt(cfg)
    ensures Unclean(cfg', node, lost, bad) && NodesBuilt(cfg') && cfg'.banned == cfg.banned
  {
  }

  lemma TreesClean(cfg: Config, cfg': Config)
    requires SameTree(cfg, cfg') && CleanNodes(cfg)
    ensures CleanNodes(cfg')
  {
    hide UsableNode;
    forall node | node in cfg'.nodes && UsableNode(cfg', node)
      ensures CleanNode(cfg', node)
    {
      SameNode(cfg, cfg', node);
    }
  }

  lemma SameNode(cfg: Config, cfg': Config, node: TopoObj)
    requires SameTree(cfg, cfg')
    ensures UsableNode(cfg', node) <==> UsableNode(cfg, node)
    ensures CleanNode(cfg', node) <==> CleanNode(cfg, node)
  {
  }

  /** If all usable nodes are clean, no mask chosen in any run, for any IRQ, holds a banned CPU. */
  lemma RunMasksClean(scan: Scan, es: seq<Event>, ms: seq<Machine>, n: nat, q: IrqInfo)
    requires Run(scan, es, ms) && n < |ms| && q in ms[n].st.irqs && CleanNodes(ms[n].cfg)
    ensures MaskAvoids(ChosenMask(ms[n].cfg.banned, q, ms[n].st.irqs[q].owner), ms[n].cfg.banned)
  {
    hide Run, Inv, Exposed, CleanNode, ChosenMask, MaskAvoids, Preferred;
    RunMaskExposed(scan, es, ms, n, q);
    RunInv(scan, es, ms, n);
    var cfg, o := ms[n].cfg, ms[n].st.irqs[q].owner;
    if o != null && o in cfg.nodes && Exposed(cfg, q, o) {
      ExposedParts(cfg, q, o);
      NodeKnownFrom(cfg, ms[n].st, o);
      CleanExposesNone(cfg, q, o);
    }
  }

  lemma NodeKnownFrom(cfg: Config, st: State, node: TopoObj)
    requires Inv(cfg, st) && node in cfg.nodes
    ensures node in cfg.children && forall c | c in cfg.children[node] :: c.kind != ObjNode
  {
    hide TreeOk;
    InvParts(cfg, st);
    LayerKnown(cfg, st.objs.Keys, ObjNode);
    assert cfg.nodes == Layer(cfg, ObjNode);
    KeysFromInv(cfg, st, node);
  }

  lemma UncleanMask(scan: Scan, m: Machine, world: World, m': Machine, q: IrqInfo, node: TopoObj, lost: nat, bad: nat)
    requires Scanned(scan, m) && TurnOf(m, world, m') && q in m.st.irqs && Balances(q)
    requires NodesBuilt(m.cfg) && Unclean(m.cfg, node, lost, bad) && HintedAt(q, node, lost, bad)
    ensures q in m'.st.irqs && ChosenMask(m.cfg.banned, q, m'.st.irqs[q].owner) == Mask({lost, bad})
  {
    hide Turn, TurnOf, Scanned, Inv, Exposed, ChosenMask, MaskAvoids, MeantFor, MaskOn;
    ScannedCfg(scan, m);
    UncleanExposes(m.cfg, m.st, q, node, lost, bad);
    MeantByDevice(m.cfg, q, node);
    FirstMaskExposed(scan, m, world, m', q, node);
  }

  /** On a tree, no mask holds a banned CPU, whatever the IRQs, their hints, the loads and
      the run, exactly when all usable nodes are clean.  For otherwise there are a node and
      two CPUs of it such that, in the first turn, every balanced IRQ whose device is on the
      node and whose SUBSET hint names the two gets just them, one of them banned. */
  lemma MasksCleanExactly(cfg: Config) returns (node: TopoObj?, lost: nat, bad: nat)
    requires NodesBuilt(cfg)
    ensures CleanNodes(cfg) ==>
      forall scan: Scan, es: seq<Event>, ms: seq<Machine>, n: nat, q: IrqInfo |
        Run(scan, es, ms) && n < |ms| && SameTree(cfg, ms[n].cfg) && q in ms[n].st.irqs ::
        MaskAvoids(ChosenMask(cfg.banned, q, ms[n].st.irqs[q].owner), cfg.banned)
    ensures !CleanNodes(cfg) ==>
      && node != null && node in cfg.nodes && bad in cfg.banned
      && forall scan: Scan, m: Machine, world: World, m': Machine, q: IrqInfo |
           && Scanned(scan, m) && TurnOf(m, world, m') && SameTree(cfg, m.cfg)
           && q in m.st.irqs && Balances(q) && HintedAt(q, node, lost, bad) ::
           q in m'.st.irqs && ChosenMask(cfg.banned, q, m'.st.irqs[q].owner) == Mask({lost, bad})
  {
    hide Run, Scanned, TurnOf, ChosenMask, MaskAvoids, UsableNode, HintedAt, NodesBuilt;
    if CleanNodes(cfg) {
      node, lost, bad := null, 0, 0;
      forall scan: Scan, es: seq<Event>, ms: seq<Machine>, n: nat, q: IrqInfo |
        Run(scan, es, ms) && n < |ms| && SameTree(cfg, ms[n].cfg) && q in ms[n].st.irqs
        ensures MaskAvoids(ChosenMask(cfg.banned, q, ms[n].st.irqs[q].owner), cfg.banned)
      {
        TreesClean(cfg, ms[n].cfg);
        RunMasksClean(scan, es, ms, n, q);
      }
    } else {
      node :| node in cfg.nodes && UsableNode(cfg, node) && !CleanNode(cfg, node);
      lost :| lost in node.mask && lost !in cfg.banned && !exists c :: c in Children(cfg, node) && lost in c.mask;
      bad :| bad in node.mask && bad in cfg.banned;
      assert Unclean(cfg, node, lost, bad);
      forall scan: Scan, m: Machine, world: World, m': Machine, q: IrqInfo |
        && Scanned(scan, m) && TurnOf(m, world, m') && SameTree(cfg, m.cfg)
        && q in m.st.irqs && Balances(q) && HintedAt(q, node, lost, bad)
        ensures q in m'.st.irqs && ChosenMask(cfg.banned, q, m'.st.irqs[q].owner) == Mask({lost, bad})
      {
        TreesUnclean(cfg, m.cfg, node, lost, bad);
        UncleanMask(scan, m, world, m', q, node, lost, bad);
      }
    }
  }
}
