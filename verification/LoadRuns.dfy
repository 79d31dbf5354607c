/** Runs whose readings are bounded: every turn can be taken, and drains exactly. */
module LoadRuns {
  import opened Irqs
  import opened Ownership
  import opened Tree
  import opened Placement
  import opened PlacementProofs
  import opened PlacementLoads
  import opened Drain
  import opened DrainProofs
  import opened DrainCycle
  import opened LoadShare
  import opened LoadProofs
  import opened Measure
  import opened LoadBounds
  import opened Activation
  import opened Runs
  import opened MaskRuns

  // ---- loads of IRQs over a turn ----

  ghost predicate SameIrqLoads(st: State, st': State) {
    st'.irqs.Keys == st.irqs.Keys && forall q | q in st.irqs :: st'.irqs[q].load == st.irqs[q].load
  }

  lemma LoadsBelow(st: State, st': State, top: nat)
    requires SameIrqLoads(st, st') && IrqsBelow(st.irqs, top)
    ensures IrqsBelow(st'.irqs, top)
  {
  }

  lemma RelievedLoads(st: State, st': State, entered: set<TopoObj>)
    requires Relieved(st, st', entered)
    ensures SameIrqLoads(st, st')
  {
    hide MayLeave;
  }

  lemma FrameLoads(st: State, st': State)
    requires SameFrame(st, st')
    ensures SameIrqLoads(st, st')
  {
  }

  lemma ActivateLoads(cfg: Config, st: State, kernel: Kernel, st': State)
    requires Ready(cfg, st) && st' == ActivateMappings(cfg, st, kernel)
    ensures SameIrqLoads(st, st') && st'.objs == st.objs
  {
    hide TreeOk, Known, ActivateAll, Written;
    DbKnown(cfg, st.irqs.Keys);
    ActivateAllDoes(cfg, st, kernel, cfg.db);
  }

  lemma SameLoadsBoth(st: State, st1: State, st2: State)
    requires SameIrqLoads(st, st1) && SameIrqLoads(st1, st2)
    ensures SameIrqLoads(st, st2)
  {
  }

  /** Draining leaves room. */
  lemma RelievedBudget(cfg: Config, st: State, st': State, entered: set<TopoObj>)
    requires FullBudget(cfg, st) && Relieved(st, st', entered)
    ensures FullBudget(cfg, st')
  {
    RelievedLoads(st, st', entered);
    WeightSame(st.irqs, st'.irqs, cfg.db);
  }

  lemma MeasuredBudget(cfg: Config, st: State)
    requires Measured(cfg, st)
    ensures FullBudget(cfg, st)
  {
    hide FullBudget;
  }

  lemma IdleOver(cfg: Config, st1: State, st2: State, st3: State, st': State, entered: set<TopoObj>)
    requires Relieved(st1, st2, entered) && Followed(cfg, st2, st3) && st'.objs == st3.objs
    ensures IdleKept(cfg, st1, st')
  {
    hide IdleNode, MayLeave, NoChildSuits;
  }

  lemma StillUnloaded(cfg: Config, st: State, st': State)
    requires IdleUnloaded(cfg, st.objs) && IdleKept(cfg, st, st')
    ensures IdleUnloaded(cfg, st'.objs)
  {
    hide UsableNode;
  }

  /** From measured loads a turn can be taken to its end: no scan fails. */
  lemma FinishTurn(cfg: Config, st: State, cycleCount: nat, world: World, st1: State) returns (st': State)
    requires TreeOk(cfg, st.objs.Keys) && st1 == Measuring(cfg, st, world.reading) && Measured(cfg, st1)
    ensures Turn(cfg, st, cycleCount, world, st') && SameIrqLoads(st1, st') && IdleKept(cfg, st1, st')
  {
    hide *;
    MeasuredIsHeld(cfg, st1);
    HeldParts(cfg, true, st1);
    var st2 := if cycleCount > 0 then UpdateMigration(cfg, st1, cycleCount, world.dev) else st1;
    var entered := MigrationStep(cfg, true, st1, cycleCount, world.dev, st2);
    HeldParts(cfg, true, st2);
    MeasuredBudget(cfg, st1);
    RelievedBudget(cfg, st1, st2, entered);
    MeasuredIsGood(cfg, st2);
    PlacementIsSafe(cfg, st2);
    var st3 := CalculatePlacement(cfg, st2);
    PlacementDescends(cfg, st2, st3);
    InvParts(cfg, st3);
    st' := ActivateMappings(cfg, st3, world.kernel);
    TurnMeets(cfg, st, cycleCount, world, st1, st2, st3, st');
    RelievedLoads(st1, st2, entered);
    FrameLoads(st2, st3);
    ActivateLoads(cfg, st3, world.kernel, st');
    SameLoadsBoth(st1, st2, st3);
    SameLoadsBoth(st1, st3, st');
    IdleOver(cfg, st1, st2, st3, st', entered);
  }

  lemma MeasuredIsHeld(cfg: Config, st: State)
    requires Measured(cfg, st)
    ensures Held(cfg, st, true) && Inv(cfg, st)
  {
    hide Inv;
  }

  /** When every CPU load read is at most `bound`, a turn can be taken from any
      reachable state, on machines with and without NUMA: nothing wraps, nothing is read
      through NULL, and the bounds hold again after it. */
  lemma BoundedTurn(m: Machine, world: World, bound: nat, top: nat) returns (m': Machine)
    requires Inv(m.cfg, m.st) && TreeOk(m.cfg, m.st.objs.Keys) && Roomy(m.cfg, m.st.objs.Keys, bound, top)
    requires Bounded(m.cfg, world.reading, bound) && IrqsBelow(m.st.irqs, top) && IdleUnloaded(m.cfg, m.st.objs)
    ensures TurnOf(m, world, m') && IrqsBelow(m'.st.irqs, top) && IdleUnloaded(m'.cfg, m'.st.objs)
    ensures Measured(m.cfg, Measuring(m.cfg, m.st, world.reading))
  {
    hide *;
    var st1 := Measuring(m.cfg, m.st, world.reading);
    MeasuringLeavesRoom(m.cfg, m.st, world.reading, st1, bound, top);
    var st' := FinishTurn(m.cfg, m.st, m.cycleCount, world, st1);
    m' := Machine(m.cfg, st', m.cycleCount + 1);
    LoadsBelow(st1, st', top);
    StillUnloaded(m.cfg, st1, st');
    TurnOfIs(m, world, m');
  }

  lemma TurnOfIs(m: Machine, world: World, m': Machine)
    requires TreeOk(m.cfg, m.st.objs.Keys) && m'.cfg == m.cfg && m'.cycleCount == m.cycleCount + 1
    requires Turn(m.cfg, m.st, m.cycleCount, world, m'.st)
    ensures TurnOf(m, world, m')
  {
    hide Turn, TreeOk;
  }

  /** A turn has one outcome. */
  lemma TurnUnique(cfg: Config, st: State, cycleCount: nat, world: World, a: State, b: State)
    requires TreeOk(cfg, st.objs.Keys) && Turn(cfg, st, cycleCount, world, a) && Turn(cfg, st, cycleCount, world, b)
    ensures a == b
  {
    hide TreeOk, Ready, Measuring, UpdateMigration, CalculatePlacement, ActivateMappings, PlacementSafe;
  }

  /** The event's reading is complete and bounded, on a tree with room for it. */
  ghost predicate BoundedEvent(m: Machine, e: Event, bound: nat, top: nat) {
    var m0 := Origin(m, e);
    TreeOk(m0.cfg, m0.st.objs.Keys) && Roomy(m0.cfg, m0.st.objs.Keys, bound, top) && Bounded(m0.cfg, e.world.reading, bound)
  }

  ghost predicate BoundedRun(es: seq<Event>, ms: seq<Machine>, bound: nat, top: nat) {
    |ms| == |es| + 1 && forall i | 0 <= i < |es| :: BoundedEvent(ms[i], es[i], bound, top)
  }

  ghost predicate StillBounded(m: Machine, top: nat) {
    Inv(m.cfg, m.st) && IrqsBelow(m.st.irqs, top) && IdleUnloaded(m.cfg, m.st.objs)
  }

  lemma BeginBounded(scan: Scan, m: Machine, top: nat)
    requires Scanned(scan, m)
    ensures StillBounded(m, top)
  {
    hide TreeOk, IrqsOk, Read, Inv, IdleNode;
    ScannedInv(scan, m);
    var st1 := ForceRebalanceAll(scan.st, scan.cfg.db);
    ForceFresh(scan.st, scan.cfg.db);
    StartInv(scan.cfg, scan.st, st1);
    InvParts(scan.cfg, st1);
    UnownedLoads(scan.cfg, st1, scan.reading, m.st);
    ReadIdle(scan.cfg, st1, scan.reading, m.st);
  }

  /** A reading gives no load to IRQs that are on no object. */
  lemma UnownedLoads(cfg: Config, st: State, r: Reading, st': State)
    requires TreeOk(cfg, st.objs.Keys) && Owned(st) && st' == Read(cfg, st, r)
    requires forall q | q in st.irqs :: st.irqs[q].owner == null && st.irqs[q].load == 0
    ensures st'.irqs.Keys == st.irqs.Keys && st'.objs.Keys == st.objs.Keys && forall q | q in st'.irqs :: st'.irqs[q].load == 0
  {
    hide TreeOk, Owned, Propagate, WithLoads, ReadCounts, Reckoned;
    var st1 := st.(irqs := ReadCounts(st.irqs, r.lines).0);
    var st2 := st1.(objs := WithLoads(st1.objs, r.cpuLoads));
    ReadCountsDoes(st.irqs, r.lines);
    CountsReckon(st, r.lines);
    CpuLoadsReckon(st1, r.cpuLoads);
    ReckonedBoth(st, st1, st2);
    ReckonedPlaces(st, st2);
    SamePlacesOwned(st, st2);
    if r.complete {
      PropagateDoes(cfg, st2, st');
    }
  }

  lemma KeepsBounded(m: Machine, e: Event, m': Machine, bound: nat, top: nat)
    requires StillBounded(m, top) && BoundedEvent(m, e, bound, top) && Next(m, e, m')
    ensures StillBounded(m', top)
    ensures var m0 := Origin(m, e);
      TreeOk(m0.cfg, m0.st.objs.Keys) && Measured(m0.cfg, Measuring(m0.cfg, m0.st, e.world.reading))
  {
    hide Inv, Turn, TreeOk, Roomy, IrqsBelow, Bounded, Measured, PowerTurn, WaitersHopeless, Scanned, Rescanned, IdleUnloaded;
    var entered := NextInv(m, e, m');
    var m0 := Origin(m, e);
    if e.Rescan? {
      ScannedInv(e.scan, m0);
      BeginBounded(e.scan, m0, top);
    }
    var m1 := BoundedTurn(m0, e.world, bound, top);
    TurnUnique(m0.cfg, m0.st, m0.cycleCount, e.world, m1.st, m'.st);
  }

  lemma {:induction false} BoundedUpTo(scan: Scan, es: seq<Event>, ms: seq<Machine>, n: nat, bound: nat, top: nat)
    requires Run(scan, es, ms) && BoundedRun(es, ms, bound, top) && n < |ms|
    ensures StillBounded(ms[n], top)
  {
    hide Inv, Next, Scanned, StillBounded, BoundedEvent;
    if n == 0 {
      BeginBounded(scan, ms[0], top);
    } else {
      BoundedUpTo(scan, es, ms, n - 1, bound, top);
      assert Next(ms[n - 1], es[n - 1], ms[n]) && BoundedEvent(ms[n - 1], es[n - 1], bound, top);
      KeepsBounded(ms[n - 1], es[n - 1], ms[n], bound, top);
    }
  }

  /** In a run whose readings give every CPU at most `bound`, nothing in any drain wraps. */
  lemma RunDrainsExactly(scan: Scan, es: seq<Event>, ms: seq<Machine>, n: nat, bound: nat, top: nat)
    requires Run(scan, es, ms) && BoundedRun(es, ms, bound, top) && n < |es|
    ensures var m := Origin(ms[n], es[n]);
      && TreeOk(m.cfg, m.st.objs.Keys)
      && var st1 := Measuring(m.cfg, m.st, es[n].world.reading);
      && Measured(m.cfg, st1) && Ready(m.cfg, st1)
      && UpdateFits(m.cfg, st1, m.cycleCount, es[n].world.dev, true)
  {
    hide *;
    RunNext(scan, es, ms, n);
    BoundedUpTo(scan, es, ms, n, bound, top);
    EventOfRun(es, ms, n, bound, top);
    KeepsBounded(ms[n], es[n], ms[n + 1], bound, top);
    RunNeverUnderflows(scan, es, ms, n);
    var m := Origin(ms[n], es[n]);
    MeasuredIsLow(m.cfg, Measuring(m.cfg, m.st, es[n].world.reading));
  }

  lemma EventOfRun(es: seq<Event>, ms: seq<Machine>, n: nat, bound: nat, top: nat)
    requires BoundedRun(es, ms, bound, top) && n < |es|
    ensures n < |ms| && BoundedEvent(ms[n], es[n], bound, top)
  {
    hide BoundedEvent;
  }

  lemma MeasuredIsLow(cfg: Config, st: State)
    requires Measured(cfg, st)
    ensures LowLoads(st)
  {
    hide Inv, DrainSafe;
    assert FullBudget(cfg, st);
  }

  // ---- a machine on which a mask with a banned CPU is written ----

  const Quiet := Reading([], map[], false)

  ghost predicate NoLoadYet(st: State) {
    (forall o | o in st.objs :: st.objs[o].load == 0) && forall q | q in st.irqs :: st.irqs[q].load == 0
  }

  lemma QuietKeeps(cfg: Config, st: State)
    requires TreeOk(cfg, st.objs.Keys) && IrqsOk(cfg, st.irqs.Keys) && Owned(st) && NoLoadYet(st)
    ensures NoLoadYet(Read(cfg, st, Quiet)) && NoLoadYet(Measuring(cfg, st, Quiet))
  {
    hide TreeOk, IrqsOk, Owned, ClearWork;
    forall q | q in st.irqs
      ensures ClearWork(cfg, st).irqs[q].load == 0
    {
      ClearWorkDoes(cfg, st, q);
    }
  }

  /** After a quiet scan a quiet turn can be taken. */
  lemma FirstTurn(scan: Scan, m: Machine, world: World) returns (m': Machine)
    requires Scanned(scan, m) && scan.reading == Quiet && world.reading == Quiet && |scan.cfg.db| < LIMIT
    ensures TurnOf(m, world, m')
  {
    hide Inv, TreeOk, IrqsOk, Owned, Read, Measuring, Turn, Participants, Ready;
    var cfg := scan.cfg;
    var st1 := ForceRebalanceAll(scan.st, cfg.db);
    ForceFresh(scan.st, cfg.db);
    StartInv(cfg, scan.st, st1);
    InvParts(cfg, st1);
    QuietKeeps(cfg, st1);
    ScannedInv(scan, m);
    InvParts(cfg, m.st);
    QuietKeeps(cfg, m.st);
    var st2 := Measuring(cfg, m.st, Quiet);
    MeasuringDoes(cfg, m.st, Quiet, st2);
    InvParts(cfg, st2);
    NoLoadRoom(cfg, st2);
    var st' := FinishTurn(cfg, m.st, 0, world, st2);
    m' := Machine(cfg, st', 1);
  }

  lemma NoLoadRoom(cfg: Config, st: State)
    requires IrqsOk(cfg, st.irqs.Keys) && NoLoadYet(st) && |cfg.db| < LIMIT
    ensures FullBudget(cfg, st)
  {
    WeightBelow(st.irqs, cfg.db, 0);
  }

  /** The objects of a machine without NUMA, with CPUs 0 and 1 online in one package and
      cache.  CPU 2 is banned, CPU 3 not online. */
  ghost predicate SmallMachine(node: TopoObj, package: TopoObj, cache: TopoObj, cpu0: TopoObj, cpu1: TopoObj) {
    && node.kind == ObjNode && node.number == -1 && {0, 1, 2, 3} <= node.mask
    && package.kind == ObjPackage && package.mask == {0, 1} && cache.kind == ObjCache && cache.mask == {0, 1}
    && cpu0.kind == ObjCpu && cpu0.mask == {0} && cpu1.kind == ObjCpu && cpu1.mask == {1}
  }

  ghost function SmallTree(node: TopoObj, package: TopoObj, cache: TopoObj, cpu0: TopoObj, cpu1: TopoObj, q: IrqInfo): Config {
    Config([node], [package], [cache], [cpu0, cpu1],
           map[node := [package], package := [cache], cache := [cpu0, cpu1], cpu0 := [], cpu1 := []],
           map[node := null, package := node, cache := package, cpu0 := cache, cpu1 := cache],
           [q], {2}, false, ULLONG_MAX)
  }

  ghost function SmallStart(objs: set<TopoObj>, q: IrqInfo): State {
    State(map[q := IrqState(0, 0, 0, false, null)], map o | o in objs :: ObjState(0, 0, false, []), [])
  }

  /** On that machine the first turn writes, for an IRQ with the SUBSET hint {2, 3}, the mask
      {2, 3} with the banned CPU, if the kernel lets it be written. */
  lemma BannedCpuWritten(node: TopoObj, package: TopoObj, cache: TopoObj, cpu0: TopoObj, cpu1: TopoObj, q: IrqInfo, world: World)
    returns (scan: Scan, m: Machine, m': Machine)
    requires SmallMachine(node, package, cache, cpu0, cpu1)
    requires q.numaNode == node && Balances(q) && q.hintPolicy == HintSubset && q.affinityHint == {2, 3}
    requires world.reading == Quiet && q in world.kernel.writable && q in world.kernel.current && world.kernel.current[q] != {2, 3}
    ensures Scanned(scan, m) && TurnOf(m, world, m') && TreeOk(m.cfg, m.st.objs.Keys)
    ensures m.cfg.cpus == [cpu0, cpu1] && m.cfg.banned == {2}
    ensures var st1 := Measuring(m.cfg, m.st, Quiet);
      && Ready(m.cfg, st1)
      && var st2 := CalculatePlacement(m.cfg, st1);
      && q in st2.irqs && Written(m.cfg, st2, world.kernel, q) == Mask({2, 3})
      && m'.st == ActivateMappings(m.cfg, st2, world.kernel)
  {
    hide *;
    var cfg := SmallTree(node, package, cache, cpu0, cpu1, q);
    var objs := {node, package, cache, cpu0, cpu1};
    var st := SmallStart(objs, q);
    SmallParts(node, package, cache, cpu0, cpu1, q);
    SmallTreeOk(cfg, node, package, cache, cpu0, cpu1);
    SmallFresh(cfg, st, objs, node, q);
    scan := Scan(cfg, st, Quiet);
    m := Rescanned(scan);
    RescannedIs(scan, m);
    assert scan.reading == Quiet;
    m' := FirstTurn(scan, m, world);
    ScannedCfg(scan, m);
    ScannedKeys(scan, m);
    SmallExposes(cfg, m.st, node, package, q);
    ExposedWritten(scan, m, world, m', q, node);
  }

  lemma SmallParts(node: TopoObj, package: TopoObj, cache: TopoObj, cpu0: TopoObj, cpu1: TopoObj, q: IrqInfo)
    requires SmallMachine(node, package, cache, cpu0, cpu1)
    ensures var cfg := SmallTree(node, package, cache, cpu0, cpu1, q);
      && SmallLayers(cfg, node, package, cache, cpu0, cpu1) && SmallLinks(cfg, node, package, cache, cpu0, cpu1)
      && cfg.banned == {2} && cfg.db == [q] && !cfg.numaAvail && cfg.nodes == [node] && cfg.cpus == [cpu0, cpu1]
      && node in cfg.children && cfg.children[node] == [package]
    ensures cpu0 != cpu1 && package.mask == {0, 1} && {0, 1, 2, 3} <= node.mask
    ensures |[q]| < LIMIT
  {
    assert 0 in cpu0.mask && 0 !in cpu1.mask;
  }

  ghost predicate SmallLayers(cfg: Config, node: TopoObj, package: TopoObj, cache: TopoObj, cpu0: TopoObj, cpu1: TopoObj) {
    cfg.nodes == [node] && cfg.packages == [package] && cfg.caches == [cache] && cfg.cpus == [cpu0, cpu1] && cfg.banned == {2}
  }

  ghost predicate SmallLinks(cfg: Config, node: TopoObj, package: TopoObj, cache: TopoObj, cpu0: TopoObj, cpu1: TopoObj) {
    && cfg.children.Keys == {node, package, cache, cpu0, cpu1} && cfg.parent.Keys == {node, package, cache, cpu0, cpu1}
    && cfg.children[node] == [package] && cfg.children[package] == [cache] && cfg.children[cache] == [cpu0, cpu1]
    && cfg.children[cpu0] == [] && cfg.children[cpu1] == []
    && cfg.parent[node] == null && cfg.parent[package] == node && cfg.parent[cache] == package
    && cfg.parent[cpu0] == cache && cfg.parent[cpu1] == cache
  }

  lemma SmallTreeOk(cfg: Config, node: TopoObj, package: TopoObj, cache: TopoObj, cpu0: TopoObj, cpu1: TopoObj)
    requires SmallMachine(node, package, cache, cpu0, cpu1) && cpu0 != cpu1
    requires SmallLayers(cfg, node, package, cache, cpu0, cpu1) && SmallLinks(cfg, node, package, cache, cpu0, cpu1)
    ensures TreeOk(cfg, {node, package, cache, cpu0, cpu1})
  {
    hide LayersOk, LinksOk, MasksOk;
    SmallLayersOk(cfg, node, package, cache, cpu0, cpu1);
    SmallLinksOk(cfg, node, package, cache, cpu0, cpu1);
    SmallMasksOk(cfg, node, package, cache, cpu0, cpu1);
  }

  lemma SmallLayersOk(cfg: Config, node: TopoObj, package: TopoObj, cache: TopoObj, cpu0: TopoObj, cpu1: TopoObj)
    requires SmallMachine(node, package, cache, cpu0, cpu1) && cpu0 != cpu1 && SmallLayers(cfg, node, package, cache, cpu0, cpu1)
    ensures LayersOk(cfg, {node, package, cache, cpu0, cpu1})
  {
    assert cfg.nodes[0] == node && cfg.packages[0] == package && cfg.caches[0] == cache && cfg.cpus[0] == cpu0 && cfg.cpus[1] == cpu1;
  }

  lemma SmallLinksOk(cfg: Config, node: TopoObj, package: TopoObj, cache: TopoObj, cpu0: TopoObj, cpu1: TopoObj)
    requires SmallMachine(node, package, cache, cpu0, cpu1) && cpu0 != cpu1 && SmallLinks(cfg, node, package, cache, cpu0, cpu1)
    ensures LinksOk(cfg, {node, package, cache, cpu0, cpu1})
  {
    assert cfg.children[node][0] == package && cfg.children[package][0] == cache;
    assert cfg.children[cache][0] == cpu0 && cfg.children[cache][1] == cpu1;
  }

  lemma SmallMasksOk(cfg: Config, node: TopoObj, package: TopoObj, cache: TopoObj, cpu0: TopoObj, cpu1: TopoObj)
    requires SmallMachine(node, package, cache, cpu0, cpu1) && cfg.banned == {2}
    ensures MasksOk(cfg, {node, package, cache, cpu0, cpu1})
  {
  }

  lemma SmallFresh(cfg: Config, st: State, objs: set<TopoObj>, node: TopoObj, q: IrqInfo)
    requires TreeOk(cfg, objs) && cfg.nodes == [node] && cfg.db == [q] && q.numaNode == node && st == SmallStart(objs, q)
    ensures Fresh(cfg, st) && forall x | x in cfg.db :: x in st.irqs
  {
    hide TreeOk;
    assert st.objs.Keys == objs && st.irqs.Keys == {q};
    assert cfg.nodes[0] == node && cfg.db[0] == q;
  }

  lemma RescannedIs(scan: Scan, m: Machine)
    requires Fresh(scan.cfg, scan.st) && (forall q | q in scan.cfg.db :: q in scan.st.irqs) && m == Rescanned(scan)
    ensures Scanned(scan, m) && m.cfg == scan.cfg
  {
    hide Fresh, BeginFrom;
  }

  lemma SmallExposes(cfg: Config, st: State, node: TopoObj, package: TopoObj, q: IrqInfo)
    requires Inv(cfg, st) && cfg.nodes == [node] && !cfg.numaAvail && cfg.banned == {2}
    requires node in cfg.children && cfg.children[node] == [package] && package.mask == {0, 1}
    requires {0, 1, 2, 3} <= node.mask && q.numaNode == node && q.hintPolicy == HintSubset && q.affinityHint == {2, 3}
    ensures MeantFor(cfg, q, node) && Exposed(cfg, q, node) && MaskOn(q, node) == {2, 3}
  {
    hide Inv, Exposed, MaskOn, MeantFor;
    assert 3 in node.mask && 3 !in {2} && 2 in node.mask;
    assert Unclean(cfg, node, 3, 2);
    UncleanExposes(cfg, st, q, node, 3, 2);
    MeantByDevice(cfg, q, node);
  }

  lemma ScannedKeys(scan: Scan, m: Machine)
    requires Scanned(scan, m)
    ensures m.st.irqs.Keys == scan.st.irqs.Keys && m.cfg == scan.cfg
  {
    hide TreeOk, Read;
    ForceFresh(scan.st, scan.cfg.db);
  }
}
