/** The main loop: what holds at every turn of every run. */
module Runs {
  import opened MergeSort
  import opened Irqs
  import opened Ownership
  import opened Tree
  import opened Placement
  import opened PlacementProofs
  import opened Drain
  import opened DrainProofs
  import opened DrainCycle
  import opened LoadProofs
  import opened Measure
  import opened Activation

  // ---- force_rebalance_irq ----

  function ForceRebalance(st: State, q: IrqInfo): State
    requires q in st.irqs
  {
    var o := st.irqs[q].owner;
    if q.level == BalanceNone then st
    else if o != null && o in st.objs then SetOwner(Migrate(st, On(o), Waiting, q), q, null)
    else SetOwner(st.(rebalance := st.rebalance + [q]), q, null)
  }

  function ForceRebalanceAll(st: State, qs: seq<IrqInfo>): State
    requires forall q | q in qs :: q in st.irqs
    decreases |qs|
  {
    if qs == [] then st else
      var st1 := ForceRebalance(st, qs[0]);
      ForceRebalanceAll(st1, qs[1..])
  }

  /** A machine just scanned: nothing is placed, measured or saving power yet. */
  ghost predicate Fresh(cfg: Config, st: State) {
    && TreeOk(cfg, st.objs.Keys) && IrqsOk(cfg, st.irqs.Keys) && Numbered(st.irqs.Keys) && Addresses(st.irqs.Keys)
    && st.rebalance == []
    && (forall q | q in st.irqs :: st.irqs[q] == IrqState(0, 0, 0, false, null))
    && (forall o | o in st.objs :: st.objs[o] == ObjState(0, 0, false, []))
  }

  predicate Balances(q: IrqInfo) {
    q.level != BalanceNone
  }

  function Participants(qs: seq<IrqInfo>): seq<IrqInfo> {
    if qs == [] then [] else (if Balances(qs[0]) then [qs[0]] else []) + Participants(qs[1..])
  }

  lemma {:induction false} ParticipantsHas(qs: seq<IrqInfo>)
    requires NoDup(qs)
    ensures NoDup(Participants(qs))
    ensures forall q :: q in Participants(qs) <==> q in qs && Balances(q)
  {
    if qs != [] {
      ParticipantsHas(qs[1..]);
      assert qs == [qs[0]] + qs[1..];
    }
  }

  lemma ForceUnplaced(st: State, q: IrqInfo)
    requires q in st.irqs && st.irqs[q].owner == null
    ensures ForceRebalance(st, q) == if Balances(q) then st.(rebalance := st.rebalance + [q]) else st
  {
    assert st.irqs[q := st.irqs[q].(owner := null)] == st.irqs;
  }

  lemma ForceRebalanceStep(st: State, qs: seq<IrqInfo>, st1: State)
    requires qs != [] && (forall q | q in qs :: q in st.irqs) && st.irqs[qs[0]].owner == null
    requires st1 == if Balances(qs[0]) then st.(rebalance := st.rebalance + [qs[0]]) else st
    ensures ForceRebalanceAll(st, qs) == ForceRebalanceAll(st1, qs[1..])
  {
    hide ForceRebalance;
    ForceUnplaced(st, qs[0]);
  }

  lemma {:induction false} ForceFresh(st: State, qs: seq<IrqInfo>)
    requires forall q | q in qs :: q in st.irqs
    requires forall q | q in st.irqs :: st.irqs[q].owner == null
    ensures ForceRebalanceAll(st, qs) == st.(rebalance := st.rebalance + Participants(qs))
    decreases |qs|
  {
    hide *;
    if qs == [] {
      ForceRebalanceNone(st);
      return;
    }
    var st1 := if Balances(qs[0]) then st.(rebalance := st.rebalance + [qs[0]]) else st;
    ForceRebalanceStep(st, qs, st1);
    ForceFresh(st1, qs[1..]);
    ForceAppends(st.rebalance, qs);
  }

  lemma ForceRebalanceNone(st: State)
    ensures ForceRebalanceAll(st, []) == st.(rebalance := st.rebalance + Participants([]))
  {
    assert st.rebalance + Participants([]) == st.rebalance;
  }

  lemma ForceAppends(list: seq<IrqInfo>, qs: seq<IrqInfo>)
    requires qs != []
    ensures (if Balances(qs[0]) then list + [qs[0]] else list) + Participants(qs[1..]) == list + Participants(qs)
  {
    var rest := Participants(qs[1..]);
    ParticipantsFirst(qs);
    hide *;
    if Balances(qs[0]) {
      assert (list + [qs[0]]) + rest == list + ([qs[0]] + rest);
    }
  }

  lemma ParticipantsFirst(qs: seq<IrqInfo>)
    requires qs != []
    ensures Participants(qs) == if Balances(qs[0]) then [qs[0]] + Participants(qs[1..]) else Participants(qs[1..])
  {
    if !Balances(qs[0]) {
      assert [] + Participants(qs[1..]) == Participants(qs[1..]);
    }
  }

  /** force_rebalance_irq keeps ownership of a balanced IRQ just when the IRQ is not
      waiting already: it appends without looking. */
  lemma ForceKeepsOwned(st: State, q: IrqInfo)
    requires Owned(st) && q in st.irqs && Balances(q)
    ensures Owned(ForceRebalance(st, q)) <==> q !in st.rebalance
  {
    assert OwnedIrq(st, q);
    var o := st.irqs[q].owner;
    if o != null {
      ReleaseMoves(st, o, q);
      MoveKeepsOwned(st, Release(st, o, q), On(o), Waiting, q, 0);
    } else {
      assert ListOk(st, st.rebalance);
      var i :| 0 <= i < |st.rebalance| && st.rebalance[i] == q;
      var st1 := ForceRebalance(st, q);
      assert st1.rebalance[i] == st1.rebalance[|st.rebalance|];
      assert !NoDup(st1.rebalance);
    }
  }

  // ---- a turn ----

  ghost function ActivateMappings(cfg: Config, st: State, kernel: Kernel): (r: State)
    requires Ready(cfg, st)
    ensures r.objs.Keys == st.objs.Keys && r.irqs.Keys == st.irqs.Keys
  {
    DbKnown(cfg, st.irqs.Keys);
    ActivateAll(cfg, st, kernel, cfg.db)
  }

  lemma DbKnown(cfg: Config, irqs: set<IrqInfo>)
    requires IrqsOk(cfg, irqs)
    ensures forall q | q in cfg.db :: q in irqs
    ensures forall q | q in irqs :: q in cfg.db
  {
  }

  /** What the outside world contributes to a turn. */
  datatype World = World(reading: Reading, dev: Deviations, kernel: Kernel)

  /** One turn of the main loop without a rescan, in which no scan for the best
      object reads through NULL.  Loads are arbitrary. */
  ghost predicate Turn(cfg: Config, st: State, cycleCount: nat, world: World, st': State)
    requires TreeOk(cfg, st.objs.Keys)
  {
    var st1 := Measuring(cfg, st, world.reading);
    && Ready(cfg, st1)
    && var st2 := if cycleCount > 0 then UpdateMigration(cfg, st1, cycleCount, world.dev) else st1;
       var st3 := CalculatePlacement(cfg, st2);
       PlacementSafe(cfg, st2) && st' == ActivateMappings(cfg, st3, world.kernel)
  }

  /** Building the tree and the database, force_rebalance_irq, and the first reading. */
  ghost function BeginFrom(cfg: Config, st: State, reading: Reading): State
    requires Fresh(cfg, st) && forall q | q in cfg.db :: q in st.irqs
  {
    ForceFresh(st, cfg.db);
    Read(cfg, ForceRebalanceAll(st, cfg.db), reading)
  }

  // ---- every turn keeps the invariants ----

  lemma BeginInv(cfg: Config, st: State, reading: Reading, st': State)
    requires Fresh(cfg, st) && (forall q | q in cfg.db :: q in st.irqs) && st' == BeginFrom(cfg, st, reading)
    ensures Inv(cfg, st') && forall o | o in st'.objs :: !st'.objs[o].powersave
  {
    hide TreeOk, Read, IrqsOk, Inv;
    var st1 := ForceRebalanceAll(st, cfg.db);
    ForceFresh(st, cfg.db);
    StartInv(cfg, st, st1);
    InvParts(cfg, st1);
    ReadDoes(cfg, st1, reading, st');
    ReckonedPlaces(st1, st');
    SamePlacesKeepsInv(cfg, st1, st');
  }

  lemma StartInv(cfg: Config, st: State, st1: State)
    requires Fresh(cfg, st) && st1 == st.(rebalance := st.rebalance + Participants(cfg.db))
    ensures Inv(cfg, st1)
  {
    hide LayersOk, LinksOk, MasksOk, TreeOk;
    DbKnown(cfg, st.irqs.Keys);
    ParticipantsHas(cfg.db);
    assert st1.rebalance == Participants(cfg.db);
    forall i | 0 <= i < |st1.rebalance|
      ensures st1.rebalance[i] in st1.irqs
    {
      assert st1.rebalance[i] in Participants(cfg.db);
    }
    forall q | q in st1.irqs
      ensures OwnedIrq(st1, q) && Fitting(st1, q)
    {
    }
    MakeInv(cfg, st1);
  }

  lemma ActivateKeepsInv(cfg: Config, st: State, kernel: Kernel, st': State)
    requires Inv(cfg, st) && Ready(cfg, st) && st' == ActivateMappings(cfg, st, kernel)
    ensures Inv(cfg, st') && SamePlaces(st, st')
  {
    hide Inv, ActivateAll, TreeOk, Known;
    DbKnown(cfg, st.irqs.Keys);
    ActivateAllDoes(cfg, st, kernel, cfg.db);
    SamePlacesKeepsInv(cfg, st, st');
  }

  lemma TurnIs(cfg: Config, st: State, cycleCount: nat, world: World, st': State)
    returns (st1: State, st2: State, st3: State)
    requires TreeOk(cfg, st.objs.Keys) && Turn(cfg, st, cycleCount, world, st')
    ensures st1 == Measuring(cfg, st, world.reading) && Ready(cfg, st1)
    ensures st2 == (if cycleCount > 0 then UpdateMigration(cfg, st1, cycleCount, world.dev) else st1) && Ready(cfg, st2)
    ensures st3 == CalculatePlacement(cfg, st2) && Ready(cfg, st3) && PlacementSafe(cfg, st2)
    ensures st' == ActivateMappings(cfg, st3, world.kernel)
  {
    hide TreeOk, Ready, Measuring, CalculatePlacement, UpdateMigration, ActivateMappings, PlacementSafe;
    st1 := Measuring(cfg, st, world.reading);
    st2 := if cycleCount > 0 then UpdateMigration(cfg, st1, cycleCount, world.dev) else st1;
    st3 := CalculatePlacement(cfg, st2);
  }

  lemma TurnMeets(cfg: Config, st: State, cycleCount: nat, world: World, st1: State, st2: State, st3: State, st': State)
    requires TreeOk(cfg, st.objs.Keys) && st1 == Measuring(cfg, st, world.reading) && Ready(cfg, st1)
    requires st2 == (if cycleCount > 0 then UpdateMigration(cfg, st1, cycleCount, world.dev) else st1) && Ready(cfg, st2)
    requires st3 == CalculatePlacement(cfg, st2) && PlacementSafe(cfg, st2) && Ready(cfg, st3) && st' == ActivateMappings(cfg, st3, world.kernel)
    ensures Turn(cfg, st, cycleCount, world, st')
  {
    hide TreeOk, Ready, Measuring, CalculatePlacement, UpdateMigration, ActivateMappings, PlacementSafe;
  }

  /** Powersave modes over a turn: at most one CPU enters, or all leave, or nothing changes. */
  ghost predicate PowerTurn(st: State, st': State, entered: set<TopoObj>)
  {
    && st'.objs.Keys == st.objs.Keys && |entered| <= 1
    && (|| (forall o | o in st.objs :: st'.objs[o].powersave <==> st.objs[o].powersave || o in entered)
        || (entered == {} && forall o | o in st.objs :: !st'.objs[o].powersave))
  }

  /** An IRQ that waits after a turn has no node that would take it. */
  ghost predicate WaitersHopeless(cfg: Config, st: State) {
    forall q | q in st.irqs && q in st.rebalance :: NoNode(cfg, q)
  }

  lemma MigrationStep(cfg: Config, sane: bool, st1: State, cycleCount: nat, dev: Deviations, st2: State) returns (entered: set<TopoObj>)
    requires Held(cfg, st1, sane) && Ready(cfg, st1)
    requires st2 == if cycleCount > 0 then UpdateMigration(cfg, st1, cycleCount, dev) else st1
    ensures Held(cfg, st2, sane) && PowerTurn(st1, st2, entered) && Relieved(st1, st2, entered)
  {
    hide *;
    if cycleCount > 0 {
      entered := UpdateMigrationDoes(cfg, sane, st1, cycleCount, dev, st2);
      RelievedKeys(st1, st2, entered);
      PowerStepTurn(cfg, st1, st2, entered);
    } else {
      entered := {};
      NoPowerTurn(st1);
      NoAdjust(cfg, st1);
    }
  }

  lemma PowerStepTurn(cfg: Config, st: State, st': State, entered: set<TopoObj>)
    requires st'.objs.Keys == st.objs.Keys && PowerStep(cfg, st, st', entered) && |entered| <= 1
    ensures PowerTurn(st, st', entered)
  {
  }

  lemma NoPowerTurn(st: State)
    ensures PowerTurn(st, st, {})
  {
  }

  lemma PowerTurnFrames(st: State, st1: State, st2: State, st3: State, st': State, entered: set<TopoObj>)
    requires SamePlaces(st, st1) && PowerTurn(st1, st2, entered) && SameFrame(st2, st3) && SamePlaces(st3, st')
    ensures PowerTurn(st, st', entered)
  {
  }

  lemma SameWaiters(cfg: Config, st: State, st': State)
    requires SamePlaces(st, st') && forall q | q in st.irqs && q in st.rebalance :: NoNode(cfg, q)
    ensures WaitersHopeless(cfg, st')
  {
  }

  /** Whatever the loads, a turn keeps every invariant, lets at most one CPU enter
      power saving, and leaves an IRQ waiting only if no node will have it. */
  lemma TurnKeepsInv(cfg: Config, st: State, cycleCount: nat, world: World, st': State) returns (entered: set<TopoObj>)
    requires Inv(cfg, st) && TreeOk(cfg, st.objs.Keys) && Turn(cfg, st, cycleCount, world, st')
    ensures Inv(cfg, st') && TreeOk(cfg, st'.objs.Keys)
    ensures PowerTurn(st, st', entered)
    ensures WaitersHopeless(cfg, st')
  {
    hide *;
    var st1, st2, st3 := TurnIs(cfg, st, cycleCount, world, st');
    MeasuringDoes(cfg, st, world.reading, st1);
    ReckonedPlaces(st, st1);
    JustInv(cfg, st1);
    entered := MigrationStep(cfg, false, st1, cycleCount, world.dev, st2);
    JustInv(cfg, st2);
    PlacementDescends(cfg, st2, st3);
    ActivateKeepsInv(cfg, st3, world.kernel, st');
    InvParts(cfg, st');
    PowerTurnFrames(st, st1, st2, st3, st', entered);
    SameWaiters(cfg, st3, st');
  }

  // ---- IRQs that stay on nodes ----

  /** An IRQ that is on a node is stuck there: no package below will ever take
      it; the node is usable; and it is the one the IRQ prefers, if it can be. */
  ghost predicate StuckOnNode(cfg: Config, st: State, q: IrqInfo)
    requires q in st.irqs
  {
    var o := st.irqs[q].owner;
    o != null && o.kind == ObjNode ==>
      NoChildSuits(cfg, o, q) && UsableNode(cfg, o) && (Preferred(cfg, q) ==> o == q.numaNode)
  }

  ghost predicate Stuck(cfg: Config, st: State) {
    forall q | q in st.irqs :: StuckOnNode(cfg, st, q)
  }

  lemma StuckSame(cfg: Config, st: State, st': State)
    requires SamePlaces(st, st') && Stuck(cfg, st)
    ensures Stuck(cfg, st')
  {
    hide NoChildSuits;
    forall q | q in st'.irqs
      ensures StuckOnNode(cfg, st', q)
    {
      assert StuckOnNode(cfg, st, q);
    }
  }

  lemma StuckRelieved(cfg: Config, st: State, st': State, entered: set<TopoObj>)
    requires Relieved(st, st', entered) && Stuck(cfg, st)
    ensures Stuck(cfg, st')
  {
    hide NoChildSuits, MayLeave;
    forall q | q in st'.irqs
      ensures StuckOnNode(cfg, st', q)
    {
      assert StuckOnNode(cfg, st, q);
    }
  }

  /** A settled IRQ on a node has no package that suits it: packages never save power. */
  lemma SettledOnNode(cfg: Config, st: State, q: IrqInfo)
    requires Inv(cfg, st) && TreeOk(cfg, st.objs.Keys) && q in st.irqs && st.irqs[q].owner != null && st.irqs[q].owner.kind == ObjNode
    requires AtLevel(ObjNode, q.level) || Settled(cfg, st, q)
    requires st.irqs[q].moved
    ensures NoChildSuits(cfg, st.irqs[q].owner, q)
  {
    hide Ready, TreeOk, Suits, Owned;
    var o := st.irqs[q].owner;
    OwnerList(st, o, q);
    BalancedOwner(st, q);
    KeysFromInv(cfg, st, o);
    forall c | c in cfg.children[o]
      ensures !Suits(cfg, q, c)
    {
      assert !Eligible(cfg, st, q, c);
      assert c.kind.Depth() == 1;
    }
  }

  lemma BalancedOwner(st: State, q: IrqInfo)
    requires Owned(st) && q in st.irqs && st.irqs[q].owner != null
    ensures q.level != BalanceNone
  {
    assert OwnedIrq(st, q);
  }

  lemma PlacedStuck(cfg: Config, st: State, st': State, q: IrqInfo)
    requires Inv(cfg, st') && TreeOk(cfg, st'.objs.Keys) && Stuck(cfg, st) && Followed(cfg, st, st') && q in st'.irqs
    requires st.rebalance == [] ==> st' == st
    requires st.rebalance != [] && st'.irqs[q].owner != null && st'.irqs[q].moved ==>
      AtLevel(st'.irqs[q].owner.kind, q.level) || Settled(cfg, st', q)
    ensures StuckOnNode(cfg, st', q)
  {
    hide Inv, TreeOk, NoChildSuits, Settled, Suits, IdleKept, UsableNode;
    assert StuckOnNode(cfg, st, q);
    var o := st'.irqs[q].owner;
    if o != null && o.kind == ObjNode && st.rebalance != [] && st'.irqs[q].moved {
      SettledOnNode(cfg, st', q);
    }
  }

  lemma TurnKeepsStuck(cfg: Config, st: State, cycleCount: nat, world: World, st': State)
    requires Inv(cfg, st) && TreeOk(cfg, st.objs.Keys) && Turn(cfg, st, cycleCount, world, st') && Stuck(cfg, st)
    ensures Stuck(cfg, st')
  {
    hide *;
    var st1, st2, st3 := TurnIs(cfg, st, cycleCount, world, st');
    MeasuringDoes(cfg, st, world.reading, st1);
    ReckonedPlaces(st, st1);
    StuckSame(cfg, st, st1);
    JustInv(cfg, st1);
    var entered := MigrationStep(cfg, false, st1, cycleCount, world.dev, st2);
    StuckRelieved(cfg, st1, st2, entered);
    JustInv(cfg, st2);
    PlacementDescends(cfg, st2, st3);
    InvParts(cfg, st3);
    AllPlacedStuck(cfg, st2, st3);
    ActivateKeepsInv(cfg, st3, world.kernel, st');
    StuckSame(cfg, st3, st');
  }

  lemma AllPlacedStuck(cfg: Config, st: State, st': State)
    requires Inv(cfg, st') && TreeOk(cfg, st'.objs.Keys) && Stuck(cfg, st) && Followed(cfg, st, st')
    requires st.rebalance == [] ==> st' == st
    requires st.rebalance != [] ==> forall q | q in st'.irqs && st'.irqs[q].owner != null && st'.irqs[q].moved ::
      AtLevel(st'.irqs[q].owner.kind, q.level) || Settled(cfg, st', q)
    ensures Stuck(cfg, st')
  {
    hide Inv, TreeOk, StuckOnNode, Settled, Followed;
    forall q | q in st'.irqs
      ensures StuckOnNode(cfg, st', q)
    {
      PlacedStuck(cfg, st, st', q);
    }
  }

  /** An IRQ that waits when a turn places IRQs, and can be given one node only, none
      of whose packages will have it, ends on that node. */
  lemma EndsOnNode(cfg: Config, st: State, cycleCount: nat, world: World, st': State, q: IrqInfo, node: TopoObj)
    requires Inv(cfg, st) && TreeOk(cfg, st.objs.Keys) && Turn(cfg, st, cycleCount, world, st') && cycleCount == 0
    requires q in st.irqs && q in st.rebalance && Headed(cfg, q, node) && NoChildSuits(cfg, node, q)
    ensures q in st'.irqs && st'.irqs[q].owner == node
  {
    hide *;
    var st1, st2, st3 := TurnIs(cfg, st, cycleCount, world, st');
    MeasuringDoes(cfg, st, world.reading, st1);
    ReckonedPlaces(st, st1);
    SameWaiting(st, st1, q);
    HeadedEnds(cfg, st2, st3, q, node);
    PlacementDescends(cfg, st2, st3);
    ActivateKeepsInv(cfg, st3, world.kernel, st');
    SameOwner(st3, st', q);
  }

  lemma SameWaiting(st: State, st1: State, q: IrqInfo)
    requires SamePlaces(st, st1) && q in st.irqs
    ensures q in st1.irqs && st1.rebalance == st.rebalance
  {
  }

  lemma SameOwner(st: State, st1: State, q: IrqInfo)
    requires SamePlaces(st, st1) && q in st.irqs
    ensures q in st1.irqs && st1.irqs[q].owner == st.irqs[q].owner
  {
  }

  // ---- runs ----

  /** The daemon between turns. */
  datatype Machine = Machine(cfg: Config, st: State, cycleCount: nat)

  /** A scan of the machine, and the first reading after it. */
  datatype Scan = Scan(cfg: Config, st: State, reading: Reading)

  /** A turn, or a rescan followed by a turn on the new tree and database. */
  datatype Event = Plain(world: World) | Rescan(scan: Scan, world: World)

  ghost predicate Scanned(scan: Scan, m: Machine) {
    && Fresh(scan.cfg, scan.st) && (forall q | q in scan.cfg.db :: q in scan.st.irqs)
    && m == Machine(scan.cfg, BeginFrom(scan.cfg, scan.st, scan.reading), 0)
  }

  ghost predicate TurnOf(m: Machine, world: World, m': Machine) {
    && TreeOk(m.cfg, m.st.objs.Keys)
    && m'.cfg == m.cfg && m'.cycleCount == m.cycleCount + 1
    && Turn(m.cfg, m.st, m.cycleCount, world, m'.st)
  }

  ghost predicate Next(m: Machine, e: Event, m': Machine) {
    match e
    case Plain(world) => TurnOf(m, world, m')
    case Rescan(scan, world) => Scanned(scan, Rescanned(scan)) && TurnOf(Rescanned(scan), world, m')
  }

  ghost function Rescanned(scan: Scan): Machine {
    if Fresh(scan.cfg, scan.st) && (forall q | q in scan.cfg.db :: q in scan.st.irqs)
    then Machine(scan.cfg, BeginFrom(scan.cfg, scan.st, scan.reading), 0)
    else Machine(scan.cfg, scan.st, 0)
  }

  /** The machines between the turns of a run. */
  ghost predicate Run(scan: Scan, es: seq<Event>, ms: seq<Machine>) {
    && |ms| == |es| + 1 && Scanned(scan, ms[0])
    && forall i | 0 <= i < |es| :: Next(ms[i], es[i], ms[i + 1])
  }

  /** Every IRQ that takes part in balancing is in exactly one list, once: the list
      of its assigned object, or the waiting list when it has none. */
  ghost predicate OneList(st: State, q: IrqInfo)
    requires q in st.irqs
  {
    && (st.irqs[q].owner == null ==>
          && multiset(st.rebalance)[q] == 1
          && forall o | o in st.objs :: q !in st.objs[o].interrupts)
    && (st.irqs[q].owner != null ==>
          && st.irqs[q].owner in st.objs && multiset(st.objs[st.irqs[q].owner].interrupts)[q] == 1
          && q !in st.rebalance
          && forall o | o in st.objs && o != st.irqs[q].owner :: q !in st.objs[o].interrupts)
  }

  lemma OwnedOneList(st: State, q: IrqInfo)
    requires Owned(st) && q in st.irqs && Balances(q)
    ensures OneList(st, q)
  {
    assert OwnedIrq(st, q);
    var o := st.irqs[q].owner;
    var list := if o == null then st.rebalance else st.objs[o].interrupts;
    assert ListOk(st, st.rebalance);
    assert o != null ==> ListOk(st, st.objs[o].interrupts);
    assert q in list;
    OnceInMultiset(list, q);
  }

  lemma ScannedInv(scan: Scan, m: Machine)
    requires Scanned(scan, m)
    ensures Inv(m.cfg, m.st) && forall o | o in m.st.objs :: !m.st.objs[o].powersave
  {
    hide Inv, Fresh, BeginFrom;
    BeginInv(scan.cfg, scan.st, scan.reading, m.st);
  }

  /** The machine an event's turn starts from: the last one, or that of the new scan. */
  ghost function Origin(m: Machine, e: Event): Machine {
    match e
    case Plain(_) => m
    case Rescan(scan, _) => Rescanned(scan)
  }

  ghost function Before(m: Machine, e: Event): State {
    Origin(m, e).st
  }

  lemma NextInv(m: Machine, e: Event, m': Machine) returns (entered: set<TopoObj>)
    requires Inv(m.cfg, m.st) && Next(m, e, m')
    ensures Inv(m'.cfg, m'.st) && WaitersHopeless(m'.cfg, m'.st)
    ensures PowerTurn(Before(m, e), m'.st, entered)
    ensures e.Rescan? ==> forall o | o in Before(m, e).objs :: !Before(m, e).objs[o].powersave
  {
    hide Inv, Turn, TreeOk, Scanned, WaitersHopeless, PowerTurn, Rescanned;
    match e
    case Plain(world) =>
      entered := TurnKeepsInv(m.cfg, m.st, m.cycleCount, world, m'.st);
    case Rescan(scan, world) =>
      var m0 := Rescanned(scan);
      ScannedInv(scan, m0);
      entered := TurnKeepsInv(m0.cfg, m0.st, m0.cycleCount, world, m'.st);
  }

  lemma {:induction false} RunInv(scan: Scan, es: seq<Event>, ms: seq<Machine>, n: nat)
    requires Run(scan, es, ms) && n < |ms|
    ensures Inv(ms[n].cfg, ms[n].st)
  {
    hide Inv, Next, Scanned;
    if n == 0 {
      ScannedInv(scan, ms[0]);
    } else {
      RunInv(scan, es, ms, n - 1);
      assert Next(ms[n - 1], es[n - 1], ms[n]);
      var entered := NextInv(ms[n - 1], es[n - 1], ms[n]);
    }
  }

  /** In every run, with any loads and any rescans, after every turn: each IRQ that
      is balanced is in exactly one list, once, and no other is in any; those on objects
      fit them; and the CPUs that save power are CPUs without IRQs. */
  lemma RunKeepsOwnership(scan: Scan, es: seq<Event>, ms: seq<Machine>, n: nat, q: IrqInfo)
    requires Run(scan, es, ms) && n < |ms| && q in ms[n].st.irqs
    ensures Balances(q) ==> OneList(ms[n].st, q)
    ensures !Balances(q) ==> q !in ms[n].st.rebalance && forall o | o in ms[n].st.objs :: q !in ms[n].st.objs[o].interrupts
    ensures Fitting(ms[n].st, q) && PowerOk(ms[n].st)
  {
    hide Run, OneList, Ready;
    RunInv(scan, es, ms, n);
    assert OwnedIrq(ms[n].st, q);
    if Balances(q) {
      OwnedOneList(ms[n].st, q);
    }
  }

  /** In every turn of a run at most one CPU enters power saving (after a rescan none
      was in it); those in it after the turn have no IRQs; and an IRQ still waiting has no
      node that would take it. */
  lemma RunPowersave(scan: Scan, es: seq<Event>, ms: seq<Machine>, n: nat) returns (entered: set<TopoObj>)
    requires Run(scan, es, ms) && n < |es|
    ensures PowerTurn(Before(ms[n], es[n]), ms[n + 1].st, entered)
    ensures es[n].Rescan? ==> forall o | o in Before(ms[n], es[n]).objs :: !Before(ms[n], es[n]).objs[o].powersave
    ensures forall o | o in ms[n + 1].st.objs && ms[n + 1].st.objs[o].powersave ::
      o.kind == ObjCpu && ms[n + 1].st.objs[o].interrupts == []
    ensures WaitersHopeless(ms[n + 1].cfg, ms[n + 1].st)
  {
    hide Ready, Owned, PowerTurn, WaitersHopeless, Next, Scanned;
    RunInv(scan, es, ms, n);
    entered := NextInv(ms[n], es[n], ms[n + 1]);
  }

  lemma OriginTurn(m: Machine, e: Event, m': Machine)
    requires Inv(m.cfg, m.st) && Next(m, e, m')
    ensures var m0 := Origin(m, e); Inv(m0.cfg, m0.st) && TurnOf(m0, e.world, m')
  {
    hide Inv, TurnOf, Scanned, Rescanned;
    if e.Rescan? {
      ScannedInv(e.scan, Rescanned(e.scan));
    }
  }

  lemma SaversFramed(st2: State, st3: State, st': State)
    requires SameFrame(st2, st3) && SamePlaces(st3, st')
    ensures Savers(st') == Savers(st2)
  {
  }

  lemma NothingDecided(cfg: Config, st: State, deviation: real)
    requires forall d | d in cfg.cpus :: d in st.objs
    ensures SaversAfter(cfg, st, 0, deviation) == Savers(st)
  {
    hide Savers, Average, DeviationUsed;
  }

  /** A turn leaves those CPUs saving power that its loads, before draining, decide on. */
  lemma TurnDecides(cfg: Config, st: State, cycleCount: nat, world: World, st': State)
    requires Inv(cfg, st) && TreeOk(cfg, st.objs.Keys) && Turn(cfg, st, cycleCount, world, st')
    ensures var st1 := Measuring(cfg, st, world.reading);
      && (forall d | d in cfg.cpus :: d in st1.objs)
      && Savers(st') == SaversAfter(cfg, st1, cycleCount, world.dev.cpus)
  {
    hide *;
    var st1, st2, st3 := TurnIs(cfg, st, cycleCount, world, st');
    MeasuringDoes(cfg, st, world.reading, st1);
    JustInv(cfg, st1);
    var entered := MigrationStep(cfg, false, st1, cycleCount, world.dev, st2);
    JustInv(cfg, st2);
    PlacementDescends(cfg, st2, st3);
    ActivateKeepsInv(cfg, st3, world.kernel, st');
    SaversFramed(st2, st3, st');
    if cycleCount > 0 {
      UpdateDecides(cfg, st1, cycleCount, world.dev, st2);
    } else {
      CpusThere(cfg, st1);
      NothingDecided(cfg, st1, world.dev.cpus);
    }
  }

  lemma CpusThere(cfg: Config, st: State)
    requires Ready(cfg, st)
    ensures forall d | d in cfg.cpus :: d in st.objs
  {
    hide TreeOk;
    LayerKnown(cfg, st.objs.Keys, ObjCpu);
    assert cfg.cpus == Layer(cfg, ObjCpu);
  }

  /** In every turn of every run, with any loads: who saves power after it is decided by
      the CPU loads it measured and by who saved power before, as `SaversAfter` says. */
  lemma RunPowerDecision(scan: Scan, es: seq<Event>, ms: seq<Machine>, n: nat)
    requires Run(scan, es, ms) && n < |es|
    ensures var m := Origin(ms[n], es[n]);
      && TreeOk(m.cfg, m.st.objs.Keys)
      && var st1 := Measuring(m.cfg, m.st, es[n].world.reading);
      && (forall d | d in m.cfg.cpus :: d in st1.objs)
      && Savers(ms[n + 1].st) == SaversAfter(m.cfg, st1, m.cycleCount, es[n].world.dev.cpus)
  {
    hide Inv, Next, Scanned, Turn, TreeOk, Origin, Savers, SaversAfter, Measuring;
    RunInv(scan, es, ms, n);
    assert Next(ms[n], es[n], ms[n + 1]);
    OriginTurn(ms[n], es[n], ms[n + 1]);
    var m := Origin(ms[n], es[n]);
    TurnDecides(m.cfg, m.st, m.cycleCount, es[n].world, ms[n + 1].st);
  }

  /** In every turn of every run, whatever the loads, no subtraction of the drain wraps, for
      any candidate on any of the four layers; and when the loads measured are all in the
      lower half of the range, no addition does. */
  lemma RunNeverUnderflows(scan: Scan, es: seq<Event>, ms: seq<Machine>, n: nat)
    requires Run(scan, es, ms) && n < |es|
    ensures var m := Origin(ms[n], es[n]);
      && TreeOk(m.cfg, m.st.objs.Keys)
      && var st1 := Measuring(m.cfg, m.st, es[n].world.reading);
      && Ready(m.cfg, st1)
      && UpdateFits(m.cfg, st1, m.cycleCount, es[n].world.dev, false)
      && (LowLoads(st1) ==> UpdateFits(m.cfg, st1, m.cycleCount, es[n].world.dev, true))
  {
    hide *;
    RunNext(scan, es, ms, n);
    RunInv(scan, es, ms, n);
    OriginTurn(ms[n], es[n], ms[n + 1]);
    var m := Origin(ms[n], es[n]);
    InvParts(m.cfg, m.st);
    MeasuredExact(m.cfg, m.st, es[n].world.reading, m.cycleCount, es[n].world.dev);
  }

  lemma RunNext(scan: Scan, es: seq<Event>, ms: seq<Machine>, n: nat)
    requires Run(scan, es, ms) && n < |es|
    ensures n + 1 < |ms| && Next(ms[n], es[n], ms[n + 1])
  {
    hide Next, Scanned;
  }

  lemma MeasuredExact(cfg: Config, st: State, reading: Reading, cycleCount: nat, dev: Deviations)
    requires Inv(cfg, st) && TreeOk(cfg, st.objs.Keys)
    ensures var st1 := Measuring(cfg, st, reading);
      && Ready(cfg, st1) && UpdateFits(cfg, st1, cycleCount, dev, false)
      && (LowLoads(st1) ==> UpdateFits(cfg, st1, cycleCount, dev, true))
  {
    hide *;
    var st1 := Measuring(cfg, st, reading);
    MeasuringDoes(cfg, st, reading, st1);
    InvParts(cfg, st1);
    UpdateExact(cfg, false, st1, cycleCount, dev);
    if LowLoads(st1) {
      UpdateExact(cfg, true, st1, cycleCount, dev);
    }
  }

  // ---- counts, and what is written ----

  lemma CountsFramed(st: State, st': State)
    requires st'.irqs.Keys == st.irqs.Keys && CountsOk(st.irqs)
    requires forall q | q in st.irqs :: st'.irqs[q].irqCount == st.irqs[q].irqCount && st'.irqs[q].lastIrqCount == st.irqs[q].lastIrqCount
    ensures CountsOk(st'.irqs)
  {
  }

  lemma RelievedCounts(st: State, st': State, entered: set<TopoObj>)
    requires Relieved(st, st', entered) && CountsOk(st.irqs)
    ensures CountsOk(st'.irqs)
  {
    hide MayLeave;
    CountsFramed(st, st');
  }

  lemma PlacedCounts(st: State, st': State)
    requires SameFrame(st, st') && CountsOk(st.irqs)
    ensures CountsOk(st'.irqs)
  {
    CountsFramed(st, st');
  }

  /** What activate_mappings leaves: of a placed state, `moved` cleared for what was written. */
  ghost predicate Mapped(cfg: Config, st: State, kernel: Kernel, st': State) {
    && st'.irqs.Keys == st.irqs.Keys
    && forall q | q in st.irqs ::
         st'.irqs[q] == if MustWrite(ChosenMask(cfg.banned, q, st.irqs[q].owner), q, st.irqs[q], kernel)
                        then st.irqs[q].(moved := false) else st.irqs[q]
  }

  lemma ActivationMaps(cfg: Config, st: State, kernel: Kernel, st': State)
    requires Ready(cfg, st) && st' == ActivateMappings(cfg, st, kernel)
    ensures Mapped(cfg, st, kernel, st')
  {
    hide TreeOk, Known, ActivateAll, ChosenMask, Written, MustWrite;
    DbKnown(cfg, st.irqs.Keys);
    ActivateAllDoes(cfg, st, kernel, cfg.db);
  }

  lemma MappedCounts(cfg: Config, st: State, kernel: Kernel, st': State)
    requires Mapped(cfg, st, kernel, st') && CountsOk(st.irqs)
    ensures CountsOk(st'.irqs)
  {
    hide MustWrite, ChosenMask;
    CountsFramed(st, st');
  }

  lemma TurnMaps(cfg: Config, st: State, cycleCount: nat, world: World, st': State) returns (st3: State)
    requires Inv(cfg, st) && TreeOk(cfg, st.objs.Keys) && Turn(cfg, st, cycleCount, world, st')
    ensures Mapped(cfg, st3, world.kernel, st') && (CountsOk(st.irqs) ==> CountsOk(st'.irqs))
    ensures forall q | q in st3.irqs && st3.irqs[q].owner != null && q in st.irqs && st.irqs[q].owner == null :: st3.irqs[q].moved
  {
    hide *;
    var st1, st2;
    st1, st2, st3 := TurnIs(cfg, st, cycleCount, world, st');
    var n := MeasuringReads(cfg, st, world.reading, st1);
    MeasuringDoes(cfg, st, world.reading, st1);
    ReckonedPlaces(st, st1);
    JustInv(cfg, st1);
    var entered := MigrationStep(cfg, false, st1, cycleCount, world.dev, st2);
    JustInv(cfg, st2);
    PlacementDescends(cfg, st2, st3);
    ActivationMaps(cfg, st3, world.kernel, st');
    MovedWhenPlaced(cfg, st, st1, st2, st3, entered);
    if CountsOk(st.irqs) {
      RelievedCounts(st1, st2, entered);
      PlacedCounts(st2, st3);
      MappedCounts(cfg, st3, world.kernel, st');
    }
  }

  lemma MovedWhenPlaced(cfg: Config, st: State, st1: State, st2: State, st3: State, entered: set<TopoObj>)
    requires SamePlaces(st, st1) && Relieved(st1, st2, entered) && Followed(cfg, st2, st3)
    ensures forall q | q in st3.irqs && st3.irqs[q].owner != null && q in st.irqs && st.irqs[q].owner == null :: st3.irqs[q].moved
  {
    hide MayLeave, IdleKept, NoChildSuits, UsableNode, Preferred;
  }

  /** In every turn of every run the masks written are exactly those of the IRQs that have moved,
      among them all that waited before, and whose mask differs from the current one, as far as
      the kernel tells and allows. */
  lemma RunWrites(scan: Scan, es: seq<Event>, ms: seq<Machine>, n: nat) returns (placed: State)
    requires Run(scan, es, ms) && n < |es|
    ensures Mapped(ms[n + 1].cfg, placed, es[n].world.kernel, ms[n + 1].st)
    ensures var st := Before(ms[n], es[n]);
      forall q | q in placed.irqs && placed.irqs[q].owner != null && q in st.irqs && st.irqs[q].owner == null :: placed.irqs[q].moved
  {
    hide *;
    RunNext(scan, es, ms, n);
    RunInv(scan, es, ms, n);
    OriginTurn(ms[n], es[n], ms[n + 1]);
    var m := Origin(ms[n], es[n]);
    TurnParts(m, es[n].world, ms[n + 1]);
    BeforeIs(ms[n], es[n]);
    placed := TurnMaps(m.cfg, m.st, m.cycleCount, es[n].world, ms[n + 1].st);
  }

  lemma TurnParts(m: Machine, world: World, m': Machine)
    requires TurnOf(m, world, m')
    ensures TreeOk(m.cfg, m.st.objs.Keys) && Turn(m.cfg, m.st, m.cycleCount, world, m'.st) && m'.cfg == m.cfg
  {
    hide Turn, TreeOk;
  }

  lemma BeforeIs(m: Machine, e: Event)
    ensures Before(m, e) == Origin(m, e).st
  {
  }

  lemma ScannedCounts(scan: Scan, m: Machine)
    requires Scanned(scan, m)
    ensures CountsOk(m.st.irqs)
  {
    hide TreeOk, IrqsOk, Read, Inv;
    var cfg, st := scan.cfg, scan.st;
    var st1 := ForceRebalanceAll(st, cfg.db);
    ForceFresh(st, cfg.db);
    StartInv(cfg, st, st1);
    InvParts(cfg, st1);
    ReadKeepsCounts(cfg, st1, scan.reading, m.st);
  }

  /** In every run counts never run backwards, so that what an object counts in a turn is, by
      `MeasuringReads`, exactly what its IRQs counted since the reading before. */
  lemma {:induction false} RunCounts(scan: Scan, es: seq<Event>, ms: seq<Machine>, n: nat)
    requires Run(scan, es, ms) && n < |ms|
    ensures CountsOk(ms[n].st.irqs)
    ensures n < |es| ==> CountsOk(Before(ms[n], es[n]).irqs)
  {
    hide *;
    if n == 0 {
      RunScanned(scan, es, ms);
      ScannedCounts(scan, ms[0]);
    } else {
      RunCounts(scan, es, ms, n - 1);
      RunLong(scan, es, ms);
      RunNext(scan, es, ms, n - 1);
      RunInv(scan, es, ms, n - 1);
      OriginTurn(ms[n - 1], es[n - 1], ms[n]);
      var m := Origin(ms[n - 1], es[n - 1]);
      TurnParts(m, es[n - 1].world, ms[n]);
      BeforeIs(ms[n - 1], es[n - 1]);
      var placed := TurnMaps(m.cfg, m.st, m.cycleCount, es[n - 1].world, ms[n].st);
    }
    if n < |es| {
      RunNext(scan, es, ms, n);
      OriginCounts(ms[n], es[n], ms[n + 1]);
    }
  }

  lemma RunScanned(scan: Scan, es: seq<Event>, ms: seq<Machine>)
    requires Run(scan, es, ms)
    ensures |ms| > 0 && Scanned(scan, ms[0])
  {
    hide Scanned, Next;
  }

  lemma RunLong(scan: Scan, es: seq<Event>, ms: seq<Machine>)
    requires Run(scan, es, ms)
    ensures |ms| == |es| + 1
  {
    hide Scanned, Next;
  }

  lemma OriginCounts(m: Machine, e: Event, m': Machine)
    requires CountsOk(m.st.irqs) && Next(m, e, m')
    ensures CountsOk(Before(m, e).irqs)
  {
    hide CountsOk, TurnOf, Scanned, Rescanned;
    if e.Rescan? {
      ScannedCounts(e.scan, Rescanned(e.scan));
    }
  }
}
