/** activate.c and the main loop of irqbalance.c, on the heap. */
module MainLoop {
  import opened Irqs
  import opened Ownership
  import opened Tree
  import opened Placement
  import opened PlacementProofs
  import opened Drain
  import opened Measure
  import opened Activation
  import opened Runs
  import opened Globals
  import PlacementCode
  import DrainCode
  import LoadCode

  // ---- activate_mapping ----

  /** activate_mapping; the mask written to the kernel, if any, is returned. */
  method ActivateMapping(g: Globals, info: IrqInfo, kernel: Kernel) returns (written: Mask)
    requires info in g.irqs
    modifies info`moved
    ensures written == Written(g.Cfg(), old(g.St()), kernel, info)
    ensures g.St() == Activate(g.Cfg(), old(g.St()), kernel, info) && g.Cfg() == old(g.Cfg())
  {
    hide Globals.St;
    PlacementCode.IrqThere(g, info);
    if !info.moved {
      return NoMask;
    }
    var appliedMask, validMask := {}, false;
    if info.hintPolicy == HintExact && info.affinityHint != {} {
      if info.affinityHint * g.banned == {} {
        appliedMask := info.affinityHint;
        validMask := true;
      }
    } else if info.assignedObj != null {
      appliedMask := info.assignedObj.mask;
      if info.hintPolicy == HintSubset && info.affinityHint != {} {
        appliedMask := appliedMask * info.affinityHint;
        if !(appliedMask <= g.banned) {
          validMask := true;
        }
      } else {
        validMask := true;
      }
    }
    if !validMask || AffinitySet(kernel, info, appliedMask) {
      return NoMask;
    }
    if info.assignedObj == null {
      return NoMask;
    }
    if info !in kernel.writable {
      return NoMask;
    }
    SetMoved(g, info, false);
    return Mask(appliedMask);
  }

  lemma ActivateNext(cfg: Config, st: State, kernel: Kernel, qs: seq<IrqInfo>, i: nat, st1: State)
    requires (forall q | q in qs :: q in st.irqs) && i < |qs| && qs[i] in st.irqs && st1 == Activate(cfg, st, kernel, qs[i])
    ensures st1.irqs.Keys == st.irqs.Keys
    ensures ActivateAll(cfg, st, kernel, qs[i..]) == ActivateAll(cfg, st1, kernel, qs[i + 1..])
  {
    hide Written;
    assert qs[i..][0] == qs[i] && qs[i..][1..] == qs[i + 1..];
  }

  lemma ActivateEnd(cfg: Config, st: State, kernel: Kernel, qs: seq<IrqInfo>)
    ensures ActivateAll(cfg, st, kernel, qs[|qs|..]) == st
  {
  }

  lemma ActivateMappingsIs(cfg: Config, st: State, kernel: Kernel)
    requires Ready(cfg, st) && forall q | q in cfg.db :: q in st.irqs
    ensures ActivateMappings(cfg, st, kernel) == ActivateAll(cfg, st, kernel, cfg.db)
  {
    hide Ready, ActivateAll;
  }

  /** activate_mappings */
  method ActivateAllMappings(g: Globals, kernel: Kernel)
    requires g.Valid()
    modifies g.irqs`moved
    ensures g.St() == ActivateMappings(old(g.Cfg()), old(g.St()), kernel) && g.Cfg() == old(g.Cfg())
  {
    hide Globals.St, Globals.Cfg, ActivateAll, Activate, ActivateMappings, Written, Ready;
    ghost var cfg, st := g.Cfg(), g.St();
    LoadCode.DbThere(g);
    LoadCode.DbField(g);
    ActivateMappingsIs(cfg, st, kernel);
    var i := 0;
    while i < |g.interruptsDb|
      invariant i <= |g.interruptsDb| && g.Cfg() == cfg
      invariant ActivateAll(cfg, g.St(), kernel, g.interruptsDb[i..]) == ActivateAll(cfg, st, kernel, g.interruptsDb)
    {
      ghost var st1 := g.St();
      assert g.interruptsDb[i] in g.interruptsDb;
      var written := ActivateMapping(g, g.interruptsDb[i], kernel);
      ActivateNext(cfg, st1, kernel, g.interruptsDb, i, g.St());
      i := i + 1;
    }
    ActivateEnd(cfg, g.St(), kernel, g.interruptsDb);
  }

  // ---- force_rebalance_irq ----

  lemma ForceIs(st: State, q: IrqInfo, o: TopoObj?)
    requires q in st.irqs && st.irqs[q].owner == o && (o != null ==> o in st.objs)
    ensures q.level == BalanceNone ==> ForceRebalance(st, q) == st
    ensures q.level != BalanceNone && o != null ==> ForceRebalance(st, q) == Release(st, o, q)
    ensures q.level != BalanceNone && o == null ==>
      ForceRebalance(st, q) == SetOwner(st.(rebalance := st.rebalance + [q]), q, null)
  {
    hide Migrate;
  }

  /** force_rebalance_irq */
  method ForceRebalanceIrq(g: Globals, info: IrqInfo)
    requires info in g.irqs && (info.assignedObj != null ==> info.assignedObj in g.objs)
    modifies g`rebalance, g.objs`interrupts, info`moved, info`assignedObj
    ensures g.St() == ForceRebalance(old(g.St()), info) && g.Cfg() == old(g.Cfg())
  {
    hide Globals.St, Globals.Cfg, ForceRebalance, Release, SetOwner;
    ghost var st := g.St();
    PlacementCode.IrqThere(g, info);
    ForceIs(st, info, info.assignedObj);
    if info.level == BalanceNone {
      return;
    }
    if info.assignedObj == null {
      RebalanceField(g);
      SetWaiting(g, g.rebalance + [info]);
      SetAssignedObj(g, info, null);
    } else {
      TakeOff(g, info.assignedObj, info);
    }
  }

  lemma RebalanceField(g: Globals)
    ensures g.St().rebalance == g.rebalance
  {
  }

  lemma ForceNext(st: State, qs: seq<IrqInfo>, i: nat, st1: State)
    requires (forall q | q in qs :: q in st.irqs) && i < |qs| && qs[i] in st.irqs && st1 == ForceRebalance(st, qs[i])
    requires st1.irqs.Keys == st.irqs.Keys
    ensures ForceRebalanceAll(st, qs[i..]) == ForceRebalanceAll(st1, qs[i + 1..])
  {
    hide ForceRebalance;
    assert qs[i..][0] == qs[i] && qs[i..][1..] == qs[i + 1..];
  }

  lemma ForceEnd(st: State, qs: seq<IrqInfo>)
    ensures ForceRebalanceAll(st, qs[|qs|..]) == st
  {
  }

  /** No IRQ from index i on is on an object that does not exist. */
  ghost predicate OwnersThere(g: Globals)
    reads g, g.irqs
  {
    forall q | q in g.irqs && q.assignedObj != null :: q.assignedObj in g.objs
  }

  /** for_each_irq(NULL, force_rebalance_irq, NULL) */
  method ForceRebalanceAllIrqs(g: Globals)
    requires (forall q | q in g.interruptsDb :: q in g.irqs) && OwnersThere(g)
    modifies g`rebalance, g.objs`interrupts, g.irqs`moved, g.irqs`assignedObj
    ensures g.St() == ForceRebalanceAll(old(g.St()), g.interruptsDb) && g.Cfg() == old(g.Cfg())
  {
    hide Globals.St, Globals.Cfg, ForceRebalance, ForceRebalanceAll;
    ghost var cfg, st := g.Cfg(), g.St();
    var i := 0;
    while i < |g.interruptsDb|
      invariant i <= |g.interruptsDb| && g.Cfg() == cfg && OwnersThere(g)
      invariant ForceRebalanceAll(g.St(), g.interruptsDb[i..]) == ForceRebalanceAll(st, g.interruptsDb)
    {
      ghost var st1 := g.St();
      assert g.interruptsDb[i] in g.interruptsDb;
      OwnersMean(g);
      ForceRebalanceIrq(g, g.interruptsDb[i]);
      OwnersStay(g, st1, g.interruptsDb[i]);
      ForceNext(st1, g.interruptsDb, i, g.St());
      i := i + 1;
    }
    ForceEnd(g.St(), g.interruptsDb);
  }

  lemma OwnersMean(g: Globals)
    requires OwnersThere(g)
    ensures forall x | x in g.St().irqs && g.St().irqs[x].owner != null :: g.St().irqs[x].owner in g.St().objs
  {
  }

  lemma OwnersStay(g: Globals, st: State, q: IrqInfo)
    requires st.irqs.Keys == g.irqs && st.objs.Keys == g.objs && q in st.irqs && g.St() == ForceRebalance(st, q)
    requires forall x | x in st.irqs && st.irqs[x].owner != null :: st.irqs[x].owner in st.objs
    ensures OwnersThere(g)
  {
    hide WithList, ListAt, FindIrq;
    forall x | x in g.irqs && x.assignedObj != null
      ensures x.assignedObj in g.objs
    {
      assert g.St().irqs[x].owner == x.assignedObj;
      ForceOwners(st, q, x);
    }
  }

  lemma ForceOwners(st: State, q: IrqInfo, x: IrqInfo)
    requires q in st.irqs && x in st.irqs && x in ForceRebalance(st, q).irqs
    ensures ForceRebalance(st, q).irqs[x].owner == st.irqs[x].owner || ForceRebalance(st, q).irqs[x].owner == null
  {
  }

  // ---- a turn ----

  /** No scan for the best object reads through NULL in this turn.  `LoadRuns.BoundedTurn`
      derives this from a bound on the CPU loads read. */
  ghost predicate TurnSafe(cfg: Config, st: State, cycleCount: nat, world: World)
    requires TreeOk(cfg, st.objs.Keys)
  {
    var st1 := Measuring(cfg, st, world.reading);
    Ready(cfg, st1) && PlacementSafe(cfg, if cycleCount > 0 then UpdateMigration(cfg, st1, cycleCount, world.dev) else st1)
  }

  lemma SafeMeans(cfg: Config, st: State, cycleCount: nat, world: World, st1: State, st2: State)
    requires TreeOk(cfg, st.objs.Keys) && TurnSafe(cfg, st, cycleCount, world) && st1 == Measuring(cfg, st, world.reading)
    requires Ready(cfg, st1) && st2 == if cycleCount > 0 then UpdateMigration(cfg, st1, cycleCount, world.dev) else st1
    ensures Ready(cfg, st2) && PlacementSafe(cfg, st2)
  {
    hide TreeOk, Ready, Measuring, UpdateMigration, PlacementSafe;
  }

  /** The body of the main loop, when nothing calls for a rescan. */
  method RunTurn(g: Globals, cycleCount: nat, world: World) returns (needRescan: bool)
    requires g.Valid() && Inv(g.Cfg(), g.St()) && TreeOk(g.Cfg(), g.St().objs.Keys) && TurnSafe(g.Cfg(), g.St(), cycleCount, world)
    requires forall i | 0 <= i < |world.reading.lines| && world.reading.lines[i].info != null :: world.reading.lines[i].info in g.irqs
    modifies g`rebalance, g.objs`interrupts, g.objs`load, g.objs`irqCount, g.objs`powersaveMode, g.irqs
    ensures g.Cfg() == old(g.Cfg())
    ensures TreeOk(g.Cfg(), old(g.St().objs.Keys))
    ensures needRescan == ReadCounts(ClearWork(g.Cfg(), old(g.St())).irqs, world.reading.lines).1
    ensures needRescan ==> g.St() == Measuring(g.Cfg(), old(g.St()), world.reading)
    ensures !needRescan ==>
      && Turn(g.Cfg(), old(g.St()), cycleCount, world, g.St())
      && g.Valid() && Inv(g.Cfg(), g.St())
  {
    hide *;
    ghost var cfg, st := g.Cfg(), g.St();
    needRescan := LoadCode.MeasureAll(g, world.reading);
    if needRescan {
      return;
    }
    ghost var st1 := g.St();
    MeasuringDoes(cfg, st, world.reading, st1);
    LoadCode.ValidMeans(g);
    if cycleCount > 0 {
      DrainCode.UpdateMigrationStatus(g, cycleCount, world.dev);
      LoadCode.ValidMeans(g);
    }
    ghost var st2 := g.St();
    SafeMeans(cfg, st, cycleCount, world, st1, st2);
    PlacementCode.RunPlacement(g);
    ghost var st3 := g.St();
    LoadCode.ValidMeans(g);
    ActivateAllMappings(g, world.kernel);
    TurnMeets(cfg, st, cycleCount, world, st1, st2, st3, g.St());
    ghost var entered := TurnKeepsInv(cfg, st, cycleCount, world, g.St());
    ValidAgain(g);
  }

  lemma ValidAgain(g: Globals)
    requires Inv(g.Cfg(), g.St())
    ensures g.Valid()
  {
    InvParts(g.Cfg(), g.St());
  }

  // ---- after a scan ----

  lemma FreshValid(g: Globals)
    requires Fresh(g.Cfg(), g.St())
    ensures (forall q | q in g.interruptsDb :: q in g.irqs) && OwnersThere(g)
    ensures (forall q | q in g.Cfg().db :: q in g.St().irqs) && g.Cfg().db == g.interruptsDb
  {
    hide TreeOk;
    DbKnown(g.Cfg(), g.irqs);
    forall q | q in g.irqs
      ensures q.assignedObj == null
    {
      assert g.St().irqs[q] == q.Fields();
    }
  }

  lemma BeginIs(cfg: Config, st: State, reading: Reading, st1: State)
    requires Fresh(cfg, st) && (forall q | q in cfg.db :: q in st.irqs) && st1 == ForceRebalanceAll(st, cfg.db)
    ensures Inv(cfg, st1) && TreeOk(cfg, st1.objs.Keys)
    ensures BeginFrom(cfg, st, reading) == Read(cfg, st1, reading)
  {
    hide TreeOk, Read, Inv;
    ForceFresh(st, cfg.db);
    StartInv(cfg, st, st1);
    InvParts(cfg, st1);
  }

  lemma ReadIs(cfg: Config, st: State, reading: Reading, st1: State)
    requires TreeOk(cfg, st.objs.Keys) && st1 == st.(irqs := ReadCounts(st.irqs, reading.lines).0)
    ensures TreeOk(cfg, st1.objs.Keys) && Read(cfg, st, reading) == ReadLoads(cfg, st1, reading)
  {
    hide TreeOk, ReadLoads;
  }

  /** From the scan to the main loop: every IRQ is forced onto the waiting list, and a
      first reading taken. */
  method Start(g: Globals, reading: Reading) returns (needRescan: bool)
    requires Fresh(g.Cfg(), g.St())
    requires forall i | 0 <= i < |reading.lines| && reading.lines[i].info != null :: reading.lines[i].info in g.irqs
    modifies g`rebalance, g.objs`interrupts, g.objs`load, g.objs`irqCount, g.irqs
    ensures g.Cfg() == old(g.Cfg()) && g.Valid() && Inv(g.Cfg(), g.St())
    ensures forall q | q in g.Cfg().db :: q in old(g.St()).irqs
    ensures g.St() == BeginFrom(g.Cfg(), old(g.St()), reading)
  {
    hide *;
    ghost var cfg, st := g.Cfg(), g.St();
    FreshValid(g);
    ForceRebalanceAllIrqs(g);
    ghost var st1 := g.St();
    BeginIs(cfg, st, reading, st1);
    ValidAgain(g);
    InvParts(cfg, st1);
    needRescan := LoadCode.ParseProcInterrupts(g, reading.lines);
    LoadCode.CountsValid(g, cfg, st1, reading.lines);
    ReadIs(cfg, st1, reading, g.St());
    LoadCode.ParseProcStat(g, reading);
    BeginInv(cfg, st, reading, g.St());
  }
}
