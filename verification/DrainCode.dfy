/** irqlist.c, on the heap, against the specification in Drain. */
module DrainCode {
  import opened MergeSort
  import opened Irqs
  import opened Ownership
  import opened Tree
  import opened Drain
  import opened PlacementProofs
  import opened DrainProofs
  import opened DrainCycle
  import opened Globals
  import PlacementCode

  /** struct load_balance_info.  The standard deviation is an input here. */
  class LoadBalanceInfo {
    var totalLoad: nat
    var avgLoad: nat
    var minLoad: nat
    var adjustmentLoad: nat
    var loadSources: nat
    var numOver: nat
    var numUnder: nat
    var numPowersave: nat
    var powersave: TopoObj?

    constructor ()
      ensures Fields() == NoStats
    {
      totalLoad, avgLoad, minLoad, adjustmentLoad, loadSources := 0, 0, 0, 0, 0;
      numOver, numUnder, numPowersave, powersave := 0, 0, 0, null;
    }

    function Fields(): Stats
      reads this
    {
      Stats(totalLoad, avgLoad, minLoad, adjustmentLoad, loadSources, numOver, numUnder, numPowersave, powersave)
    }
  }

  /** gather_load_stats */
  method GatherLoadStats(obj: TopoObj, info: LoadBalanceInfo)
    modifies info
    ensures info.Fields() == GatherOne(old(info.Fields()), obj.load)
  {
    if info.minLoad == 0 || obj.load < info.minLoad {
      info.minLoad := obj.load;
    }
    info.totalLoad := Add64(info.totalLoad, obj.load);
    info.loadSources := info.loadSources + 1;
  }

  method GatherAll(g: Globals, ds: seq<TopoObj>, info: LoadBalanceInfo)
    requires forall d | d in ds :: d in g.objs
    modifies info
    ensures info.Fields() == Gather(g.St().objs, ds, old(info.Fields()))
  {
    ghost var s := info.Fields();
    var i := 0;
    while i < |ds|
      invariant i <= |ds|
      invariant Gather(g.St().objs, ds[i..], info.Fields()) == Gather(g.St().objs, ds, s)
    {
      assert ds[i] in ds && ds[i..][0] == ds[i] && ds[i..][1..] == ds[i + 1..];
      GatherLoadStats(ds[i], info);
      i := i + 1;
    }
  }

  /** move_candidate_irqs */
  method MoveCandidateIrqs(g: Globals, info: IrqInfo, lb: LoadBalanceInfo)
    requires g.Valid() && info in g.irqs && info.assignedObj != null && info.assignedObj in g.objs
    modifies g`rebalance, g.objs`interrupts, info`moved, info`assignedObj, lb
    ensures (g.St(), lb.Fields()) == MoveCandidate(old(g.Cfg()), old(g.St()), old(lb.Fields()), info)
    ensures g.Cfg() == old(g.Cfg()) && g.Valid()
  {
    hide *;
    ghost var cfg, st, s := g.Cfg(), g.St(), lb.Fields();
    CandidateThere(g, info, lb);
    CandidateIs(cfg, st, s, info, info.assignedObj);
    if info.hintPolicy == HintExact {
      if info.affinityHint != {} {
        return;
      }
    }
    if info.level == BalanceNone {
      return;
    }
    if |info.assignedObj.interrupts| <= 1 {
      return;
    }
    if info.load <= 1 {
      return;
    }
    if Sub64(lb.adjustmentLoad, info.load) > Add64(lb.minLoad, info.load) {
      Shift(lb, info.load);
    } else {
      return;
    }
    TakeOff(g, info.assignedObj, info);
    ReadyHere(g);
  }

  lemma ReadyHere(g: Globals)
    requires Ready(g.Cfg(), g.St())
    ensures g.Valid()
  {
  }

  /** What the method reads is what the specification reads. */
  lemma CandidateThere(g: Globals, info: IrqInfo, lb: LoadBalanceInfo)
    requires g.Valid() && info in g.irqs && info.assignedObj != null && info.assignedObj in g.objs
    ensures g.St().irqs[info].owner == info.assignedObj && g.St().irqs[info].load == info.load
    ensures g.St().objs[info.assignedObj].interrupts == info.assignedObj.interrupts
    ensures Ready(g.Cfg(), g.St())
    ensures lb.Fields().adjustment == lb.adjustmentLoad && lb.Fields().minLoad == lb.minLoad
  {
    hide Ready;
  }

  method Shift(lb: LoadBalanceInfo, load: nat)
    modifies lb
    ensures lb.Fields() == old(lb.Fields()).(adjustment := Sub64(old(lb.adjustmentLoad), load), minLoad := Add64(old(lb.minLoad), load))
  {
    lb.adjustmentLoad := Sub64(lb.adjustmentLoad, load);
    lb.minLoad := Add64(lb.minLoad, load);
  }

  /** The tests of move_candidate_irqs, one by one. */
  lemma CandidateIs(cfg: Config, st: State, s: Stats, q: IrqInfo, o: TopoObj)
    requires Ready(cfg, st) && q in st.irqs && st.irqs[q].owner == o && o in st.objs
    ensures var load := st.irqs[q].load;
      MoveCandidate(cfg, st, s, q) ==
        if || (q.hintPolicy == HintExact && q.affinityHint != {}) || q.level == BalanceNone || |st.objs[o].interrupts| <= 1
           || load <= 1 || !(Sub64(s.adjustment, load) > Add64(s.minLoad, load))
        then (st, s)
        else (Release(st, o, q), s.(adjustment := Sub64(s.adjustment, load), minLoad := Add64(s.minLoad, load)))
    ensures Ready(cfg, MoveCandidate(cfg, st, s, q).0)
  {
    hide Ready, Release, Add64, Sub64;
  }

  lemma CandidatesNext(cfg: Config, st: State, s: Stats, qs: seq<IrqInfo>, i: nat, st1: State, s1: Stats)
    requires Ready(cfg, st) && (forall q | q in qs :: q in st.irqs) && i < |qs| && qs[i] in st.irqs
    requires (st1, s1) == MoveCandidate(cfg, st, s, qs[i])
    ensures Ready(cfg, st1) && st1.objs.Keys == st.objs.Keys && st1.irqs.Keys == st.irqs.Keys
    ensures MoveCandidates(cfg, st, s, qs[i..]) == MoveCandidates(cfg, st1, s1, qs[i + 1..])
  {
    hide Ready, MoveCandidate;
    assert qs[i..][0] == qs[i] && qs[i..][1..] == qs[i + 1..];
  }

  lemma CandidatesEnd(cfg: Config, st: State, s: Stats, qs: seq<IrqInfo>)
    requires Ready(cfg, st)
    ensures MoveCandidates(cfg, st, s, qs[|qs|..]) == (st, s)
  {
    hide Ready;
  }

  /** The IRQs of qs from i on are on some object. */
  ghost predicate OnObjects(g: Globals, qs: seq<IrqInfo>, i: nat)
    reads g, g.irqs
  {
    forall j | i <= j < |qs| :: qs[j] in g.irqs && qs[j].assignedObj != null && qs[j].assignedObj in g.objs
  }

  /** for_each_irq with move_candidate_irqs */
  method MoveAllCandidates(g: Globals, list: seq<IrqInfo>, lb: LoadBalanceInfo)
    requires g.Valid() && (forall q | q in list :: q in g.irqs) && OnObjects(g, list, 0) && NoDup(list)
    modifies g`rebalance, g.objs`interrupts, g.irqs`moved, g.irqs`assignedObj, lb
    ensures (g.St(), lb.Fields()) == MoveCandidates(old(g.Cfg()), old(g.St()), old(lb.Fields()), list)
    ensures g.Cfg() == old(g.Cfg()) && g.Valid()
  {
    hide Ready, MoveCandidate, MoveCandidates, Globals.St, Globals.Cfg;
    ghost var cfg, st, s := g.Cfg(), g.St(), lb.Fields();
    var i := 0;
    while i < |list|
      invariant i <= |list|
      invariant g.Valid() && g.Cfg() == cfg && OnObjects(g, list, i)
      invariant MoveCandidates(cfg, g.St(), lb.Fields(), list[i..]) == MoveCandidates(cfg, st, s, list)
    {
      ghost var st1, s1 := g.St(), lb.Fields();
      assert list[i] in list;
      assert forall j | i < j < |list| :: list[j] != list[i];
      MoveCandidateIrqs(g, list[i], lb);
      CandidatesNext(cfg, st1, s1, list, i, g.St(), lb.Fields());
      i := i + 1;
    }
    CandidatesEnd(cfg, g.St(), lb.Fields(), list);
  }

  /** The counting half of migrate_overloaded_irqs */
  method Count(g: Globals, obj: TopoObj, lb: LoadBalanceInfo, deviation: real)
    modifies lb
    ensures lb.Fields() == Classify(old(lb.Fields()), obj, obj.load, obj.powersaveMode, g.powerThresh, deviation)
  {
    if obj.powersaveMode {
      lb.numPowersave := lb.numPowersave + 1;
    }
    if obj.load as real + deviation <= lb.avgLoad as real {
      lb.numUnder := lb.numUnder + 1;
      if g.powerThresh != ULLONG_MAX && lb.powersave == null {
        if !obj.powersaveMode {
          lb.powersave := obj;
        }
      }
    } else if obj.load as real - deviation >= lb.avgLoad as real {
      lb.numOver := lb.numOver + 1;
    }
  }

  lemma OnItsList(g: Globals, obj: TopoObj)
    requires g.Valid() && Owned(g.St()) && obj in g.objs
    ensures NoDup(obj.interrupts) && forall q | q in obj.interrupts :: q in g.irqs && q.assignedObj == obj
  {
    hide Ready;
    assert ListOk(g.St(), obj.interrupts) by { assert g.St().objs[obj].interrupts == obj.interrupts; }
    forall q | q in obj.interrupts
      ensures q in g.irqs && q.assignedObj == obj
    {
      assert q in g.St().objs[obj].interrupts;
      assert OwnedIrq(g.St(), q);
    }
  }

  lemma SortObjectIs(cfg: Config, st: State, d: TopoObj)
    requires Ready(cfg, st) && d in st.objs
    ensures SortObject(cfg, st, d) == st.(objs := st.objs[d := st.objs[d].(interrupts := SortIrqs(st.irqs, st.objs[d].interrupts))])
    ensures forall q | q in SortObject(cfg, st, d).objs[d].interrupts :: q in st.irqs
  {
    hide Ready, SortIrqs;
  }

  /** sort_irq_list on an object's interrupts */
  method SortInterrupts(g: Globals, obj: TopoObj)
    requires g.Valid() && obj in g.objs
    modifies obj`interrupts
    ensures g.St() == SortObject(old(g.Cfg()), old(g.St()), obj) && g.Cfg() == old(g.Cfg()) && g.Valid()
    ensures obj.interrupts == SortIrqs(old(g.St()).irqs, old(obj.interrupts))
  {
    hide Ready, Globals.St, Globals.Cfg, SortObject;
    PlacementCode.ListThere(g, obj);
    FieldsThere(g, obj);
    SortObjectIs(g.Cfg(), g.St(), obj);
    var sorted := SortIrqList(g, obj.interrupts);
    SetInterrupts(g, obj, sorted);
    FieldsThere(g, obj);
  }

  lemma SortedOnObject(irqs: map<IrqInfo, IrqState>, list: seq<IrqInfo>, sorted: seq<IrqInfo>)
    requires sorted == SortIrqs(irqs, list) && NoDup(list)
    ensures NoDup(sorted) && forall q | q in sorted :: q in list
  {
    hide SortIrqs;
    SortIrqsPermutes(irqs, list);
    PermutedList(list, sorted);
  }

  lemma DrainObjectSteps(cfg: Config, st: State, s: Stats, d: TopoObj)
    requires Ready(cfg, st) && d in st.objs
    ensures st.objs[d].load > s.minLoad && |st.objs[d].interrupts| > 1 ==>
      var st1 := SortObject(cfg, st, d);
      DrainObject(cfg, st, s, d) == MoveCandidates(cfg, st1, s.(adjustment := st.objs[d].load), st1.objs[d].interrupts)
    ensures !(st.objs[d].load > s.minLoad && |st.objs[d].interrupts| > 1) ==> DrainObject(cfg, st, s, d) == (st, s)
  {
    hide Ready, SortObject, MoveCandidates;
  }

  lemma MigrateOverloadedIs(cfg: Config, st: State, s: Stats, d: TopoObj, deviation: real, s1: Stats)
    requires Ready(cfg, st) && d in st.objs
    requires s1 == Classify(s, d, st.objs[d].load, st.objs[d].powersave, cfg.powerThresh, deviation)
    ensures MigrateOverloaded(cfg, st, s, d, deviation) == DrainObject(cfg, st, s1, d)
  {
    hide Ready, DrainObject, Classify;
  }

  lemma FieldsThere(g: Globals, obj: TopoObj)
    requires obj in g.objs
    ensures g.St().objs[obj] == obj.Fields() && g.Cfg().powerThresh == g.powerThresh
  {
  }

  /** What the drain of an object starts from once its list is sorted */
  lemma DrainSorted(st: State, irqs: map<IrqInfo, IrqState>, obj: TopoObj, list: seq<IrqInfo>, g: Globals)
    requires g.objs == st.objs.Keys && g.irqs == st.irqs.Keys && irqs == st.irqs && obj in g.objs
    requires NoDup(list) && forall q | q in list :: q in g.irqs && q.assignedObj == obj
    requires obj.interrupts == SortIrqs(irqs, list)
    ensures NoDup(obj.interrupts) && (forall q | q in obj.interrupts :: q in g.irqs) && OnObjects(g, obj.interrupts, 0)
  {
    hide SortIrqs;
    SortedOnObject(irqs, list, obj.interrupts);
    assert forall j | 0 <= j < |obj.interrupts| :: obj.interrupts[j] in obj.interrupts;
  }

  /** The drain of migrate_overloaded_irqs: greatest load first. */
  method DrainLoaded(g: Globals, obj: TopoObj, lb: LoadBalanceInfo)
    requires g.Valid() && obj in g.objs && Owned(g.St()) && obj.load > lb.minLoad && |obj.interrupts| > 1
    modifies g`rebalance, g.objs`interrupts, g.irqs`moved, g.irqs`assignedObj, lb
    ensures (g.St(), lb.Fields()) == DrainObject(old(g.Cfg()), old(g.St()), old(lb.Fields()), obj)
    ensures g.Cfg() == old(g.Cfg()) && g.Valid()
  {
    hide *;
    ghost var cfg, st, s := g.Cfg(), g.St(), lb.Fields();
    FieldsThere(g, obj);
    LoadFields(g, obj, lb);
    InvReady(g);
    DrainObjectSteps(cfg, st, s, obj);
    OnItsList(g, obj);
    ghost var list := obj.interrupts;
    SortInterrupts(g, obj);
    DrainSorted(st, st.irqs, obj, list, g);
    SetAdjustment(lb, obj.load);
    FieldsThere(g, obj);
    LoadFields(g, obj, lb);
    MoveAllCandidates(g, obj.interrupts, lb);
  }

  lemma InvReady(g: Globals)
    requires g.Valid()
    ensures Ready(g.Cfg(), g.St())
  {
  }

  lemma LoadFields(g: Globals, obj: TopoObj, lb: LoadBalanceInfo)
    requires obj in g.objs
    ensures g.St().objs[obj].load == obj.load && g.St().objs[obj].interrupts == obj.interrupts
    ensures g.St().objs[obj].powersave == obj.powersaveMode && lb.Fields().minLoad == lb.minLoad
  {
  }

  method SetAdjustment(lb: LoadBalanceInfo, load: nat)
    modifies lb
    ensures lb.Fields() == old(lb.Fields()).(adjustment := load)
  {
    lb.adjustmentLoad := load;
  }

  /** migrate_overloaded_irqs */
  method MigrateOverloadedIrqs(g: Globals, obj: TopoObj, lb: LoadBalanceInfo, deviation: real)
    requires g.Valid() && obj in g.objs && Owned(g.St())
    modifies g`rebalance, g.objs`interrupts, g.irqs`moved, g.irqs`assignedObj, lb
    ensures (g.St(), lb.Fields()) == MigrateOverloaded(old(g.Cfg()), old(g.St()), old(lb.Fields()), obj, deviation)
    ensures g.Cfg() == old(g.Cfg()) && g.Valid()
  {
    hide *;
    ghost var cfg, st, s := g.Cfg(), g.St(), lb.Fields();
    FieldsThere(g, obj);
    LoadFields(g, obj, lb);
    InvReady(g);
    Count(g, obj, lb, deviation);
    ghost var s1 := lb.Fields();
    MigrateOverloadedIs(cfg, st, s, obj, deviation, s1);
    DrainObjectSteps(cfg, st, s1, obj);
    LoadFields(g, obj, lb);
    if obj.load > lb.minLoad && |obj.interrupts| > 1 {
      DrainLoaded(g, obj, lb);
    }
  }

  lemma MigrateAllNext(cfg: Config, st: State, s: Stats, ds: seq<TopoObj>, deviation: real, i: nat, st1: State, s1: Stats)
    requires Ready(cfg, st) && (forall d | d in ds :: d in st.objs) && i < |ds| && ds[i] in st.objs
    requires (st1, s1) == MigrateOverloaded(cfg, st, s, ds[i], deviation)
    ensures Ready(cfg, st1) && st1.objs.Keys == st.objs.Keys && st1.irqs.Keys == st.irqs.Keys
    ensures MigrateAll(cfg, st, s, ds[i..], deviation) == MigrateAll(cfg, st1, s1, ds[i + 1..], deviation)
  {
    hide Ready, MigrateOverloaded;
    assert ds[i..][0] == ds[i] && ds[i..][1..] == ds[i + 1..];
  }

  lemma MigrateAllEnd(cfg: Config, st: State, s: Stats, ds: seq<TopoObj>, deviation: real)
    requires Ready(cfg, st)
    ensures MigrateAll(cfg, st, s, ds[|ds|..], deviation) == (st, s)
  {
    hide Ready;
  }

  /** Draining one object keeps what draining the next one needs. */
  lemma StillInv(cfg: Config, st: State, s: Stats, d: TopoObj, deviation: real, st1: State, s1: Stats)
    requires Inv(cfg, st) && Ready(cfg, st) && d in st.objs
    requires (st1, s1) == MigrateOverloaded(cfg, st, s, d, deviation)
    ensures Inv(cfg, st1) && Owned(st1)
  {
    hide *;
    JustInv(cfg, st);
    var s0 := MigrateIs(cfg, st, s, d, deviation);
    var out := DrainObjectDoes(cfg, false, st, s0, d, st1, s1);
    JustInv(cfg, st1);
    InvParts(cfg, st1);
  }

  /** One step of for_each_object with migrate_overloaded_irqs */
  method MigrateEntry(g: Globals, ds: seq<TopoObj>, i: nat, lb: LoadBalanceInfo, deviation: real)
    requires g.Valid() && (forall d | d in ds :: d in g.objs) && i < |ds| && Inv(g.Cfg(), g.St())
    modifies g`rebalance, g.objs`interrupts, g.irqs`moved, g.irqs`assignedObj, lb
    ensures g.Cfg() == old(g.Cfg()) && g.Valid() && Inv(g.Cfg(), g.St())
    ensures MigrateAll(g.Cfg(), g.St(), lb.Fields(), ds[i + 1..], deviation)
            == MigrateAll(old(g.Cfg()), old(g.St()), old(lb.Fields()), ds[i..], deviation)
  {
    hide *;
    ghost var cfg, st, s := g.Cfg(), g.St(), lb.Fields();
    InvParts(cfg, st);
    assert ds[i] in ds;
    MigrateOverloadedIrqs(g, ds[i], lb, deviation);
    StillInv(cfg, st, s, ds[i], deviation, g.St(), lb.Fields());
    MigrateAllNext(cfg, st, s, ds, deviation, i, g.St(), lb.Fields());
  }

  /** for_each_object with migrate_overloaded_irqs */
  method MigrateAllOverloaded(g: Globals, ds: seq<TopoObj>, lb: LoadBalanceInfo, deviation: real)
    requires g.Valid() && (forall d | d in ds :: d in g.objs) && Inv(g.Cfg(), g.St())
    modifies g`rebalance, g.objs`interrupts, g.irqs`moved, g.irqs`assignedObj, lb
    ensures (g.St(), lb.Fields()) == MigrateAll(old(g.Cfg()), old(g.St()), old(lb.Fields()), ds, deviation)
    ensures g.Cfg() == old(g.Cfg()) && g.Valid()
  {
    hide Ready, Inv, MigrateAll, Globals.St, Globals.Cfg, LoadBalanceInfo.Fields;
    ghost var cfg, st, s := g.Cfg(), g.St(), lb.Fields();
    var i := 0;
    while i < |ds|
      invariant i <= |ds|
      invariant g.Valid() && g.Cfg() == cfg && Inv(cfg, g.St())
      invariant MigrateAll(cfg, g.St(), lb.Fields(), ds[i..], deviation) == MigrateAll(cfg, st, s, ds, deviation)
    {
      MigrateEntry(g, ds, i, lb, deviation);
      i := i + 1;
    }
    MigrateAllEnd(cfg, g.St(), lb.Fields(), ds, deviation);
  }

  lemma FindOverloadedIs(cfg: Config, st: State, kind: Kind, deviation: real, s: Stats)
    requires Ready(cfg, st) && (forall d | d in Layer(cfg, kind) :: d in st.objs)
    requires s == Averaged(Gather(st.objs, Layer(cfg, kind), NoStats))
    ensures FindOverloaded(cfg, st, kind, deviation) == MigrateAll(cfg, st, s, Layer(cfg, kind), if s.sources == 1 then 0.0 else deviation)
  {
    hide Ready, MigrateAll;
  }

  /** find_overloaded_objs; `measured` stands for the square root it takes. */
  method FindOverloadedObjs(g: Globals, name: seq<TopoObj>, ghost kind: Kind, lb: LoadBalanceInfo, measured: real)
    requires g.Valid() && name == Layer(g.Cfg(), kind) && Inv(g.Cfg(), g.St()) && lb.Fields() == NoStats
    modifies g`rebalance, g.objs`interrupts, g.irqs`moved, g.irqs`assignedObj, lb
    ensures (g.St(), lb.Fields()) == FindOverloaded(old(g.Cfg()), old(g.St()), kind, measured)
    ensures g.Cfg() == old(g.Cfg()) && g.Valid() && Inv(g.Cfg(), g.St())
  {
    hide Ready, Owned, Inv, MigrateAll, FindOverloaded, Gather, Globals.St, Globals.Cfg, Layer;
    ghost var cfg, st := g.Cfg(), g.St();
    PlacementCode.LayerThere(g, kind);
    GatherAll(g, name, lb);
    if lb.loadSources == 0 {
      lb.loadSources := 1;
    }
    lb.avgLoad := lb.totalLoad / lb.loadSources;
    var deviation := if lb.loadSources == 1 then 0.0 else measured;
    FindOverloadedIs(cfg, st, kind, measured, lb.Fields());
    MigrateAllOverloaded(g, name, lb, deviation);
    JustInv(cfg, st);
    FindOverloadedEases(cfg, false, st, kind, measured, g.St());
    JustInv(cfg, g.St());
  }

  // ---- power saving ----

  /** force_irq_migration */
  method ForceIrqMigration(g: Globals, info: IrqInfo)
    requires g.Valid() && info in g.irqs && info.assignedObj != null && info.assignedObj in g.objs
    modifies g`rebalance, g.objs`interrupts, info`moved, info`assignedObj
    ensures g.St() == ForceOff(old(g.Cfg()), old(g.St()), info) && g.Cfg() == old(g.Cfg()) && g.Valid()
  {
    hide Ready, Release, Globals.Cfg, Globals.St;
    PlacementCode.IrqThere(g, info);
    TakeOff(g, info.assignedObj, info);
  }

  lemma ForceAllNext(cfg: Config, st: State, qs: seq<IrqInfo>, i: nat, st1: State)
    requires Ready(cfg, st) && (forall q | q in qs :: q in st.irqs) && i < |qs| && qs[i] in st.irqs
    requires st1 == ForceOff(cfg, st, qs[i])
    ensures Ready(cfg, st1) && st1.objs.Keys == st.objs.Keys && st1.irqs.Keys == st.irqs.Keys
    ensures ForceAllOff(cfg, st, qs[i..]) == ForceAllOff(cfg, st1, qs[i + 1..])
  {
    hide Ready, ForceOff;
    assert qs[i..][0] == qs[i] && qs[i..][1..] == qs[i + 1..];
  }

  lemma ForceAllEnd(cfg: Config, st: State, qs: seq<IrqInfo>)
    requires Ready(cfg, st)
    ensures ForceAllOff(cfg, st, qs[|qs|..]) == st
  {
    hide Ready;
  }

  /** for_each_irq with force_irq_migration */
  method ForceAllMigration(g: Globals, list: seq<IrqInfo>)
    requires g.Valid() && (forall q | q in list :: q in g.irqs) && OnObjects(g, list, 0) && NoDup(list)
    modifies g`rebalance, g.objs`interrupts, g.irqs`moved, g.irqs`assignedObj
    ensures g.St() == ForceAllOff(old(g.Cfg()), old(g.St()), list) && g.Cfg() == old(g.Cfg()) && g.Valid()
  {
    hide Ready, ForceOff, ForceAllOff, Globals.St, Globals.Cfg;
    ghost var cfg, st := g.Cfg(), g.St();
    var i := 0;
    while i < |list|
      invariant i <= |list|
      invariant g.Valid() && g.Cfg() == cfg && OnObjects(g, list, i)
      invariant ForceAllOff(cfg, g.St(), list[i..]) == ForceAllOff(cfg, st, list)
    {
      ghost var st1 := g.St();
      assert list[i] in list;
      assert forall j | i < j < |list| :: list[j] != list[i];
      ForceIrqMigration(g, list[i]);
      ForceAllNext(cfg, st1, list, i, g.St());
      i := i + 1;
    }
    ForceAllEnd(cfg, g.St(), list);
  }

  lemma SetPowersaveIs(cfg: Config, st: State, o: TopoObj, on: bool)
    requires Ready(cfg, st) && o in st.objs
    ensures SetPowersave(cfg, st, o, on) == st.(objs := st.objs[o := st.objs[o].(powersave := on)])
  {
    hide Ready;
  }

  /** clear_powersave_mode, or the setting of the mode */
  method SetMode(g: Globals, o: TopoObj, on: bool)
    requires g.Valid() && o in g.objs
    modifies o`powersaveMode
    ensures g.St() == SetPowersave(old(g.Cfg()), old(g.St()), o, on) && g.Cfg() == old(g.Cfg()) && g.Valid()
  {
    hide Ready, SetPowersave, Globals.St, Globals.Cfg;
    SetPowersaveIs(g.Cfg(), g.St(), o, on);
    SetPowersaveMode(g, o, on);
  }

  lemma ClearNext(cfg: Config, st: State, ds: seq<TopoObj>, i: nat, st1: State)
    requires Ready(cfg, st) && (forall d | d in ds :: d in st.objs) && i < |ds| && ds[i] in st.objs
    requires st1 == SetPowersave(cfg, st, ds[i], false)
    ensures Ready(cfg, st1) && st1.objs.Keys == st.objs.Keys && st1.irqs.Keys == st.irqs.Keys
    ensures ClearPowersave(cfg, st, ds[i..]) == ClearPowersave(cfg, st1, ds[i + 1..])
  {
    hide Ready, SetPowersave;
    assert ds[i..][0] == ds[i] && ds[i..][1..] == ds[i + 1..];
  }

  lemma ClearEnd(cfg: Config, st: State, ds: seq<TopoObj>)
    requires Ready(cfg, st)
    ensures ClearPowersave(cfg, st, ds[|ds|..]) == st
  {
    hide Ready;
  }

  /** for_each_object with clear_powersave_mode */
  method ClearAllModes(g: Globals, ds: seq<TopoObj>)
    requires g.Valid() && forall d | d in ds :: d in g.objs
    modifies g.objs`powersaveMode
    ensures g.St() == ClearPowersave(old(g.Cfg()), old(g.St()), ds) && g.Cfg() == old(g.Cfg()) && g.Valid()
  {
    hide Ready, SetPowersave, ClearPowersave, Globals.St, Globals.Cfg;
    ghost var cfg, st := g.Cfg(), g.St();
    var i := 0;
    while i < |ds|
      invariant i <= |ds|
      invariant g.Valid() && g.Cfg() == cfg
      invariant ClearPowersave(cfg, g.St(), ds[i..]) == ClearPowersave(cfg, st, ds)
    {
      ghost var st1 := g.St();
      assert ds[i] in ds;
      SetMode(g, ds[i], false);
      ClearNext(cfg, st1, ds, i, g.St());
      i := i + 1;
    }
    ClearEnd(cfg, g.St(), ds);
  }

  lemma EnterStays(cfg: Config, st: State, o: TopoObj, st1: State)
    requires Ready(cfg, st) && o in st.objs && st1 == SetPowersave(cfg, st, o, true)
    ensures (forall q | q in st1.objs[o].interrupts :: q in st1.irqs)
    ensures EnterPowersave(cfg, st, o) == ForceAllOff(cfg, st1, st1.objs[o].interrupts)
    ensures st.objs[o].interrupts == [] ==> EnterPowersave(cfg, st, o) == st1
    ensures st1.objs[o].interrupts == st.objs[o].interrupts
  {
    hide ForceAllOff;
    NothingToForce(cfg, st1);
  }

  lemma NothingToForce(cfg: Config, st: State)
    requires Ready(cfg, st)
    ensures ForceAllOff(cfg, st, []) == st
  {
    hide Ready;
  }

  /** A CPU enters power saving and its IRQs leave. */
  method EnterMode(g: Globals, o: TopoObj)
    requires g.Valid() && o in g.objs && Owned(g.St())
    modifies o`powersaveMode, g`rebalance, g.objs`interrupts, g.irqs`moved, g.irqs`assignedObj
    ensures g.St() == EnterPowersave(old(g.Cfg()), old(g.St()), o) && g.Cfg() == old(g.Cfg()) && g.Valid()
  {
    hide Ready, Owned, SetPowersave, EnterPowersave, ForceAllOff, Globals.St, Globals.Cfg;
    ghost var cfg, st := g.Cfg(), g.St();
    FieldsThere(g, o);
    OnItsList(g, o);
    SetMode(g, o, true);
    EnterStays(cfg, st, o, g.St());
    FieldsThere(g, o);
    if |o.interrupts| > 0 {
      assert forall j | 0 <= j < |o.interrupts| :: o.interrupts[j] in o.interrupts;
      ForceAllMigration(g, o.interrupts);
    }
  }

  lemma AdjustIs(cfg: Config, st: State, s: Stats, cycleCount: nat)
    requires Ready(cfg, st) && (s.powersave != null ==> s.powersave in st.objs)
    requires forall d | d in Layer(cfg, ObjCpu) :: d in st.objs
    ensures AdjustPower(cfg, st, s, cycleCount) ==
      if cfg.powerThresh == ULLONG_MAX || cycleCount <= 5 then st
      else if s.numOver == 0 && s.numUnder >= cfg.powerThresh && s.powersave != null then EnterPowersave(cfg, st, s.powersave)
      else if s.numOver != 0 && s.numPowersave != 0 then ClearPowersave(cfg, st, Layer(cfg, ObjCpu)) else st
  {
    hide Ready, EnterPowersave, ClearPowersave;
  }

  /** The power decision of update_migration_status */
  method AdjustMode(g: Globals, info: LoadBalanceInfo, cycleCount: nat)
    requires g.Valid() && Owned(g.St()) && (info.powersave != null ==> info.powersave in g.objs)
    modifies g.objs`powersaveMode, g`rebalance, g.objs`interrupts, g.irqs`moved, g.irqs`assignedObj
    ensures g.St() == AdjustPower(old(g.Cfg()), old(g.St()), info.Fields(), cycleCount) && g.Cfg() == old(g.Cfg()) && g.Valid()
  {
    hide Ready, Owned, AdjustPower, EnterPowersave, ClearPowersave, Globals.St, Layer;
    PlacementCode.LayerThere(g, ObjCpu);
    PlacementCode.LayersOf(g);
    AdjustIs(g.Cfg(), g.St(), info.Fields(), cycleCount);
    if g.powerThresh != ULLONG_MAX && cycleCount > 5 {
      if info.numOver == 0 && info.numUnder >= g.powerThresh && info.powersave != null {
        EnterMode(g, info.powersave);
      } else if info.numOver != 0 && info.numPowersave != 0 {
        ClearAllModes(g, g.cpus);
      }
    }
  }

  lemma UpdateIs(cfg: Config, st: State, cycleCount: nat, dev: Deviations, st1: State, s: Stats, st2: State)
    requires Ready(cfg, st) && (st1, s) == FindOverloaded(cfg, st, ObjCpu, dev.cpus)
    requires (s.powersave != null ==> s.powersave in st1.objs) && st2 == AdjustPower(cfg, st1, s, cycleCount)
    ensures UpdateMigration(cfg, st, cycleCount, dev) ==
      FindOverloaded(cfg, FindOverloaded(cfg, FindOverloaded(cfg, st2, ObjCache, dev.caches).0, ObjPackage, dev.packages).0, ObjNode, dev.nodes).0
  {
    hide Ready, FindOverloaded, AdjustPower;
  }

  lemma CpuCandidateThere(cfg: Config, st: State, deviation: real, st1: State, s: Stats)
    requires Ready(cfg, st) && (st1, s) == FindOverloaded(cfg, st, ObjCpu, deviation)
    ensures s.powersave != null ==> s.powersave in Layer(cfg, ObjCpu) && s.powersave in st1.objs
  {
    hide FindOverloaded, TreeOk, IrqsOk, Known;
    FoundInLayer(cfg, st, ObjCpu, deviation);
    LayerKnown(cfg, st.objs.Keys, ObjCpu);
  }

  lemma AdjustKeepsInv(cfg: Config, st: State, s: Stats, cycleCount: nat, st2: State)
    requires Inv(cfg, st) && Ready(cfg, st) && (s.powersave != null ==> s.powersave in Layer(cfg, ObjCpu) && s.powersave in st.objs)
    requires st2 == AdjustPower(cfg, st, s, cycleCount)
    ensures Inv(cfg, st2)
  {
    hide *;
    JustInv(cfg, st);
    var entered := AdjustDoes(cfg, false, st, s, cycleCount, st2);
    JustInv(cfg, st2);
  }

  /** The first half of update_migration_status: the CPUs */
  method UpdateCpus(g: Globals, cycleCount: nat, deviation: real, ghost cfg: Config, ghost st: State) returns (ghost st1: State, ghost s: Stats)
    requires g.Valid() && cfg == g.Cfg() && st == g.St() && Inv(cfg, st)
    modifies g.objs`powersaveMode, g`rebalance, g.objs`interrupts, g.irqs`moved, g.irqs`assignedObj
    ensures g.Cfg() == cfg && g.Valid() && Inv(cfg, g.St())
    ensures (st1, s) == FindOverloaded(cfg, st, ObjCpu, deviation) && Ready(cfg, st1)
    ensures (s.powersave != null ==> s.powersave in st1.objs) && g.St() == AdjustPower(cfg, st1, s, cycleCount)
  {
    hide *;
    InvParts(cfg, st);
    var info := new LoadBalanceInfo();
    PlacementCode.LayersOf(g);
    FindOverloadedObjs(g, g.cpus, ObjCpu, info, deviation);
    st1, s := g.St(), info.Fields();
    CpuCandidateThere(cfg, st, deviation, st1, s);
    InvParts(cfg, st1);
    PowersaveField(info);
    AdjustMode(g, info, cycleCount);
    AdjustKeepsInv(cfg, st1, s, cycleCount, g.St());
  }

  lemma PowersaveField(info: LoadBalanceInfo)
    ensures info.Fields().powersave == info.powersave
  {
  }

  /** update_migration_status */
  method UpdateMigrationStatus(g: Globals, cycleCount: nat, dev: Deviations)
    requires g.Valid() && Inv(g.Cfg(), g.St())
    modifies g.objs`powersaveMode, g`rebalance, g.objs`interrupts, g.irqs`moved, g.irqs`assignedObj
    ensures g.St() == UpdateMigration(old(g.Cfg()), old(g.St()), cycleCount, dev)
    ensures g.Cfg() == old(g.Cfg()) && g.Valid() && Inv(g.Cfg(), g.St())
  {
    hide *;
    ghost var cfg, st := g.Cfg(), g.St();
    ghost var st1, s := UpdateCpus(g, cycleCount, dev.cpus, cfg, st);
    InvParts(cfg, st);
    UpdateIs(cfg, st, cycleCount, dev, st1, s, g.St());
    PlacementCode.LayersOf(g);
    RelieveLayer(g, g.caches, ObjCache, dev.caches);
    PlacementCode.LayersOf(g);
    RelieveLayer(g, g.packages, ObjPackage, dev.packages);
    PlacementCode.LayersOf(g);
    RelieveLayer(g, g.nodes, ObjNode, dev.nodes);
  }

  /** find_overloaded_objs above the CPUs, where the statistics are not used further */
  method RelieveLayer(g: Globals, name: seq<TopoObj>, ghost kind: Kind, deviation: real)
    requires g.Valid() && name == Layer(g.Cfg(), kind) && Inv(g.Cfg(), g.St())
    modifies g`rebalance, g.objs`interrupts, g.irqs`moved, g.irqs`assignedObj
    ensures g.St() == FindOverloaded(old(g.Cfg()), old(g.St()), kind, deviation).0
    ensures g.Cfg() == old(g.Cfg()) && g.Valid() && Inv(g.Cfg(), g.St())
  {
    hide *;
    var info := new LoadBalanceInfo();
    FindOverloadedObjs(g, name, kind, info, deviation);
  }
}
