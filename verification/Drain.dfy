/** irqlist.c: draining loaded objects onto the waiting list, and power saving. */
module Drain {
  import opened MergeSort
  import opened Irqs
  import opened Ownership
  import opened Tree

  // ---- struct load_balance_info ----

  datatype Stats = Stats(total: nat, avg: nat, minLoad: nat, adjustment: nat, sources: nat,
                         numOver: nat, numUnder: nat, numPowersave: nat, powersave: TopoObj?)

  const NoStats := Stats(0, 0, 0, 0, 0, 0, 0, 0, null)

  /** gather_load_stats: a minimum of 0 counts as "none yet". */
  function GatherOne(s: Stats, load: nat): Stats {
    s.(minLoad := if s.minLoad == 0 || load < s.minLoad then load else s.minLoad,
       total := Add64(s.total, load), sources := s.sources + 1)
  }

  function Gather(objs: map<TopoObj, ObjState>, ds: seq<TopoObj>, s: Stats): Stats
    requires forall d | d in ds :: d in objs
    decreases |ds|
  {
    if ds == [] then s else Gather(objs, ds[1..], GatherOne(s, objs[ds[0]].load))
  }

  // ---- draining one object ----

  /** What move_candidate_irqs requires of the IRQ itself. */
  predicate Movable(q: IrqInfo, load: nat) {
    !(q.hintPolicy == HintExact && q.affinityHint != {}) && q.level != BalanceNone && load > 1
  }

  /** Moving this much to the least loaded object would not swap the imbalance. */
  predicate Worthwhile(s: Stats, load: nat) {
    Sub64(s.adjustment, load) > Add64(s.minLoad, load)
  }

  /** move_candidate_irqs.  The IRQs it is called on are always on some object. */
  ghost function MoveCandidate(cfg: Config, st: State, s: Stats, q: IrqInfo): (r: (State, Stats))
    requires Ready(cfg, st) && q in st.irqs
    ensures Ready(cfg, r.0) && r.0.objs.Keys == st.objs.Keys && r.0.irqs.Keys == st.irqs.Keys
  {
    var o, load := st.irqs[q].owner, st.irqs[q].load;
    if o != null && o in st.objs && Movable(q, load) && |st.objs[o].interrupts| > 1 && Worthwhile(s, load) then
      ReleaseReady(cfg, st, o, q);
      (Release(st, o, q), s.(adjustment := Sub64(s.adjustment, load), minLoad := Add64(s.minLoad, load)))
    else (st, s)
  }

  ghost function MoveCandidates(cfg: Config, st: State, s: Stats, qs: seq<IrqInfo>): (r: (State, Stats))
    requires Ready(cfg, st) && forall q | q in qs :: q in st.irqs
    ensures Ready(cfg, r.0) && r.0.objs.Keys == st.objs.Keys && r.0.irqs.Keys == st.irqs.Keys
    decreases |qs|
  {
    if qs == [] then (st, s)
    else
      var (st1, s1) := MoveCandidate(cfg, st, s, qs[0]);
      MoveCandidates(cfg, st1, s1, qs[1..])
  }

  /** How an object's load compares to the average; `deviation` stands for the standard deviation. */
  function Classify(s: Stats, d: TopoObj, load: nat, saving: bool, powerThresh: nat, deviation: real): Stats {
    var s1 := if saving then s.(numPowersave := s.numPowersave + 1) else s;
    if load as real + deviation <= s.avg as real then
      s1.(numUnder := s1.numUnder + 1,
          powersave := if powerThresh != ULLONG_MAX && s1.powersave == null && !saving then d else s1.powersave)
    else if load as real - deviation >= s.avg as real then s1.(numOver := s1.numOver + 1)
    else s1
  }

  lemma SortObjectReady(cfg: Config, st: State, d: TopoObj)
    requires Ready(cfg, st) && d in st.objs
    ensures Ready(cfg, WithList(st, On(d), SortIrqs(st.irqs, st.objs[d].interrupts)))
  {
    hide TreeOk, IrqsOk, SortIrqs;
    var list := st.objs[d].interrupts;
    SortIrqsPermutes(st.irqs, list);
    assert forall q | q in list :: q in st.irqs;
    assert Within(list, st.irqs.Keys);
    assert Within(SortIrqs(st.irqs, list), st.irqs.Keys);
    WithListKnown(st, On(d), SortIrqs(st.irqs, list));
    assert WithList(st, On(d), SortIrqs(st.irqs, list)).objs.Keys == st.objs.Keys;
  }

  /** sort_irq_list on an object's interrupts */
  ghost function SortObject(cfg: Config, st: State, d: TopoObj): (r: State)
    requires Ready(cfg, st) && d in st.objs
    ensures Ready(cfg, r) && r.objs.Keys == st.objs.Keys && r.irqs == st.irqs
    ensures forall q | q in r.objs[d].interrupts :: q in r.irqs
  {
    SortObjectReady(cfg, st, d);
    WithList(st, On(d), SortIrqs(st.irqs, st.objs[d].interrupts))
  }

  /** The drain of migrate_overloaded_irqs, once the object has been counted. */
  ghost function DrainObject(cfg: Config, st: State, s: Stats, d: TopoObj): (r: (State, Stats))
    requires Ready(cfg, st) && d in st.objs
    ensures Ready(cfg, r.0) && r.0.objs.Keys == st.objs.Keys && r.0.irqs.Keys == st.irqs.Keys
  {
    if st.objs[d].load > s.minLoad && |st.objs[d].interrupts| > 1 then
      var st1 := SortObject(cfg, st, d);
      MoveCandidates(cfg, st1, s.(adjustment := st.objs[d].load), st1.objs[d].interrupts)
    else (st, s)
  }

  /** migrate_overloaded_irqs */
  ghost function MigrateOverloaded(cfg: Config, st: State, s: Stats, d: TopoObj, deviation: real): (r: (State, Stats))
    requires Ready(cfg, st) && d in st.objs
    ensures Ready(cfg, r.0) && r.0.objs.Keys == st.objs.Keys && r.0.irqs.Keys == st.irqs.Keys
  {
    DrainObject(cfg, st, Classify(s, d, st.objs[d].load, st.objs[d].powersave, cfg.powerThresh, deviation), d)
  }

  ghost function MigrateAll(cfg: Config, st: State, s: Stats, ds: seq<TopoObj>, deviation: real): (r: (State, Stats))
    requires Ready(cfg, st) && forall d | d in ds :: d in st.objs
    ensures Ready(cfg, r.0) && r.0.objs.Keys == st.objs.Keys && r.0.irqs.Keys == st.irqs.Keys
    decreases |ds|
  {
    if ds == [] then (st, s)
    else
      var (st1, s1) := MigrateOverloaded(cfg, st, s, ds[0], deviation);
      MigrateAll(cfg, st1, s1, ds[1..], deviation)
  }

  /** The statistics find_overloaded_objs starts the migration with. */
  function Averaged(s: Stats): Stats {
    var sources := if s.sources == 0 then 1 else s.sources;
    s.(sources := sources, avg := s.total / sources)
  }

  /** find_overloaded_objs */
  ghost function FindOverloaded(cfg: Config, st: State, kind: Kind, deviation: real): (r: (State, Stats))
    requires Ready(cfg, st)
    ensures Ready(cfg, r.0) && r.0.objs.Keys == st.objs.Keys && r.0.irqs.Keys == st.irqs.Keys
  {
    LayerKnown(cfg, st.objs.Keys, kind);
    var s := Averaged(Gather(st.objs, Layer(cfg, kind), NoStats));
    MigrateAll(cfg, st, s, Layer(cfg, kind), if s.sources == 1 then 0.0 else deviation)
  }

  // ---- power saving ----

  /** force_irq_migration */
  ghost function ForceOff(cfg: Config, st: State, q: IrqInfo): (r: State)
    requires Ready(cfg, st) && q in st.irqs
    ensures Ready(cfg, r) && r.objs.Keys == st.objs.Keys && r.irqs.Keys == st.irqs.Keys
  {
    var o := st.irqs[q].owner;
    if o != null && o in st.objs then
      ReleaseReady(cfg, st, o, q);
      Release(st, o, q)
    else st
  }

  ghost function ForceAllOff(cfg: Config, st: State, qs: seq<IrqInfo>): (r: State)
    requires Ready(cfg, st) && forall q | q in qs :: q in st.irqs
    ensures Ready(cfg, r) && r.objs.Keys == st.objs.Keys && r.irqs.Keys == st.irqs.Keys
    decreases |qs|
  {
    if qs == [] then st else ForceAllOff(cfg, ForceOff(cfg, st, qs[0]), qs[1..])
  }

  ghost function SetPowersave(cfg: Config, st: State, o: TopoObj, on: bool): (r: State)
    requires Ready(cfg, st) && o in st.objs
    ensures Ready(cfg, r) && r.objs.Keys == st.objs.Keys && r.irqs.Keys == st.irqs.Keys
  {
    var r := st.(objs := st.objs[o := st.objs[o].(powersave := on)]);
    RecordKnown(st, r);
    r
  }

  ghost function ClearPowersave(cfg: Config, st: State, ds: seq<TopoObj>): (r: State)
    requires Ready(cfg, st) && forall d | d in ds :: d in st.objs
    ensures Ready(cfg, r) && r.objs.Keys == st.objs.Keys && r.irqs.Keys == st.irqs.Keys
    decreases |ds|
  {
    if ds == [] then st else ClearPowersave(cfg, SetPowersave(cfg, st, ds[0], false), ds[1..])
  }

  ghost function EnterPowersave(cfg: Config, st: State, o: TopoObj): (r: State)
    requires Ready(cfg, st) && o in st.objs
    ensures Ready(cfg, r) && r.objs.Keys == st.objs.Keys && r.irqs.Keys == st.irqs.Keys
  {
    var st1 := SetPowersave(cfg, st, o, true);
    ForceAllOff(cfg, st1, st1.objs[o].interrupts)
  }

  /** The decision update_migration_status takes from the statistics of the CPUs. */
  ghost function AdjustPower(cfg: Config, st: State, s: Stats, cycleCount: nat): (r: State)
    requires Ready(cfg, st) && (s.powersave != null ==> s.powersave in st.objs)
    ensures Ready(cfg, r) && r.objs.Keys == st.objs.Keys && r.irqs.Keys == st.irqs.Keys
  {
    if cfg.powerThresh == ULLONG_MAX || cycleCount <= 5 then st
    else if s.numOver == 0 && s.numUnder >= cfg.powerThresh && s.powersave != null then EnterPowersave(cfg, st, s.powersave)
    else if s.numOver != 0 && s.numPowersave != 0 then
      LayerKnown(cfg, st.objs.Keys, ObjCpu);
      ClearPowersave(cfg, st, Layer(cfg, ObjCpu))
    else st
  }

  /** The deviations measured on the four layers. */
  datatype Deviations = Deviations(cpus: real, caches: real, packages: real, nodes: real)

  /** The candidate for power saving is one of the objects looked at. */
  lemma {:induction false} CandidateIsLayer(cfg: Config, st: State, s: Stats, ds: seq<TopoObj>, deviation: real)
    requires Ready(cfg, st) && forall d | d in ds :: d in st.objs
    ensures var p := MigrateAll(cfg, st, s, ds, deviation).1.powersave; p == s.powersave || p in ds
    decreases |ds|
  {
    hide Ready, DrainObject, MigrateOverloaded, Classify;
    if ds != [] {
      CandidateOne(cfg, st, s, ds[0], deviation);
      var (st1, s1) := MigrateOverloaded(cfg, st, s, ds[0], deviation);
      CandidateIsLayer(cfg, st1, s1, ds[1..], deviation);
    }
  }

  lemma CandidateOne(cfg: Config, st: State, s: Stats, d: TopoObj, deviation: real)
    requires Ready(cfg, st) && d in st.objs
    ensures var p := MigrateOverloaded(cfg, st, s, d, deviation).1.powersave; p == s.powersave || p == d
  {
    hide Ready, DrainObject;
    CandidateUnchanged(cfg, st, Classify(s, d, st.objs[d].load, st.objs[d].powersave, cfg.powerThresh, deviation), d);
  }

  lemma CandidateUnchanged(cfg: Config, st: State, s: Stats, d: TopoObj)
    requires Ready(cfg, st) && d in st.objs
    ensures DrainObject(cfg, st, s, d).1.powersave == s.powersave
  {
    hide Ready, SortObject, MoveCandidates;
    if st.objs[d].load > s.minLoad && |st.objs[d].interrupts| > 1 {
      var st1 := SortObject(cfg, st, d);
      CandidateUnchangedBy(cfg, st1, s.(adjustment := st.objs[d].load), st1.objs[d].interrupts);
    }
  }

  lemma {:induction false} CandidateUnchangedBy(cfg: Config, st: State, s: Stats, qs: seq<IrqInfo>)
    requires Ready(cfg, st) && forall q | q in qs :: q in st.irqs
    ensures MoveCandidates(cfg, st, s, qs).1.powersave == s.powersave
    decreases |qs|
  {
    hide Ready, Release;
    if qs != [] {
      var (st1, s1) := MoveCandidate(cfg, st, s, qs[0]);
      CandidateUnchangedBy(cfg, st1, s1, qs[1..]);
    }
  }

  /** update_migration_status */
  ghost function UpdateMigration(cfg: Config, st: State, cycleCount: nat, dev: Deviations): (r: State)
    requires Ready(cfg, st)
    ensures Ready(cfg, r) && r.objs.Keys == st.objs.Keys && r.irqs.Keys == st.irqs.Keys
  {
    var (st1, s) := FindOverloaded(cfg, st, ObjCpu, dev.cpus);
    LayerKnown(cfg, st.objs.Keys, ObjCpu);
    FoundInLayer(cfg, st, ObjCpu, dev.cpus);
    var st2 := AdjustPower(cfg, st1, s, cycleCount);
    var st3 := FindOverloaded(cfg, st2, ObjCache, dev.caches).0;
    var st4 := FindOverloaded(cfg, st3, ObjPackage, dev.packages).0;
    FindOverloaded(cfg, st4, ObjNode, dev.nodes).0
  }

  lemma FoundInLayer(cfg: Config, st: State, kind: Kind, deviation: real)
    requires Ready(cfg, st)
    ensures var p := FindOverloaded(cfg, st, kind, deviation).1.powersave; p != null ==> p in Layer(cfg, kind)
  {
    hide MigrateAll, Ready;
    LayerKnown2(cfg, st, kind);
    var g := Gather(st.objs, Layer(cfg, kind), NoStats);
    GatherNoCandidate(st.objs, Layer(cfg, kind), NoStats);
    var s := Averaged(g);
    CandidateIsLayer(cfg, st, s, Layer(cfg, kind), if s.sources == 1 then 0.0 else deviation);
  }

  lemma LayerKnown2(cfg: Config, st: State, kind: Kind)
    requires Ready(cfg, st)
    ensures forall d | d in Layer(cfg, kind) :: d in st.objs && d.kind == kind
  {
    LayerKnown(cfg, st.objs.Keys, kind);
  }

  lemma {:induction false} GatherNoCandidate(objs: map<TopoObj, ObjState>, ds: seq<TopoObj>, s: Stats)
    requires forall d | d in ds :: d in objs
    ensures Gather(objs, ds, s).powersave == s.powersave
    decreases |ds|
  {
    if ds != [] {
      GatherNoCandidate(objs, ds[1..], GatherOne(s, objs[ds[0]].load));
    }
  }

  // ---- drains whose arithmetic does not wrap ----

  /** The subtraction for a candidate does not wrap; and, if `both`, neither does the addition. */
  ghost predicate CandidateFits(st: State, s: Stats, q: IrqInfo, both: bool)
    requires q in st.irqs
  {
    var o, load := st.irqs[q].owner, st.irqs[q].load;
    o != null && o in st.objs && Movable(q, load) && |st.objs[o].interrupts| > 1 ==>
      load <= s.adjustment && (both ==> s.minLoad + load < TWO64)
  }

  ghost predicate CandidatesFit(cfg: Config, st: State, s: Stats, qs: seq<IrqInfo>, both: bool)
    requires Ready(cfg, st) && forall q | q in qs :: q in st.irqs
    decreases |qs|
  {
    qs == [] ||
    (CandidateFits(st, s, qs[0], both) &&
     var (st1, s1) := MoveCandidate(cfg, st, s, qs[0]);
     CandidatesFit(cfg, st1, s1, qs[1..], both))
  }

  ghost predicate DrainFits(cfg: Config, st: State, s: Stats, d: TopoObj, both: bool)
    requires Ready(cfg, st) && d in st.objs
  {
    st.objs[d].load > s.minLoad && |st.objs[d].interrupts| > 1 ==>
      var st1 := SortObject(cfg, st, d);
      CandidatesFit(cfg, st1, s.(adjustment := st.objs[d].load), st1.objs[d].interrupts, both)
  }

  ghost predicate MigrateFits(cfg: Config, st: State, s: Stats, d: TopoObj, deviation: real, both: bool)
    requires Ready(cfg, st) && d in st.objs
  {
    DrainFits(cfg, st, Classify(s, d, st.objs[d].load, st.objs[d].powersave, cfg.powerThresh, deviation), d, both)
  }

  ghost predicate MigrateAllFits(cfg: Config, st: State, s: Stats, ds: seq<TopoObj>, deviation: real, both: bool)
    requires Ready(cfg, st) && forall d | d in ds :: d in st.objs
    decreases |ds|
  {
    ds == [] ||
    (MigrateFits(cfg, st, s, ds[0], deviation, both) &&
     var (st1, s1) := MigrateOverloaded(cfg, st, s, ds[0], deviation);
     MigrateAllFits(cfg, st1, s1, ds[1..], deviation, both))
  }

  ghost predicate FindFits(cfg: Config, st: State, kind: Kind, deviation: real, both: bool)
    requires Ready(cfg, st)
  {
    LayerKnown(cfg, st.objs.Keys, kind);
    var s := Averaged(Gather(st.objs, Layer(cfg, kind), NoStats));
    MigrateAllFits(cfg, st, s, Layer(cfg, kind), if s.sources == 1 then 0.0 else deviation, both)
  }

  /** The same for the four layers of update_migration_status. */
  ghost predicate UpdateFits(cfg: Config, st: State, cycleCount: nat, dev: Deviations, both: bool)
    requires Ready(cfg, st)
  {
    var (st1, s) := FindOverloaded(cfg, st, ObjCpu, dev.cpus);
    LayerKnown(cfg, st.objs.Keys, ObjCpu);
    FoundInLayer(cfg, st, ObjCpu, dev.cpus);
    var st2 := AdjustPower(cfg, st1, s, cycleCount);
    var st3 := FindOverloaded(cfg, st2, ObjCache, dev.caches).0;
    var st4 := FindOverloaded(cfg, st3, ObjPackage, dev.packages).0;
    && FindFits(cfg, st, ObjCpu, dev.cpus, both) && FindFits(cfg, st2, ObjCache, dev.caches, both)
    && FindFits(cfg, st3, ObjPackage, dev.packages, both) && FindFits(cfg, st4, ObjNode, dev.nodes, both)
  }

  // ---- the minimum that gather_load_stats finds ----

  function Loads(objs: map<TopoObj, ObjState>, ds: seq<TopoObj>): seq<nat>
    requires forall d | d in ds :: d in objs
  {
    if ds == [] then [] else [objs[ds[0]].load] + Loads(objs, ds[1..])
  }

  /** The minimum kept after some loads: one of them, 0 just when the last is,
      and the least when none is 0. */
  ghost predicate MinSoFar(done: seq<nat>, m: nat) {
    && (m == 0 <==> done == [] || done[|done| - 1] == 0)
    && (done != [] ==> m in done)
    && ((forall i | 0 <= i < |done| :: done[i] != 0) ==> forall i | 0 <= i < |done| :: m <= done[i])
  }

  lemma MinStep(done: seq<nat>, s: Stats, load: nat)
    requires MinSoFar(done, s.minLoad)
    ensures MinSoFar(done + [load], GatherOne(s, load).minLoad)
  {
    var all := done + [load];
    assert forall i | 0 <= i < |done| :: all[i] == done[i];
    assert all[|done|] == load;
  }

  lemma {:induction false} GatherKeepsMin(objs: map<TopoObj, ObjState>, ds: seq<TopoObj>, s: Stats, done: seq<nat>)
    requires (forall d | d in ds :: d in objs) && MinSoFar(done, s.minLoad)
    ensures MinSoFar(done + Loads(objs, ds), Gather(objs, ds, s).minLoad)
    decreases |ds|
  {
    if ds == [] {
      assert done + Loads(objs, ds) == done;
    } else {
      hide MinSoFar, GatherOne;
      var load := objs[ds[0]].load;
      MinStep(done, s, load);
      GatherKeepsMin(objs, ds[1..], GatherOne(s, load), done + [load]);
      assert done + [load] + Loads(objs, ds[1..]) == done + Loads(objs, ds);
    }
  }

  /** For instance, of the loads 0 and 5 the minimum found is 5. */
  lemma GatherMissesMin(a: TopoObj, b: TopoObj)
    requires a != b
    ensures Gather(map[a := ObjState(0, 0, false, []), b := ObjState(5, 0, false, [])], [a, b], NoStats).minLoad == 5
  {
    var objs := map[a := ObjState(0, 0, false, []), b := ObjState(5, 0, false, [])];
    assert [a, b][1..] == [b] && [b][1..] == [];
    assert Gather(objs, [a, b], NoStats) == Gather(objs, [b], GatherOne(NoStats, 0));
    assert Gather(objs, [b], GatherOne(NoStats, 0)) == GatherOne(GatherOne(NoStats, 0), 5);
  }

  /** The minimum found is the load of one of the objects.  It is the least of
      them exactly when the last load is 0 or no load before it is. */
  lemma GatherFindsMin(objs: map<TopoObj, ObjState>, ds: seq<TopoObj>)
    requires (forall d | d in ds :: d in objs) && ds != []
    ensures var loads := Loads(objs, ds);
      var m := Gather(objs, ds, NoStats).minLoad;
      && m in loads
      && ((forall i | 0 <= i < |loads| :: m <= loads[i])
           <==> loads[|loads| - 1] == 0 || forall i | 0 <= i < |loads| - 1 :: loads[i] != 0)
  {
    GatherKeepsMin(objs, ds, NoStats, []);
    var loads := Loads(objs, ds);
    assert [] + loads == loads;
  }
}
