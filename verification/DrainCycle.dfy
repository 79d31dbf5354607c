/** update_migration_status: draining all layers, and entering and leaving power saving. */
module DrainCycle {
  import opened MergeSort
  import opened Irqs
  import opened Ownership
  import opened Tree
  import opened PlacementProofs
  import opened PlacementLoads
  import opened Drain
  import opened DrainProofs

  /** st' is st with some movable IRQs taken off objects, none of which was emptied. */
  ghost predicate Eased(st: State, st': State) {
    && SameLoads(st, st')
    && (forall q | q in st.irqs ::
          || st'.irqs[q] == st.irqs[q]
          || (&& st.irqs[q].owner != null && MayLeave(q, st.irqs[q].load)
              && st'.irqs[q] == st.irqs[q].(moved := true, owner := null)))
    && (forall o | o in st.objs && st.objs[o].interrupts != [] :: st'.objs[o].interrupts != [])
  }

  lemma EasedSame(st: State)
    ensures Eased(st, st)
  {
  }

  lemma EasedBoth(st: State, st1: State, st2: State)
    requires Eased(st, st1) && Eased(st1, st2)
    ensures Eased(st, st2)
  {
    hide MayLeave;
  }

  lemma DrainedEases(st: State, st1: State, d: TopoObj, out: seq<IrqInfo>)
    requires Drained(st, st1, d, out)
    ensures Eased(st, st1)
  {
    forall q | q in st.irqs
      ensures st1.irqs[q] == st.irqs[q]
              || (st.irqs[q].owner != null && MayLeave(q, st.irqs[q].load) && st1.irqs[q] == st.irqs[q].(moved := true, owner := null))
    {
      if q in out {
        var i :| 0 <= i < |out| && out[i] == q;
      }
    }
  }

  lemma ObjectDrainedParts(st: State, s: Stats, st2: State, s2: Stats, d: TopoObj, out: seq<IrqInfo>, sane: bool)
    requires d in st.objs && (forall i | 0 <= i < |out| :: out[i] in st.irqs) && ObjectDrained(st, s, st2, s2, d, out, sane)
    ensures Drained(st, st2, d, out)
  {
  }

  lemma MigrateAllStep(cfg: Config, st: State, s: Stats, ds: seq<TopoObj>, deviation: real)
    requires Ready(cfg, st) && ds != [] && forall d | d in ds :: d in st.objs
    ensures ds[0] in st.objs
    ensures var (st1, s1) := MigrateOverloaded(cfg, st, s, ds[0], deviation);
      MigrateAll(cfg, st, s, ds, deviation) == MigrateAll(cfg, st1, s1, ds[1..], deviation)
  {
  }

  lemma MigrateIs(cfg: Config, st: State, s: Stats, d: TopoObj, deviation: real) returns (s0: Stats)
    requires Ready(cfg, st) && d in st.objs
    ensures MigrateOverloaded(cfg, st, s, d, deviation) == DrainObject(cfg, st, s0, d)
    ensures s0 == Classify(s, d, st.objs[d].load, st.objs[d].powersave, cfg.powerThresh, deviation) && s0.minLoad == s.minLoad
  {
    hide Ready, DrainObject;
    s0 := Classify(s, d, st.objs[d].load, st.objs[d].powersave, cfg.powerThresh, deviation);
  }

  lemma MigrateNone(cfg: Config, st: State, s: Stats, deviation: real)
    requires Ready(cfg, st)
    ensures MigrateAll(cfg, st, s, [], deviation) == (st, s)
  {
  }

  lemma {:induction false} MigrateAllEases(cfg: Config, sane: bool, st: State, s: Stats, ds: seq<TopoObj>, deviation: real, st2: State)
    requires Held(cfg, st, sane) && Ready(cfg, st) && forall d | d in ds :: d in st.objs
    requires st2 == MigrateAll(cfg, st, s, ds, deviation).0
    ensures Held(cfg, st2, sane) && Eased(st, st2)
    decreases |ds|
  {
    hide *;
    if ds == [] {
      MigrateNone(cfg, st, s, deviation);
      EasedSame(st);
      return;
    }
    var d := ds[0];
    MigrateAllStep(cfg, st, s, ds, deviation);
    var s0 := MigrateIs(cfg, st, s, d, deviation);
    var (st1, s1) := MigrateOverloaded(cfg, st, s, d, deviation);
    var out := DrainObjectDoes(cfg, sane, st, s0, d, st1, s1);
    ObjectDrainedParts(st, s0, st1, s1, d, out, sane && st.objs[d].load + s0.minLoad < TWO64);
    DrainedKeys(st, st1, d, out);
    DrainedEases(st, st1, d, out);
    HeldParts(cfg, sane, st1);
    MigrateAllEases(cfg, sane, st1, s1, ds[1..], deviation, st2);
    EasedBoth(st, st1, st2);
  }

  // ---- drains whose arithmetic does not wrap ----

  /** Every load is in the lower half of the range. */
  ghost predicate LowLoads(st: State) {
    forall o | o in st.objs :: st.objs[o].load < LIMIT
  }

  lemma MigrateFitsStep(cfg: Config, st: State, s: Stats, ds: seq<TopoObj>, deviation: real, both: bool)
    requires Ready(cfg, st) && ds != [] && forall d | d in ds :: d in st.objs
    ensures ds[0] in st.objs
    ensures var (st1, s1) := MigrateOverloaded(cfg, st, s, ds[0], deviation);
      MigrateFits(cfg, st, s, ds[0], deviation, both) && MigrateAllFits(cfg, st1, s1, ds[1..], deviation, both)
      ==> MigrateAllFits(cfg, st, s, ds, deviation, both)
  {
    hide Ready, MigrateOverloaded, MigrateFits;
  }

  lemma MigrateFitsIs(cfg: Config, st: State, s: Stats, d: TopoObj, deviation: real, s0: Stats, both: bool)
    requires Ready(cfg, st) && d in st.objs && DrainFits(cfg, st, s0, d, both)
    requires s0 == Classify(s, d, st.objs[d].load, st.objs[d].powersave, cfg.powerThresh, deviation)
    ensures MigrateFits(cfg, st, s, d, deviation, both)
  {
    hide Ready, DrainFits, Classify;
  }

  lemma MigrateNoneFits(cfg: Config, st: State, s: Stats, deviation: real, both: bool)
    requires Ready(cfg, st)
    ensures MigrateAllFits(cfg, st, s, [], deviation, both)
  {
  }

  lemma FitsAtMost(cfg: Config, st: State, s: Stats, d: TopoObj, exact: bool, both: bool)
    requires Ready(cfg, st) && d in st.objs && DrainFits(cfg, st, s, d, exact) && (both ==> exact)
    ensures DrainFits(cfg, st, s, d, both)
  {
    hide Ready, SortObject, CandidatesFit;
    if exact != both && st.objs[d].load > s.minLoad && |st.objs[d].interrupts| > 1 {
      var st1 := SortObject(cfg, st, d);
      OnlySub(cfg, st1, s.(adjustment := st.objs[d].load), st1.objs[d].interrupts);
    }
  }

  lemma LowLoadsSum(st: State, d: TopoObj, minLoad: nat)
    requires LowLoads(st) && d in st.objs && minLoad < LIMIT
    ensures st.objs[d].load < LIMIT && st.objs[d].load + minLoad < TWO64
  {
  }

  lemma StillLowLoads(st: State, st1: State)
    requires LowLoads(st) && SameLoads(st, st1)
    ensures LowLoads(st1)
  {
  }

  /** The drain of a layer never subtracts below 0, whatever the loads; when all are in
      the lower half of the range it never adds beyond 64 bits either. */
  lemma {:induction false} MigrateAllExact(cfg: Config, both: bool, st: State, s: Stats, ds: seq<TopoObj>, deviation: real)
    requires Held(cfg, st, true) && Ready(cfg, st) && forall d | d in ds :: d in st.objs
    requires both ==> LowLoads(st) && s.minLoad < LIMIT
    ensures MigrateAllFits(cfg, st, s, ds, deviation, both)
    decreases |ds|
  {
    hide *;
    if ds == [] {
      MigrateNoneFits(cfg, st, s, deviation, both);
      return;
    }
    var d := ds[0];
    MigrateFitsStep(cfg, st, s, ds, deviation, both);
    var s0 := MigrateIs(cfg, st, s, d, deviation);
    var (st1, s1) := MigrateOverloaded(cfg, st, s, d, deviation);
    var out := DrainObjectDoes(cfg, true, st, s0, d, st1, s1);
    var exact := st.objs[d].load + s0.minLoad < TWO64;
    ObjectDrainedParts(st, s0, st1, s1, d, out, exact);
    DrainedKeys(st, st1, d, out);
    if both {
      LowLoadsSum(st, d, s.minLoad);
      DrainedSameLoads(st, st1, d, out);
      StillLowLoads(st, st1);
    }
    FitsAtMost(cfg, st, s0, d, exact, both);
    MigrateFitsIs(cfg, st, s, d, deviation, s0, both);
    HeldParts(cfg, true, st1);
    MigrateAllExact(cfg, both, st1, s1, ds[1..], deviation);
  }

  lemma DrainedSameLoads(st: State, st1: State, d: TopoObj, out: seq<IrqInfo>)
    requires Drained(st, st1, d, out)
    ensures SameLoads(st, st1)
  {
  }

  /** find_overloaded_objs on one layer. */
  lemma FindExact(cfg: Config, both: bool, st: State, kind: Kind, deviation: real)
    requires Held(cfg, st, true) && Ready(cfg, st) && (both ==> LowLoads(st))
    ensures FindFits(cfg, st, kind, deviation, both)
  {
    hide *;
    var s, dev := FoundStats(cfg, true, st, kind, deviation);
    MigrateAllExact(cfg, both, st, s, Layer(cfg, kind), dev);
  }

  lemma {:induction false} GatherBelow(objs: map<TopoObj, ObjState>, ds: seq<TopoObj>, s: Stats, limit: nat)
    requires (forall d | d in ds :: d in objs && objs[d].load < limit) && s.minLoad < limit
    ensures Gather(objs, ds, s).minLoad < limit
    decreases |ds|
  {
    if ds != [] {
      GatherBelow(objs, ds[1..], GatherOne(s, objs[ds[0]].load), limit);
    }
  }

  // ---- what the statistics count ----

  ghost predicate Under(objs: map<TopoObj, ObjState>, o: TopoObj, avg: nat, deviation: real) {
    o in objs && objs[o].load as real + deviation <= avg as real
  }

  ghost predicate Over(objs: map<TopoObj, ObjState>, o: TopoObj, avg: nat, deviation: real) {
    o in objs && !Under(objs, o, avg, deviation) && objs[o].load as real - deviation >= avg as real
  }

  ghost function CountUnder(objs: map<TopoObj, ObjState>, ds: seq<TopoObj>, avg: nat, deviation: real): nat {
    if ds == [] then 0 else (if Under(objs, ds[0], avg, deviation) then 1 else 0) + CountUnder(objs, ds[1..], avg, deviation)
  }

  ghost function CountOver(objs: map<TopoObj, ObjState>, ds: seq<TopoObj>, avg: nat, deviation: real): nat {
    if ds == [] then 0 else (if Over(objs, ds[0], avg, deviation) then 1 else 0) + CountOver(objs, ds[1..], avg, deviation)
  }

  ghost function CountSaving(objs: map<TopoObj, ObjState>, ds: seq<TopoObj>): nat {
    if ds == [] then 0 else (if ds[0] in objs && objs[ds[0]].powersave then 1 else 0) + CountSaving(objs, ds[1..])
  }

  /** The first object under the average that is not saving power. */
  ghost function FirstUnder(objs: map<TopoObj, ObjState>, ds: seq<TopoObj>, avg: nat, deviation: real): TopoObj? {
    if ds == [] then null
    else if Under(objs, ds[0], avg, deviation) && !objs[ds[0]].powersave then ds[0]
    else FirstUnder(objs, ds[1..], avg, deviation)
  }

  ghost predicate SameMeasures(objs: map<TopoObj, ObjState>, objs': map<TopoObj, ObjState>) {
    && objs'.Keys == objs.Keys
    && forall o | o in objs :: objs'[o].load == objs[o].load && objs'[o].powersave == objs[o].powersave
  }

  lemma {:induction false} CountsSame(objs: map<TopoObj, ObjState>, objs': map<TopoObj, ObjState>, ds: seq<TopoObj>, avg: nat, deviation: real)
    requires SameMeasures(objs, objs')
    ensures CountUnder(objs', ds, avg, deviation) == CountUnder(objs, ds, avg, deviation)
    ensures CountOver(objs', ds, avg, deviation) == CountOver(objs, ds, avg, deviation)
    ensures CountSaving(objs', ds) == CountSaving(objs, ds)
    ensures FirstUnder(objs', ds, avg, deviation) == FirstUnder(objs, ds, avg, deviation)
  {
    if ds != [] {
      CountsSame(objs, objs', ds[1..], avg, deviation);
    }
  }

  /** The counts in s2 are those in s and what the objects ds add. */
  ghost predicate Tallies(objs: map<TopoObj, ObjState>, ds: seq<TopoObj>, s: Stats, s2: Stats, powerThresh: nat, deviation: real) {
    && s2.avg == s.avg
    && s2.numUnder == s.numUnder + CountUnder(objs, ds, s.avg, deviation)
    && s2.numOver == s.numOver + CountOver(objs, ds, s.avg, deviation)
    && s2.numPowersave == s.numPowersave + CountSaving(objs, ds)
    && s2.powersave == if s.powersave != null || powerThresh == ULLONG_MAX then s.powersave else FirstUnder(objs, ds, s.avg, deviation)
  }

  lemma TallyStep(objs: map<TopoObj, ObjState>, ds: seq<TopoObj>, s: Stats, s1: Stats, s2: Stats, powerThresh: nat, deviation: real)
    requires ds != [] && ds[0] in objs
    requires s1 == Classify(s, ds[0], objs[ds[0]].load, objs[ds[0]].powersave, powerThresh, deviation).(adjustment := s1.adjustment, minLoad := s1.minLoad)
    requires Tallies(objs, ds[1..], s1, s2, powerThresh, deviation)
    ensures Tallies(objs, ds, s, s2, powerThresh, deviation)
  {
  }

  lemma DrainedMeasures(st: State, st1: State, d: TopoObj, out: seq<IrqInfo>)
    requires Drained(st, st1, d, out)
    ensures SameMeasures(st.objs, st1.objs)
  {
  }

  lemma TallySame(objs: map<TopoObj, ObjState>, objs': map<TopoObj, ObjState>, ds: seq<TopoObj>, s: Stats, s2: Stats, powerThresh: nat, deviation: real)
    requires SameMeasures(objs, objs') && Tallies(objs', ds, s, s2, powerThresh, deviation)
    ensures Tallies(objs, ds, s, s2, powerThresh, deviation)
  {
    CountsSame(objs, objs', ds, s.avg, deviation);
  }

  lemma DrainedStats(st: State, s: Stats, st2: State, s2: Stats, d: TopoObj, out: seq<IrqInfo>, sane: bool)
    requires d in st.objs && (forall i | 0 <= i < |out| :: out[i] in st.irqs) && ObjectDrained(st, s, st2, s2, d, out, sane)
    ensures s2 == s.(adjustment := s2.adjustment, minLoad := s2.minLoad)
  {
  }

  lemma TallyNone(objs: map<TopoObj, ObjState>, s: Stats, powerThresh: nat, deviation: real)
    ensures Tallies(objs, [], s, s, powerThresh, deviation)
  {
  }

  /** The statistics count the objects as they were before the drain, which
      changes no load: so the decision does not depend on the order of draining. */
  lemma {:induction false} MigrateAllTallies(cfg: Config, sane: bool, st: State, s: Stats, ds: seq<TopoObj>, deviation: real, s2: Stats)
    requires Held(cfg, st, sane) && Ready(cfg, st) && forall d | d in ds :: d in st.objs
    requires s2 == MigrateAll(cfg, st, s, ds, deviation).1
    ensures Tallies(st.objs, ds, s, s2, cfg.powerThresh, deviation)
    decreases |ds|
  {
    hide *;
    if ds == [] {
      MigrateNone(cfg, st, s, deviation);
      TallyNone(st.objs, s, cfg.powerThresh, deviation);
      return;
    }
    var d := ds[0];
    MigrateAllStep(cfg, st, s, ds, deviation);
    var s0 := MigrateIs(cfg, st, s, d, deviation);
    var (st1, s1) := MigrateOverloaded(cfg, st, s, d, deviation);
    var out := DrainObjectDoes(cfg, sane, st, s0, d, st1, s1);
    ObjectDrainedParts(st, s0, st1, s1, d, out, sane && st.objs[d].load + s0.minLoad < TWO64);
    DrainedStats(st, s0, st1, s1, d, out, sane && st.objs[d].load + s0.minLoad < TWO64);
    DrainedKeys(st, st1, d, out);
    DrainedMeasures(st, st1, d, out);
    HeldParts(cfg, sane, st1);
    MigrateAllTallies(cfg, sane, st1, s1, ds[1..], deviation, s2);
    TallySame(st.objs, st1.objs, ds[1..], s1, s2, cfg.powerThresh, deviation);
    TallyStep(st.objs, ds, s, s1, s2, cfg.powerThresh, deviation);
  }

  ghost function AllLoads(objs: map<TopoObj, ObjState>, ds: seq<TopoObj>): nat
    requires forall d | d in ds :: d in objs
  {
    if ds == [] then 0 else objs[ds[0]].load + AllLoads(objs, ds[1..])
  }

  lemma {:induction false} GatherTotals(objs: map<TopoObj, ObjState>, ds: seq<TopoObj>, s: Stats)
    requires (forall d | d in ds :: d in objs) && s.total < TWO64
    ensures Gather(objs, ds, s).total == (s.total + AllLoads(objs, ds)) % TWO64
    ensures Gather(objs, ds, s).sources == s.sources + |ds|
    ensures var r := Gather(objs, ds, s); r == s.(minLoad := r.minLoad, total := r.total, sources := r.sources)
    decreases |ds|
  {
    if ds != [] {
      hide Add64;
      var load := objs[ds[0]].load;
      AddThenMore(s.total, load, AllLoads(objs, ds[1..]));
      GatherTotals(objs, ds[1..], GatherOne(s, load));
    } else {
      SmallMod(s.total);
    }
  }

  lemma SmallMod(a: nat)
    requires a < TWO64
    ensures a % TWO64 == a
  {
  }

  lemma AddThenMore(a: nat, b: nat, c: nat)
    requires a < TWO64
    ensures Add64(a, b) < TWO64 && (Add64(a, b) + c) % TWO64 == (a + (b + c)) % TWO64
  {
    AddMod(a + b, c);
  }


  // ---- the power decision ----

  /** The average find_overloaded_objs takes of the CPU loads: of their total in 64 bits. */
  ghost function Average(cfg: Config, st: State): nat
    requires forall d | d in cfg.cpus :: d in st.objs
  {
    AllLoads(st.objs, cfg.cpus) % TWO64 / (if cfg.cpus == [] then 1 else |cfg.cpus|)
  }

  /** A single CPU does not deviate. */
  ghost function DeviationUsed(cfg: Config, deviation: real): real {
    if |cfg.cpus| <= 1 then 0.0 else deviation
  }

  ghost function Savers(st: State): set<TopoObj> {
    set o | o in st.objs && st.objs[o].powersave
  }

  /** The CPUs that should save power after a turn that measured st.  One enters when the
      feature is on, more than five turns have passed, no CPU is over the average by the
      deviation, at least as many as the threshold are under it, and one of them does not
      save power yet: it is the first such CPU.  Otherwise all leave when some CPU is over. */
  ghost function SaversAfter(cfg: Config, st: State, cycleCount: nat, deviation: real): set<TopoObj>
    requires forall d | d in cfg.cpus :: d in st.objs
  {
    var avg, dev := Average(cfg, st), DeviationUsed(cfg, deviation);
    var first := FirstUnder(st.objs, cfg.cpus, avg, dev);
    if cfg.powerThresh == ULLONG_MAX || cycleCount <= 5 then Savers(st)
    else if CountOver(st.objs, cfg.cpus, avg, dev) == 0 && CountUnder(st.objs, cfg.cpus, avg, dev) >= cfg.powerThresh && first != null
    then Savers(st) + {first}
    else if CountOver(st.objs, cfg.cpus, avg, dev) != 0 then {}
    else Savers(st)
  }

  lemma AveragedIs(g: Stats, n: nat)
    requires g.sources == n
    ensures var k := if n == 0 then 1 else n; Averaged(g) == g.(sources := k, avg := g.total / k)
  {
  }

  lemma PowerStats(cfg: Config, st: State, deviation: real, s: Stats)
    requires Inv(cfg, st) && Ready(cfg, st) && s == FindOverloaded(cfg, st, ObjCpu, deviation).1
    ensures forall d | d in cfg.cpus :: d in st.objs
    ensures var avg, dev := Average(cfg, st), DeviationUsed(cfg, deviation);
      && s.numUnder == CountUnder(st.objs, cfg.cpus, avg, dev) && s.numOver == CountOver(st.objs, cfg.cpus, avg, dev)
      && s.numPowersave == CountSaving(st.objs, cfg.cpus)
      && s.powersave == if cfg.powerThresh == ULLONG_MAX then null else FirstUnder(st.objs, cfg.cpus, avg, dev)
  {
    hide Held, Inv, Ready, MigrateAll, MigrateAllFits, FindFits, FindOverloaded, CountUnder, CountOver, CountSaving, FirstUnder, AllLoads, Gather, Averaged;
    JustInv(cfg, st);
    var s0, dev0 := FoundStats(cfg, false, st, ObjCpu, deviation);
    MigrateAllTallies(cfg, false, st, s0, cfg.cpus, dev0, s);
    GatherTotals(st.objs, cfg.cpus, NoStats);
    AveragedIs(Gather(st.objs, cfg.cpus, NoStats), |cfg.cpus|);
  }

  lemma {:induction false} SavingCounted(objs: map<TopoObj, ObjState>, ds: seq<TopoObj>)
    ensures CountSaving(objs, ds) == 0 <==> forall d | d in ds && d in objs :: !objs[d].powersave
  {
    if ds != [] {
      SavingCounted(objs, ds[1..]);
    }
  }

  lemma NoSavers(cfg: Config, st: State)
    requires Inv(cfg, st) && CountSaving(st.objs, cfg.cpus) == 0
    ensures Savers(st) == {}
  {
    hide Ready, Owned, AllFitting, TreeOk;
    InvParts(cfg, st);
    SavingCounted(st.objs, cfg.cpus);
    CpusListed(cfg, st.objs.Keys);
  }

  lemma FoundStats(cfg: Config, sane: bool, st: State, kind: Kind, deviation: real) returns (s: Stats, dev: real)
    requires Held(cfg, st, sane) && Ready(cfg, st)
    ensures forall d | d in Layer(cfg, kind) :: d in st.objs
    ensures LowLoads(st) ==> s.minLoad < LIMIT
    ensures FindFits(cfg, st, kind, deviation, true) <==> MigrateAllFits(cfg, st, s, Layer(cfg, kind), dev, true)
    ensures FindFits(cfg, st, kind, deviation, false) <==> MigrateAllFits(cfg, st, s, Layer(cfg, kind), dev, false)
    ensures FindOverloaded(cfg, st, kind, deviation) == MigrateAll(cfg, st, s, Layer(cfg, kind), dev)
    ensures s == Averaged(Gather(st.objs, Layer(cfg, kind), NoStats)) && dev == if s.sources == 1 then 0.0 else deviation
  {
    hide MigrateAll, MigrateAllFits, TreeOk, Inv;
    HeldParts(cfg, sane, st);
    LayerKnown(cfg, st.objs.Keys, kind);
    if LowLoads(st) {
      GatherBelow(st.objs, Layer(cfg, kind), NoStats, LIMIT);
    }
    s := Averaged(Gather(st.objs, Layer(cfg, kind), NoStats));
    dev := if s.sources == 1 then 0.0 else deviation;
  }

  /** find_overloaded_objs keeps every invariant, takes only movable IRQs off, and empties no object. */
  lemma FindOverloadedEases(cfg: Config, sane: bool, st: State, kind: Kind, deviation: real, st2: State)
    requires Held(cfg, st, sane) && Ready(cfg, st) && st2 == FindOverloaded(cfg, st, kind, deviation).0
    ensures Held(cfg, st2, sane) && Eased(st, st2)
  {
    hide *;
    var s, dev := FoundStats(cfg, sane, st, kind, deviation);
    MigrateAllEases(cfg, sane, st, s, Layer(cfg, kind), dev, st2);
  }

  // ---- power saving ----

  lemma ReleaseCommutes(cfg: Config, st: State, o: TopoObj, q: IrqInfo, on: bool)
    requires Ready(cfg, st) && o in st.objs && q in st.irqs
    ensures Release(SetPowersave(cfg, st, o, on), o, q) == SetPower(Release(st, o, q), o, on)
  {
    hide Ready;
    assert Release(SetPowersave(cfg, st, o, on), o, q).objs == SetPower(Release(st, o, q), o, on).objs;
  }

  ghost function SetPower(st: State, o: TopoObj, on: bool): State {
    if o in st.objs then st.(objs := st.objs[o := st.objs[o].(powersave := on)]) else st
  }

  /** Forcing IRQs off o does not look at power saving. */
  lemma {:induction false} ForceCommutes(cfg: Config, st: State, o: TopoObj, qs: seq<IrqInfo>, on: bool)
    requires Ready(cfg, st) && o in st.objs && (forall q | q in qs :: q in st.irqs) && OnObject(st, o, qs)
    ensures ForceAllOff(cfg, SetPowersave(cfg, st, o, on), qs) == SetPower(ForceAllOff(cfg, st, qs), o, on)
    decreases |qs|
  {
    hide Ready, Release;
    if qs != [] {
      ReleaseCommutes(cfg, st, o, qs[0], on);
      ReleaseReady(cfg, st, o, qs[0]);
      ReleaseOwners(st, o, qs[0]);
      var st1 := ForceOff(cfg, st, qs[0]);
      assert ForceOff(cfg, SetPowersave(cfg, st, o, on), qs[0]) == SetPowersave(cfg, st1, o, on);
      OffOthers(st, st1, o, qs);
      ForceCommutes(cfg, st1, o, qs[1..], on);
    }
  }

  lemma ReleaseOwners(st: State, o: TopoObj, q: IrqInfo)
    requires o in st.objs && q in st.irqs
    ensures Release(st, o, q).irqs.Keys == st.irqs.Keys
    ensures forall x | x in st.irqs && x != q :: Release(st, o, q).irqs[x] == st.irqs[x]
  {
  }

  lemma OffOthers(st: State, st1: State, o: TopoObj, qs: seq<IrqInfo>)
    requires qs != [] && OnObject(st, o, qs) && st1.irqs.Keys == st.irqs.Keys
    requires forall x | x in st.irqs && x != qs[0] :: st1.irqs[x] == st.irqs[x]
    ensures OnObject(st1, o, qs[1..])
  {
    forall i | 0 <= i < |qs[1..]|
      ensures st1.irqs[qs[1..][i]] == st.irqs[qs[i + 1]]
    {
      assert qs[0] != qs[i + 1];
    }
  }

  /** All IRQs of o are off; everything else is as before. */
  ghost predicate Emptied(st: State, st': State, o: TopoObj, qs: seq<IrqInfo>) {
    && o in st.objs && SameLoads(st, st')
    && (forall x | x in st.irqs :: st'.irqs[x] == if x in qs then st.irqs[x].(moved := true, owner := null) else st.irqs[x])
    && (forall p | p in st.objs && p != o :: st'.objs[p].interrupts == st.objs[p].interrupts)
  }

  lemma ForceOne(cfg: Config, sane: bool, st: State, o: TopoObj, q: IrqInfo, st1: State)
    requires Held(cfg, st, sane) && Ready(cfg, st) && o in st.objs && q in st.irqs && st.irqs[q].owner == o && st1 == ForceOff(cfg, st, q)
    ensures Held(cfg, st1, sane) && Emptied(st, st1, o, [q])
  {
    hide Held, Ready, MovedTo, Owned, Release, TreeOk, OwnedIrq, Known, IrqsOk, ListOk, Inv, FullBudget, DrainSafe, AllFitting, PowerOk, SameLoads;
    HeldParts(cfg, sane, st);
    OwnerList(st, o, q);
    ReleaseMoves(st, o, q);
    ReleaseReady(cfg, st, o, q);
    OffKeepsHeld(cfg, sane, st, st1, o, q);
    OffFrame(st, st1, o, q);
    assert q in [q];
  }

  lemma EmptiedBoth(st: State, st1: State, st2: State, o: TopoObj, q: IrqInfo, rest: seq<IrqInfo>)
    requires Emptied(st, st1, o, [q]) && Emptied(st1, st2, o, rest)
    ensures Emptied(st, st2, o, [q] + rest)
  {
    assert q in [q];
  }

  lemma EmptiedRest(st: State, st1: State, o: TopoObj, qs: seq<IrqInfo>)
    requires qs != [] && OnObject(st, o, qs) && Emptied(st, st1, o, [qs[0]])
    ensures OnObject(st1, o, qs[1..]) && o in st1.objs
  {
    assert qs[0] in [qs[0]];
    assert forall x | x in st.irqs && x != qs[0] :: x !in [qs[0]];
    OffOthers(st, st1, o, qs);
  }

  lemma ForceOffStep(cfg: Config, st: State, qs: seq<IrqInfo>)
    requires Ready(cfg, st) && qs != [] && forall q | q in qs :: q in st.irqs
    ensures ForceAllOff(cfg, st, qs) == ForceAllOff(cfg, ForceOff(cfg, st, qs[0]), qs[1..])
  {
  }

  lemma ForceOffNone(cfg: Config, st: State, o: TopoObj)
    requires Ready(cfg, st) && o in st.objs
    ensures ForceAllOff(cfg, st, []) == st && Emptied(st, st, o, [])
  {
  }

  lemma {:induction false} ForceAllDoes(cfg: Config, sane: bool, st: State, o: TopoObj, qs: seq<IrqInfo>, st2: State)
    requires Held(cfg, st, sane) && Ready(cfg, st) && o in st.objs && OnObject(st, o, qs)
    requires (forall q | q in qs :: q in st.irqs) && st2 == ForceAllOff(cfg, st, qs)
    ensures Held(cfg, st2, sane) && Emptied(st, st2, o, qs)
    decreases |qs|
  {
    hide *;
    if qs == [] {
      ForceOffNone(cfg, st, o);
      return;
    }
    var st1 := ForceOff(cfg, st, qs[0]);
    OnObjectFirst(st, o, qs);
    ForceOffStep(cfg, st, qs);
    ForceOne(cfg, sane, st, o, qs[0], st1);
    EmptiedRest(st, st1, o, qs);
    OnObjectKnown(st1, o, qs[1..]);
    HeldParts(cfg, sane, st1);
    ForceAllDoes(cfg, sane, st1, o, qs[1..], st2);
    EmptiedBoth(st, st1, st2, o, qs[0], qs[1..]);
    assert [qs[0]] + qs[1..] == qs;
  }

  lemma NowEmpty(cfg: Config, st: State, st2: State, o: TopoObj)
    requires Owned(st) && Owned(st2) && o in st.objs && Emptied(st, st2, o, st.objs[o].interrupts)
    requires forall q | q in st.irqs :: q in st.objs[o].interrupts <==> st.irqs[q].owner == o
    ensures st2.objs[o].interrupts == []
  {
    OwnedLists(st2);
    NoneInEmpty(st2.objs[o].interrupts);
    forall q | q in st2.irqs
      ensures q !in st2.objs[o].interrupts
    {
      assert OwnedIrq(st2, q);
    }
  }

  /** Only the powersave mode of CPUs without interrupts may be switched. */
  lemma PowerKeepsHeld(cfg: Config, sane: bool, st: State, o: TopoObj, on: bool)
    requires Held(cfg, st, sane) && o in st.objs && (on ==> o.kind == ObjCpu && st.objs[o].interrupts == [])
    ensures Held(cfg, SetPower(st, o, on), sane)
  {
    hide *;
    HeldParts(cfg, sane, st);
    var st1 := SetPower(st, o, on);
    SetPowerIs(st, o, on, st1);
    RecordKnown(st, st1);
    ReadyAgain(cfg, st, st1);
    OwnedAgain(st, st1);
    SameFitting(st, st1);
    if sane {
      SafeAgain(st, st1);
    }
    MakeHeld(cfg, sane, st1);
  }

  lemma SetPowerIs(st: State, o: TopoObj, on: bool, st1: State)
    requires o in st.objs && st1 == SetPower(st, o, on)
    ensures st1.irqs == st.irqs && st1.rebalance == st.rebalance && st1.objs.Keys == st.objs.Keys
    ensures forall p | p in st.objs :: st1.objs[p].interrupts == st.objs[p].interrupts && st1.objs[p].load == st.objs[p].load
    ensures PowerOk(st) && (on ==> o.kind == ObjCpu && st.objs[o].interrupts == []) ==> PowerOk(st1)
  {
  }

  lemma SafeAgain(st: State, st1: State)
    requires DrainSafe(st) && st1.irqs == st.irqs && st1.objs.Keys == st.objs.Keys
    requires forall p | p in st.objs :: st1.objs[p].interrupts == st.objs[p].interrupts && st1.objs[p].load == st.objs[p].load
    ensures DrainSafe(st1)
  {
  }

  lemma ReadyAgain(cfg: Config, st: State, st1: State)
    requires Ready(cfg, st) && Known(st1) && st1.objs.Keys == st.objs.Keys && st1.irqs.Keys == st.irqs.Keys
    ensures Ready(cfg, st1)
  {
  }

  lemma OwnedAgain(st: State, st1: State)
    requires Owned(st) && st1.irqs == st.irqs && st1.rebalance == st.rebalance && st1.objs.Keys == st.objs.Keys
    requires forall o | o in st.objs :: st1.objs[o].interrupts == st.objs[o].interrupts
    ensures Owned(st1)
  {
    assert ListOk(st, st.rebalance);
    forall o | o in st1.objs
      ensures ListOk(st1, st1.objs[o].interrupts)
    {
      assert ListOk(st, st.objs[o].interrupts);
    }
    forall q | q in st1.irqs
      ensures OwnedIrq(st1, q)
    {
      assert OwnedIrq(st, q);
    }
  }

  /** The outcome of update_migration_status, apart from loads: IRQs only leave
      objects; an IRQ that is not movable leaves only a CPU that enters power saving;
      only that CPU is emptied. */
  ghost predicate Relieved(st: State, st': State, entered: set<TopoObj>)
  {
    && st'.objs.Keys == st.objs.Keys && st'.irqs.Keys == st.irqs.Keys
    && (forall o | o in st.objs :: st'.objs[o].load == st.objs[o].load && st'.objs[o].irqCount == st.objs[o].irqCount)
    && (forall q | q in st.irqs ::
          || st'.irqs[q] == st.irqs[q]
          || (&& st.irqs[q].owner != null && (MayLeave(q, st.irqs[q].load) || st.irqs[q].owner in entered)
              && st'.irqs[q] == st.irqs[q].(moved := true, owner := null)))
    && (forall o | o in st.objs && o !in entered && st.objs[o].interrupts != [] :: st'.objs[o].interrupts != [])
  }

  /** Powersave modes change only by `entered` entering, or by all CPUs leaving. */
  ghost predicate PowerStep(cfg: Config, st: State, st': State, entered: set<TopoObj>)
    requires st'.objs.Keys == st.objs.Keys
  {
    || (forall o | o in st.objs :: st'.objs[o].powersave <==> st.objs[o].powersave || o in entered)
    || (entered == {} && forall o | o in st.objs :: !st'.objs[o].powersave)
  }

  lemma EnterDoes(cfg: Config, sane: bool, st: State, o: TopoObj, st2: State)
    requires Held(cfg, st, sane) && Ready(cfg, st) && o in st.objs && o.kind == ObjCpu && st2 == EnterPowersave(cfg, st, o)
    ensures Held(cfg, st2, sane) && Relieved(st, st2, {o}) && PowerStep(cfg, st, st2, {o}) && st2.objs[o].interrupts == []
    ensures Savers(st2) == Savers(st) + {o}
  {
    hide *;
    HeldParts(cfg, sane, st);
    ListIsOnObject(cfg, st, o);
    OnObjectKnown(st, o, st.objs[o].interrupts);
    var qs := st.objs[o].interrupts;
    EnterIs(cfg, st, o, qs);
    ForceCommutes(cfg, st, o, qs, true);
    var st1 := ForceAllOff(cfg, st, qs);
    ForceAllDoes(cfg, sane, st, o, qs, st1);
    HeldParts(cfg, sane, st1);
    NowEmpty(cfg, st, st1, o);
    EmptiedKeys(st, st1, o, qs);
    PowerKeepsHeld(cfg, sane, st1, o, true);
    EnterRelieves(cfg, st, st1, o, st2);
  }

  lemma EnterIs(cfg: Config, st: State, o: TopoObj, qs: seq<IrqInfo>)
    requires Ready(cfg, st) && o in st.objs && qs == st.objs[o].interrupts
    ensures forall q | q in qs :: q in SetPowersave(cfg, st, o, true).irqs
    ensures EnterPowersave(cfg, st, o) == ForceAllOff(cfg, SetPowersave(cfg, st, o, true), qs)
  {
    hide ForceAllOff;
  }

  lemma EmptiedKeys(st: State, st1: State, o: TopoObj, qs: seq<IrqInfo>)
    requires Emptied(st, st1, o, qs)
    ensures st1.objs.Keys == st.objs.Keys && st1.irqs.Keys == st.irqs.Keys && o in st1.objs
  {
  }

  lemma EnterRelieves(cfg: Config, st: State, st1: State, o: TopoObj, st2: State)
    requires o in st.objs && Emptied(st, st1, o, st.objs[o].interrupts) && st2 == SetPower(st1, o, true)
    requires forall q | q in st.irqs :: q in st.objs[o].interrupts <==> st.irqs[q].owner == o
    requires st1.objs[o].interrupts == []
    ensures Relieved(st, st2, {o}) && PowerStep(cfg, st, st2, {o}) && st2.objs[o].interrupts == []
    ensures Savers(st2) == Savers(st) + {o}
  {
    hide MayLeave;
  }

  lemma {:induction false} ClearDoes(cfg: Config, sane: bool, st: State, ds: seq<TopoObj>, st2: State)
    requires Held(cfg, st, sane) && Ready(cfg, st) && (forall d | d in ds :: d in st.objs) && st2 == ClearPowersave(cfg, st, ds)
    ensures Held(cfg, st2, sane) && st2.irqs == st.irqs && st2.rebalance == st.rebalance && st2.objs.Keys == st.objs.Keys
    ensures forall o | o in st.objs :: st2.objs[o] == if o in ds then st.objs[o].(powersave := false) else st.objs[o]
    decreases |ds|
  {
    hide Held, Ready;
    if ds != [] {
      PowerKeepsHeld(cfg, sane, st, ds[0], false);
      var st1 := SetPowersave(cfg, st, ds[0], false);
      ClearDoes(cfg, sane, st1, ds[1..], st2);
    }
  }

  lemma ClearRelieves(cfg: Config, st: State, st2: State, ds: seq<TopoObj>)
    requires PowerOk(st) && (forall o | o in st.objs && o.kind == ObjCpu :: o in ds)
    requires st2.irqs == st.irqs && st2.objs.Keys == st.objs.Keys
    requires forall o | o in st.objs :: st2.objs[o] == if o in ds then st.objs[o].(powersave := false) else st.objs[o]
    ensures Relieved(st, st2, {}) && PowerStep(cfg, st, st2, {}) && Savers(st2) == {}
  {
  }

  lemma CpusListed(cfg: Config, objs: set<TopoObj>)
    requires TreeOk(cfg, objs)
    ensures forall o | o in objs && o.kind == ObjCpu :: o in Layer(cfg, ObjCpu)
  {
    forall o | o in objs && o.kind == ObjCpu
      ensures o in Layer(cfg, ObjCpu)
    {
      assert o in Layer(cfg, o.kind);
    }
  }

  lemma NoAdjust(cfg: Config, st: State)
    ensures Relieved(st, st, {}) && PowerStep(cfg, st, st, {})
  {
  }

  lemma ClearAllDoes(cfg: Config, sane: bool, st: State, st2: State)
    requires Held(cfg, st, sane) && Ready(cfg, st) && (forall d | d in Layer(cfg, ObjCpu) :: d in st.objs)
    requires st2 == ClearPowersave(cfg, st, Layer(cfg, ObjCpu))
    ensures Held(cfg, st2, sane) && Relieved(st, st2, {}) && PowerStep(cfg, st, st2, {}) && Savers(st2) == {}
  {
    hide *;
    HeldParts(cfg, sane, st);
    ClearDoes(cfg, sane, st, Layer(cfg, ObjCpu), st2);
    CpusListed(cfg, st.objs.Keys);
    ClearRelieves(cfg, st, st2, Layer(cfg, ObjCpu));
  }

  /** The savers that the statistics of the CPUs decide on. */
  ghost function SaversBy(cfg: Config, st: State, s: Stats, cycleCount: nat): set<TopoObj> {
    if cfg.powerThresh == ULLONG_MAX || cycleCount <= 5 then Savers(st)
    else if s.numOver == 0 && s.numUnder >= cfg.powerThresh && s.powersave != null then Savers(st) + {s.powersave}
    else if s.numOver != 0 && s.numPowersave != 0 then {}
    else Savers(st)
  }

  /** The power decision: at most one CPU enters, and it ends up without IRQs. */
  lemma AdjustDoes(cfg: Config, sane: bool, st: State, s: Stats, cycleCount: nat, st2: State) returns (entered: set<TopoObj>)
    requires Held(cfg, st, sane) && Ready(cfg, st)
    requires s.powersave != null ==> s.powersave in Layer(cfg, ObjCpu) && s.powersave in st.objs
    requires st2 == AdjustPower(cfg, st, s, cycleCount)
    ensures Held(cfg, st2, sane) && Relieved(st, st2, entered) && PowerStep(cfg, st, st2, entered)
    ensures |entered| <= 1 && forall o | o in entered :: o in Layer(cfg, ObjCpu)
    ensures if s.numOver == 0 && s.numUnder >= cfg.powerThresh != ULLONG_MAX && cycleCount > 5 && s.powersave != null
            then entered == {s.powersave} else entered == {}
    ensures Savers(st2) == SaversBy(cfg, st, s, cycleCount)
  {
    hide Savers, Held, Ready, Relieved, PowerStep, EnterPowersave, ClearPowersave, TreeOk, IrqsOk, Owned, Known, AllFitting, PowerOk, DrainSafe, FullBudget, Inv;
    HeldParts(cfg, sane, st);
    LayerKnown(cfg, st.objs.Keys, ObjCpu);
    entered := {};
    if cfg.powerThresh == ULLONG_MAX || cycleCount <= 5 {
      NoAdjust(cfg, st);
    } else if s.numOver == 0 && s.numUnder >= cfg.powerThresh && s.powersave != null {
      entered := {s.powersave};
      EnterDoes(cfg, sane, st, s.powersave, st2);
    } else if s.numOver != 0 && s.numPowersave != 0 {
      ClearAllDoes(cfg, sane, st, st2);
    } else {
      NoAdjust(cfg, st);
    }
  }

  lemma EasedThenRelieved(cfg: Config, st: State, st1: State, st2: State, entered: set<TopoObj>)
    requires Eased(st, st1) && Relieved(st1, st2, entered) && PowerStep(cfg, st1, st2, entered)
    ensures Relieved(st, st2, entered) && PowerStep(cfg, st, st2, entered)
  {
    hide MayLeave;
  }

  lemma RelievedThenEased(cfg: Config, st: State, st1: State, st2: State, entered: set<TopoObj>)
    requires Relieved(st, st1, entered) && PowerStep(cfg, st, st1, entered) && Eased(st1, st2)
    ensures Relieved(st, st2, entered) && PowerStep(cfg, st, st2, entered)
  {
    hide MayLeave;
  }

  lemma RelievedKeys(st: State, st': State, entered: set<TopoObj>)
    requires Relieved(st, st', entered)
    ensures st'.objs.Keys == st.objs.Keys && st'.irqs.Keys == st.irqs.Keys
  {
  }

  lemma EasedKeys(st: State, st': State)
    requires Eased(st, st')
    ensures st'.objs.Keys == st.objs.Keys && st'.irqs.Keys == st.irqs.Keys
  {
  }

  lemma UpdateSteps(cfg: Config, st: State, cycleCount: nat, dev: Deviations)
    returns (st1: State, s: Stats, st2: State, st3: State, st4: State)
    requires Ready(cfg, st)
    ensures (st1, s) == FindOverloaded(cfg, st, ObjCpu, dev.cpus) && Ready(cfg, st1)
    ensures s.powersave != null ==> s.powersave in Layer(cfg, ObjCpu) && s.powersave in st1.objs
    ensures st2 == AdjustPower(cfg, st1, s, cycleCount) && Ready(cfg, st2)
    ensures st3 == FindOverloaded(cfg, st2, ObjCache, dev.caches).0 && Ready(cfg, st3)
    ensures st4 == FindOverloaded(cfg, st3, ObjPackage, dev.packages).0 && Ready(cfg, st4)
    ensures UpdateMigration(cfg, st, cycleCount, dev) == FindOverloaded(cfg, st4, ObjNode, dev.nodes).0
  {
    hide FindOverloaded, AdjustPower, TreeOk;
    st1, s := FindOverloaded(cfg, st, ObjCpu, dev.cpus).0, FindOverloaded(cfg, st, ObjCpu, dev.cpus).1;
    LayerKnown(cfg, st.objs.Keys, ObjCpu);
    FoundInLayer(cfg, st, ObjCpu, dev.cpus);
    st2 := AdjustPower(cfg, st1, s, cycleCount);
    st3 := FindOverloaded(cfg, st2, ObjCache, dev.caches).0;
    st4 := FindOverloaded(cfg, st3, ObjPackage, dev.packages).0;
  }

  /** update_migration_status keeps every invariant.  IRQs only leave objects:
      one that is EXACT-hinted, unbalanced or has a load of at most 1 leaves only the
      one CPU that may enter power saving, and no other object is emptied. */
  lemma UpdateMigrationDoes(cfg: Config, sane: bool, st: State, cycleCount: nat, dev: Deviations, st': State) returns (entered: set<TopoObj>)
    requires Held(cfg, st, sane) && Ready(cfg, st) && st' == UpdateMigration(cfg, st, cycleCount, dev)
    ensures Held(cfg, st', sane) && Relieved(st, st', entered) && PowerStep(cfg, st, st', entered)
    ensures |entered| <= 1 && forall o | o in entered :: o in Layer(cfg, ObjCpu)
  {
    hide *;
    var st1, s, st2, st3, st4 := UpdateSteps(cfg, st, cycleCount, dev);
    FindOverloadedEases(cfg, sane, st, ObjCpu, dev.cpus, st1);
    entered := AdjustDoes(cfg, sane, st1, s, cycleCount, st2);
    FindOverloadedEases(cfg, sane, st2, ObjCache, dev.caches, st3);
    FindOverloadedEases(cfg, sane, st3, ObjPackage, dev.packages, st4);
    FindOverloadedEases(cfg, sane, st4, ObjNode, dev.nodes, st');
    EasedKeys(st, st1);
    RelievedKeys(st1, st2, entered);
    EasedThenRelieved(cfg, st, st1, st2, entered);
    EasedBoth(st2, st3, st4);
    EasedBoth(st2, st4, st');
    EasedKeys(st2, st');
    RelievedThenEased(cfg, st, st2, st', entered);
  }

  lemma EasedSavers(st: State, st': State)
    requires Eased(st, st')
    ensures Savers(st') == Savers(st)
  {
  }

  lemma SaversDecided(cfg: Config, st: State, st1: State, s: Stats, cycleCount: nat, deviation: real)
    requires Inv(cfg, st) && Ready(cfg, st) && Savers(st1) == Savers(st) && s == FindOverloaded(cfg, st, ObjCpu, deviation).1
    ensures forall d | d in cfg.cpus :: d in st.objs
    ensures SaversBy(cfg, st1, s, cycleCount) == SaversAfter(cfg, st, cycleCount, deviation)
  {
    hide Inv, Ready, FindOverloaded, Average, DeviationUsed, Savers, CountUnder, CountOver, CountSaving, FirstUnder;
    PowerStats(cfg, st, deviation, s);
    if s.numPowersave == 0 {
      NoSavers(cfg, st);
    }
  }

  /** Who saves power after update_migration_status follows from the loads before it:
      nothing that is drained, on any layer, matters. */
  lemma UpdateDecides(cfg: Config, st: State, cycleCount: nat, dev: Deviations, st': State)
    requires Inv(cfg, st) && Ready(cfg, st) && st' == UpdateMigration(cfg, st, cycleCount, dev)
    ensures forall d | d in cfg.cpus :: d in st.objs
    ensures Savers(st') == SaversAfter(cfg, st, cycleCount, dev.cpus)
  {
    hide *;
    JustInv(cfg, st);
    var st1, s, st2, st3, st4 := UpdateSteps(cfg, st, cycleCount, dev);
    FindOverloadedEases(cfg, false, st, ObjCpu, dev.cpus, st1);
    var entered := AdjustDoes(cfg, false, st1, s, cycleCount, st2);
    FindOverloadedEases(cfg, false, st2, ObjCache, dev.caches, st3);
    FindOverloadedEases(cfg, false, st3, ObjPackage, dev.packages, st4);
    FindOverloadedEases(cfg, false, st4, ObjNode, dev.nodes, st');
    EasedSavers(st, st1);
    EasedSavers(st2, st3);
    EasedSavers(st3, st4);
    EasedSavers(st4, st');
    SaversDecided(cfg, st, st1, s, cycleCount, dev.cpus);
  }

  lemma EasedLowLoads(st: State, st': State)
    requires Eased(st, st') && LowLoads(st)
    ensures LowLoads(st')
  {
  }

  lemma RelievedLowLoads(st: State, st': State, entered: set<TopoObj>)
    requires Relieved(st, st', entered) && LowLoads(st)
    ensures LowLoads(st')
  {
    hide MayLeave;
  }

  lemma UpdateFitsIs(cfg: Config, st: State, cycleCount: nat, dev: Deviations, both: bool, st1: State, s: Stats, st2: State, st3: State, st4: State)
    requires Ready(cfg, st) && (st1, s) == FindOverloaded(cfg, st, ObjCpu, dev.cpus) && Ready(cfg, st1)
    requires s.powersave != null ==> s.powersave in st1.objs
    requires st2 == AdjustPower(cfg, st1, s, cycleCount) && Ready(cfg, st2)
    requires st3 == FindOverloaded(cfg, st2, ObjCache, dev.caches).0 && Ready(cfg, st3)
    requires st4 == FindOverloaded(cfg, st3, ObjPackage, dev.packages).0 && Ready(cfg, st4)
    requires FindFits(cfg, st, ObjCpu, dev.cpus, both) && FindFits(cfg, st2, ObjCache, dev.caches, both)
    requires FindFits(cfg, st3, ObjPackage, dev.packages, both) && FindFits(cfg, st4, ObjNode, dev.nodes, both)
    ensures UpdateFits(cfg, st, cycleCount, dev, both)
  {
    hide Ready, FindOverloaded, AdjustPower, FindFits;
  }

  /** On all four layers no subtraction of update_migration_status wraps, whatever the
      loads; when all are in the lower half of the range, no addition does either. */
  lemma UpdateExact(cfg: Config, both: bool, st: State, cycleCount: nat, dev: Deviations)
    requires Inv(cfg, st) && DrainSafe(st) && Ready(cfg, st) && (both ==> LowLoads(st))
    ensures UpdateFits(cfg, st, cycleCount, dev, both)
  {
    hide *;
    SafeIsHeld(cfg, st);
    var st1, s, st2, st3, st4 := UpdateSteps(cfg, st, cycleCount, dev);
    FindOverloadedEases(cfg, true, st, ObjCpu, dev.cpus, st1);
    var entered := AdjustDoes(cfg, true, st1, s, cycleCount, st2);
    FindOverloadedEases(cfg, true, st2, ObjCache, dev.caches, st3);
    FindOverloadedEases(cfg, true, st3, ObjPackage, dev.packages, st4);
    if both {
      EasedLowLoads(st, st1);
      RelievedLowLoads(st1, st2, entered);
      EasedLowLoads(st2, st3);
      EasedLowLoads(st3, st4);
    }
    FindExact(cfg, both, st, ObjCpu, dev.cpus);
    FindExact(cfg, both, st2, ObjCache, dev.caches);
    FindExact(cfg, both, st3, ObjPackage, dev.packages);
    FindExact(cfg, both, st4, ObjNode, dev.nodes);
    UpdateFitsIs(cfg, st, cycleCount, dev, both, st1, s, st2, st3, st4);
  }

  lemma SafeIsHeld(cfg: Config, st: State)
    requires Inv(cfg, st) && DrainSafe(st)
    ensures Held(cfg, st, true)
  {
    hide Inv, DrainSafe;
  }

  // ---- what a drained layer comes to ----

  /** Object d of a layer, of which the IRQs `out` were taken off, heaviest first, when the
      minimum stood at `least`: none, unless d's load is above that and d has more than one IRQ;
      and then so much that d's load less what left is still above the minimum and what left,
      and that no IRQ could follow without reversing that. */
  ghost predicate ObjectEased(st: State, st': State, d: TopoObj, out: seq<IrqInfo>, least: nat) {
    && d in st.objs && d in st'.objs && st'.irqs.Keys == st.irqs.Keys
    && NoDup(out) && (forall i | 0 <= i < |out| :: out[i] in st.irqs) && HeaviestFirst(st.irqs, out)
    && (forall i | 0 <= i < |out| :: st.irqs[out[i]].owner == d && MayLeave(out[i], st.irqs[out[i]].load))
    && (forall q | q in st.irqs && st.irqs[q].owner == d ::
          st'.irqs[q] == if q in out then st.irqs[q].(moved := true, owner := null) else st.irqs[q])
    && var gone := Total(st.irqs, out);
       if st.objs[d].load <= least || |st.objs[d].interrupts| <= 1 then out == []
       else
         && st.objs[d].load - gone > least + gone
         && forall q | q in st.irqs && st'.irqs[q].owner == d ::
              || !MayLeave(q, st.irqs[q].load) || |st'.objs[d].interrupts| <= 1
              || st.objs[d].load - gone - st.irqs[q].load <= least + gone + st.irqs[q].load
  }

  /** The objects of a layer, drained one after the other, the minimum growing by what left. */
  ghost predicate ObjectsEased(st: State, st': State, ds: seq<TopoObj>, outs: seq<seq<IrqInfo>>, least: nat) {
    && |outs| == |ds|
    && (ds != [] ==>
          && ObjectEased(st, st', ds[0], outs[0], least)
          && ObjectsEased(st, st', ds[1..], outs[1..], least + Total(st.irqs, outs[0])))
  }

  /** Nothing else changed. */
  ghost predicate Untouched(st: State, st': State, ds: seq<TopoObj>) {
    && SameLoads(st, st')
    && (forall q | q in st.irqs && st.irqs[q].owner !in ds :: st'.irqs[q] == st.irqs[q])
    && (forall q | q in st.irqs :: st'.irqs[q].owner == st.irqs[q].owner || st'.irqs[q].owner == null)
    && (forall p | p in st.objs && p !in ds :: st'.objs[p].interrupts == st.objs[p].interrupts)
  }

  lemma NothingEased(st: State, least: nat)
    ensures ObjectsEased(st, st, [], [], least) && Untouched(st, st, [])
  {
  }

  lemma FirstUntouched(st: State, st1: State, st2: State, d: TopoObj, rest: seq<TopoObj>, out: seq<IrqInfo>)
    requires Drained(st, st1, d, out) && Untouched(st1, st2, rest) && d !in rest
    ensures Untouched(st, st2, [d] + rest)
  {
    hide MayLeave;
    assert forall o: TopoObj? :: o in [d] + rest <==> o == d || o in rest;
  }

  lemma FirstEased(st: State, s: Stats, st1: State, s1: Stats, st2: State, d: TopoObj, rest: seq<TopoObj>, out: seq<IrqInfo>)
    requires d in st.objs && (forall i | 0 <= i < |out| :: out[i] in st.irqs) && ObjectDrained(st, s, st1, s1, d, out, true)
    requires Untouched(st1, st2, rest) && d !in rest
    ensures ObjectEased(st, st2, d, out, s.minLoad) && s1.minLoad == s.minLoad + Total(st.irqs, out)
  {
    hide MayLeave, HeaviestFirst, Untouched, ObjectDrained, ObjectEased, Drained;
    FirstLeft(st, st1, st2, d, rest, out, s, s1);
    forall q | q in st.irqs && q in st2.irqs && st2.irqs[q].owner == d
      ensures q in st1.irqs && st1.irqs[q].owner == d
    {
      UntouchedKeys(st1, st2, rest);
      StaysAway(st1, st2, rest, q, d);
    }
    FirstKept(st, s, st1, s1, st2, d, out);
  }

  lemma UntouchedKeys(st: State, st': State, ds: seq<TopoObj>)
    requires Untouched(st, st', ds)
    ensures st'.irqs.Keys == st.irqs.Keys && st'.objs.Keys == st.objs.Keys
  {
  }

  lemma FirstLeft(st: State, st1: State, st2: State, d: TopoObj, rest: seq<TopoObj>, out: seq<IrqInfo>, s: Stats, s1: Stats)
    requires d in st.objs && (forall i | 0 <= i < |out| :: out[i] in st.irqs) && ObjectDrained(st, s, st1, s1, d, out, true)
    requires Untouched(st1, st2, rest) && d !in rest
    ensures st1.irqs.Keys == st.irqs.Keys == st2.irqs.Keys && d in st1.objs && d in st2.objs
    ensures st2.objs[d].interrupts == st1.objs[d].interrupts
    ensures forall q | q in st.irqs && st.irqs[q].owner == d ::
      st2.irqs[q] == if q in out then st.irqs[q].(moved := true, owner := null) else st.irqs[q]
  {
    hide MayLeave, HeaviestFirst, Kept;
    forall q | q in st.irqs && st.irqs[q].owner == d
      ensures st2.irqs[q] == if q in out then st.irqs[q].(moved := true, owner := null) else st.irqs[q]
    {
      assert st1.irqs[q].owner !in rest;
    }
  }

  lemma FirstKept(st: State, s: Stats, st1: State, s1: Stats, st2: State, d: TopoObj, out: seq<IrqInfo>)
    requires d in st.objs && (forall i | 0 <= i < |out| :: out[i] in st.irqs) && ObjectDrained(st, s, st1, s1, d, out, true)
    requires st1.irqs.Keys == st.irqs.Keys == st2.irqs.Keys && d in st1.objs && d in st2.objs
    requires st2.objs[d].interrupts == st1.objs[d].interrupts
    requires forall q | q in st.irqs && st.irqs[q].owner == d ::
      st2.irqs[q] == if q in out then st.irqs[q].(moved := true, owner := null) else st.irqs[q]
    requires forall q | q in st.irqs && q in st2.irqs && st2.irqs[q].owner == d :: q in st1.irqs && st1.irqs[q].owner == d
    ensures ObjectEased(st, st2, d, out, s.minLoad) && s1.minLoad == s.minLoad + Total(st.irqs, out)
  {
    hide MayLeave, HeaviestFirst;
  }

  lemma StaysAway(st1: State, st2: State, rest: seq<TopoObj>, q: IrqInfo, d: TopoObj)
    requires Untouched(st1, st2, rest) && q in st1.irqs && q in st2.irqs && st2.irqs[q].owner == d
    ensures st1.irqs[q].owner == d
  {
  }

  lemma RestEased(st: State, st1: State, st2: State, d: TopoObj, out: seq<IrqInfo>, e: TopoObj, out': seq<IrqInfo>, least: nat)
    requires Drained(st, st1, d, out) && e != d && ObjectEased(st1, st2, e, out', least)
    ensures ObjectEased(st, st2, e, out', least) && Total(st.irqs, out') == Total(st1.irqs, out')
  {
    hide MayLeave, HeaviestFirst;
    DrainedLoads(st, st1, d, out);
    TotalSame(st.irqs, st1.irqs, out');
    StillHeaviestFirst(st1.irqs, st.irqs, out');
    forall q | q in st.irqs && st.irqs[q].owner == e
      ensures st1.irqs[q] == st.irqs[q]
    {
      assert q !in out;
    }
    forall i | 0 <= i < |out'|
      ensures st.irqs[out'[i]].owner == e
    {
      assert st1.irqs[out'[i]].owner == e;
    }
  }

  lemma {:induction false} AllRestEased(st: State, st1: State, st2: State, d: TopoObj, out: seq<IrqInfo>,
                                        ds: seq<TopoObj>, outs: seq<seq<IrqInfo>>, least: nat)
    requires Drained(st, st1, d, out) && d !in ds && ObjectsEased(st1, st2, ds, outs, least)
    ensures ObjectsEased(st, st2, ds, outs, least)
    decreases |ds|
  {
    hide Drained, ObjectEased;
    if ds != [] {
      RestEased(st, st1, st2, d, out, ds[0], outs[0], least);
      EasedKnown(st1, st2, ds[0], outs[0], least);
      EasedKnown(st, st2, ds[0], outs[0], least);
      AllRestEased(st, st1, st2, d, out, ds[1..], outs[1..], least + Total(st1.irqs, outs[0]));
    }
  }

  lemma EasedKnown(st: State, st': State, d: TopoObj, out: seq<IrqInfo>, least: nat)
    requires ObjectEased(st, st', d, out, least)
    ensures forall i | 0 <= i < |out| :: out[i] in st.irqs
  {
  }

  lemma ObjectsFirst(st: State, st': State, d: TopoObj, rest: seq<TopoObj>, out: seq<IrqInfo>, outs: seq<seq<IrqInfo>>, least: nat)
    requires ObjectEased(st, st', d, out, least) && (forall i | 0 <= i < |out| :: out[i] in st.irqs)
    requires ObjectsEased(st, st', rest, outs, least + Total(st.irqs, out))
    ensures ObjectsEased(st, st', [d] + rest, [out] + outs, least)
  {
    hide ObjectEased;
    assert ([d] + rest)[1..] == rest && ([out] + outs)[1..] == outs;
  }

  lemma {:induction false} MigrateAllDrains(cfg: Config, st: State, s: Stats, ds: seq<TopoObj>, deviation: real, st2: State)
    returns (outs: seq<seq<IrqInfo>>)
    requires Held(cfg, st, true) && Ready(cfg, st) && NoDup(ds) && (forall d | d in ds :: d in st.objs)
    requires LowLoads(st) && s.minLoad < LIMIT && st2 == MigrateAll(cfg, st, s, ds, deviation).0
    ensures ObjectsEased(st, st2, ds, outs, s.minLoad) && Untouched(st, st2, ds)
    decreases |ds|
  {
    hide *;
    if ds == [] {
      MigrateNone(cfg, st, s, deviation);
      NothingEased(st, s.minLoad);
      outs := [];
      return;
    }
    var d, rest := ds[0], ds[1..];
    NoDupRest(ds);
    MigrateAllStep(cfg, st, s, ds, deviation);
    var s0 := MigrateIs(cfg, st, s, d, deviation);
    var (st1, s1) := MigrateOverloaded(cfg, st, s, d, deviation);
    LowLoadsSum(st, d, s.minLoad);
    var out := DrainObjectDoes(cfg, true, st, s0, d, st1, s1);
    ObjectDrainedParts(st, s0, st1, s1, d, out, true);
    DrainedKeys(st, st1, d, out);
    DrainedSameLoads(st, st1, d, out);
    StillLowLoads(st, st1);
    HeldParts(cfg, true, st1);
    var more := MigrateAllDrains(cfg, st1, s1, rest, deviation, st2);
    FirstUntouched(st, st1, st2, d, rest, out);
    FirstEased(st, s0, st1, s1, st2, d, rest, out);
    AllRestEased(st, st1, st2, d, out, rest, more, s1.minLoad);
    ObjectsFirst(st, st2, d, rest, out, more, s.minLoad);
    outs := [out] + more;
    assert [d] + rest == ds;
  }

  lemma NoDupRest(ds: seq<TopoObj>)
    requires NoDup(ds) && ds != []
    ensures NoDup(ds[1..]) && ds[0] !in ds[1..]
  {
  }

  /** The least load of a layer, as gather_load_stats finds it. */
  ghost function LayerMin(cfg: Config, st: State, kind: Kind): nat
    requires forall d | d in Layer(cfg, kind) :: d in st.objs
  {
    Gather(st.objs, Layer(cfg, kind), NoStats).minLoad
  }

  /** A layer was drained, from its least load on; `outs` are the IRQs each object lost. */
  ghost predicate LayerEased(cfg: Config, st: State, st': State, kind: Kind, outs: seq<seq<IrqInfo>>) {
    && (forall d | d in Layer(cfg, kind) :: d in st.objs)
    && Untouched(st, st', Layer(cfg, kind))
    && ObjectsEased(st, st', Layer(cfg, kind), outs, LayerMin(cfg, st, kind))
  }

  lemma AveragedMin(cfg: Config, st: State, kind: Kind)
    requires forall d | d in Layer(cfg, kind) :: d in st.objs
    ensures Averaged(Gather(st.objs, Layer(cfg, kind), NoStats)).minLoad == LayerMin(cfg, st, kind)
  {
    hide Gather;
  }

  /** find_overloaded_objs drains every object of its layer as far as that goes, and nothing else. */
  lemma FindDrains(cfg: Config, st: State, kind: Kind, deviation: real, st2: State) returns (outs: seq<seq<IrqInfo>>)
    requires Held(cfg, st, true) && Ready(cfg, st) && LowLoads(st) && st2 == FindOverloaded(cfg, st, kind, deviation).0
    ensures LayerEased(cfg, st, st2, kind, outs)
  {
    hide *;
    var s, dev := FoundStats(cfg, true, st, kind, deviation);
    AveragedMin(cfg, st, kind);
    HeldParts(cfg, true, st);
    LayerOnce(cfg, st.objs.Keys, kind);
    outs := MigrateAllDrains(cfg, st, s, Layer(cfg, kind), dev, st2);
    LayerFrom(cfg, st, st2, kind, outs);
  }

  lemma LayerOnce(cfg: Config, objs: set<TopoObj>, kind: Kind)
    requires TreeOk(cfg, objs)
    ensures NoDup(Layer(cfg, kind))
  {
  }

  lemma LayerFrom(cfg: Config, st: State, st': State, kind: Kind, outs: seq<seq<IrqInfo>>)
    requires forall d | d in Layer(cfg, kind) :: d in st.objs
    requires Untouched(st, st', Layer(cfg, kind)) && ObjectsEased(st, st', Layer(cfg, kind), outs, LayerMin(cfg, st, kind))
    ensures LayerEased(cfg, st, st', kind, outs)
  {
    hide ObjectsEased, Untouched;
  }

  /** update_migration_status drains the CPUs; adjusts power saving; and drains the caches, the
      packages and the nodes. */
  lemma UpdateDrains(cfg: Config, st: State, cycleCount: nat, dev: Deviations, st': State)
    returns (st1: State, st2: State, st3: State, st4: State, entered: set<TopoObj>, outs: seq<seq<seq<IrqInfo>>>)
    requires Inv(cfg, st) && DrainSafe(st) && Ready(cfg, st) && LowLoads(st) && st' == UpdateMigration(cfg, st, cycleCount, dev)
    ensures |outs| == 4 && LayerEased(cfg, st, st1, ObjCpu, outs[0])
    ensures Relieved(st1, st2, entered) && PowerStep(cfg, st1, st2, entered) && |entered| <= 1
    ensures LayerEased(cfg, st2, st3, ObjCache, outs[1]) && LayerEased(cfg, st3, st4, ObjPackage, outs[2])
    ensures LayerEased(cfg, st4, st', ObjNode, outs[3])
  {
    hide *;
    SafeIsHeld(cfg, st);
    var s;
    st1, s, st2, st3, st4 := UpdateSteps(cfg, st, cycleCount, dev);
    FindOverloadedEases(cfg, true, st, ObjCpu, dev.cpus, st1);
    entered := AdjustDoes(cfg, true, st1, s, cycleCount, st2);
    FindOverloadedEases(cfg, true, st2, ObjCache, dev.caches, st3);
    FindOverloadedEases(cfg, true, st3, ObjPackage, dev.packages, st4);
    EasedLowLoads(st, st1);
    RelievedLowLoads(st1, st2, entered);
    EasedLowLoads(st2, st3);
    EasedLowLoads(st3, st4);
    var outs1 := FindDrains(cfg, st, ObjCpu, dev.cpus, st1);
    var outs2 := FindDrains(cfg, st2, ObjCache, dev.caches, st3);
    var outs3 := FindDrains(cfg, st3, ObjPackage, dev.packages, st4);
    var outs4 := FindDrains(cfg, st4, ObjNode, dev.nodes, st');
    outs := [outs1, outs2, outs3, outs4];
  }
}
