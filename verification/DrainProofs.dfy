/** What draining keeps, that none of its subtractions wraps and when its additions
    do not, and that it stops just short of reversing an imbalance. */
module DrainProofs {
  import opened MergeSort
  import opened Irqs
  import opened Ownership
  import opened Tree
  import opened PlacementProofs
  import opened PlacementLoads
  import opened Drain

  // ---- sums over lists of IRQs ----

  /** The loads that count for draining: those above 1. */
  ghost function Heavy(irqs: map<IrqInfo, IrqState>, qs: seq<IrqInfo>): nat
    requires forall i | 0 <= i < |qs| :: qs[i] in irqs
  {
    if qs == [] then 0 else (if irqs[qs[0]].load > 1 then irqs[qs[0]].load else 0) + Heavy(irqs, qs[1..])
  }

  ghost function Total(irqs: map<IrqInfo, IrqState>, qs: seq<IrqInfo>): nat
    requires forall i | 0 <= i < |qs| :: qs[i] in irqs
  {
    if qs == [] then 0 else irqs[qs[0]].load + Total(irqs, qs[1..])
  }

  /** All that placing every IRQ of qs could add to a load. */
  ghost function PlacementWeight(irqs: map<IrqInfo, IrqState>, qs: seq<IrqInfo>): nat
    requires forall i | 0 <= i < |qs| :: qs[i] in irqs
  {
    if qs == [] then 0 else irqs[qs[0]].load + 1 + PlacementWeight(irqs, qs[1..])
  }

  lemma {:induction false} HeavyWithout(irqs: map<IrqInfo, IrqState>, s: seq<IrqInfo>, j: nat)
    requires (forall i | 0 <= i < |s| :: s[i] in irqs) && j < |s|
    ensures forall i | 0 <= i < |RemoveAt(s, j)| :: RemoveAt(s, j)[i] in irqs
    ensures Heavy(irqs, s) == Heavy(irqs, RemoveAt(s, j)) + (if irqs[s[j]].load > 1 then irqs[s[j]].load else 0)
  {
    var r := RemoveAt(s, j);
    if j == 0 {
      assert r == s[1..];
    } else {
      HeavyWithout(irqs, s[1..], j - 1);
      assert r[0] == s[0] && r[1..] == RemoveAt(s[1..], j - 1);
    }
  }

  /** A list of some of the IRQs of another is no heavier. */
  lemma {:induction false} HeavySubset(irqs: map<IrqInfo, IrqState>, t: seq<IrqInfo>, s: seq<IrqInfo>)
    requires (forall i | 0 <= i < |s| :: s[i] in irqs) && (forall i | 0 <= i < |t| :: t[i] in irqs)
    requires NoDup(t) && forall i | 0 <= i < |t| :: t[i] in s
    ensures Heavy(irqs, t) <= Heavy(irqs, s)
  {
    if t != [] {
      var j :| 0 <= j < |s| && s[j] == t[0];
      HeavyWithout(irqs, s, j);
      var r := RemoveAt(s, j);
      forall i | 0 <= i < |t[1..]|
        ensures t[1..][i] in r
      {
        var k :| 0 <= k < |s| && s[k] == t[i + 1];
        assert k != j;
        assert r[if k < j then k else k - 1] == t[i + 1];
      }
      HeavySubset(irqs, t[1..], r);
    }
  }

  lemma {:induction false} HeavySame(irqs: map<IrqInfo, IrqState>, irqs': map<IrqInfo, IrqState>, qs: seq<IrqInfo>)
    requires (forall i | 0 <= i < |qs| :: qs[i] in irqs) && irqs'.Keys == irqs.Keys
    requires forall q | q in irqs :: irqs'[q].load == irqs[q].load
    ensures Heavy(irqs', qs) == Heavy(irqs, qs)
  {
    if qs != [] {
      HeavySame(irqs, irqs', qs[1..]);
    }
  }

  lemma {:induction false} WeightSame(irqs: map<IrqInfo, IrqState>, irqs': map<IrqInfo, IrqState>, qs: seq<IrqInfo>)
    requires (forall i | 0 <= i < |qs| :: qs[i] in irqs) && irqs'.Keys == irqs.Keys
    requires forall q | q in irqs :: irqs'[q].load == irqs[q].load
    ensures PlacementWeight(irqs', qs) == PlacementWeight(irqs, qs)
  {
    if qs != [] {
      WeightSame(irqs, irqs', qs[1..]);
    }
  }

  lemma {:induction false} TotalSame(irqs: map<IrqInfo, IrqState>, irqs': map<IrqInfo, IrqState>, qs: seq<IrqInfo>)
    requires (forall i | 0 <= i < |qs| :: qs[i] in irqs) && irqs'.Keys == irqs.Keys
    requires forall q | q in irqs :: irqs'[q].load == irqs[q].load
    ensures Total(irqs', qs) == Total(irqs, qs)
  {
    if qs != [] {
      TotalSame(irqs, irqs', qs[1..]);
    }
  }

  lemma {:induction false} PendingBelowWeight(irqs: map<IrqInfo, IrqState>, qs: seq<IrqInfo>, depth: nat)
    requires forall i | 0 <= i < |qs| :: qs[i] in irqs
    ensures Pending(irqs, qs, depth) <= PlacementWeight(irqs, qs)
  {
    if qs != [] {
      PendingBelowWeight(irqs, qs[1..], depth);
    }
  }

  // ---- the state a drain starts from ----

  ghost predicate FullBudget(cfg: Config, st: State) {
    && (forall i | 0 <= i < |cfg.db| :: cfg.db[i] in st.irqs)
    && forall o | o in st.objs :: st.objs[o].load + PlacementWeight(st.irqs, cfg.db) < LIMIT
  }

  /** The loads above 1 on an object add up to no more than the object's load. */
  ghost predicate DrainSafe(st: State) {
    forall o | o in st.objs ::
      && (forall i | 0 <= i < |st.objs[o].interrupts| :: st.objs[o].interrupts[i] in st.irqs)
      && Heavy(st.irqs, st.objs[o].interrupts) <= st.objs[o].load
  }

  /** What measuring the loads establishes and draining keeps. */
  ghost predicate Measured(cfg: Config, st: State) {
    Inv(cfg, st) && FullBudget(cfg, st) && DrainSafe(st)
  }

  lemma MeasuredIsGood(cfg: Config, st: State)
    requires Inv(cfg, st) && FullBudget(cfg, st)
    ensures Good(cfg, st)
  {
    hide Inv;
    forall o | o in st.objs
      ensures st.objs[o].load + Pending(st.irqs, cfg.db, o.kind.Depth()) < LIMIT
    {
      PendingBelowWeight(st.irqs, cfg.db, o.kind.Depth());
    }
  }

  /** The invariants, which need nothing of the loads; and, when `sane`, what
      measuring always establishes. */
  ghost predicate Held(cfg: Config, st: State, sane: bool) {
    Inv(cfg, st) && (sane ==> DrainSafe(st))
  }

  /** Without a claim about loads. */
  lemma JustInv(cfg: Config, st: State)
    ensures Held(cfg, st, false) <==> Inv(cfg, st)
  {
    hide Inv;
  }

  lemma HeldParts(cfg: Config, sane: bool, st: State)
    requires Held(cfg, st, sane)
    ensures Ready(cfg, st) && Owned(st) && AllFitting(st) && PowerOk(st) && Known(st) && Inv(cfg, st)
    ensures TreeOk(cfg, st.objs.Keys) && IrqsOk(cfg, st.irqs.Keys)
    ensures sane ==> DrainSafe(st)
  {
    hide DrainSafe;
    InvParts(cfg, st);
  }

  lemma MakeHeld(cfg: Config, sane: bool, st: State)
    requires Ready(cfg, st) && Owned(st) && AllFitting(st) && PowerOk(st) && (sane ==> DrainSafe(st))
    ensures Held(cfg, st, sane)
  {
    hide DrainSafe;
    MakeInv(cfg, st);
  }

  /** Loads, powersave modes and counts are as before. */
  ghost predicate SameLoads(st: State, st': State) {
    && SameFrame(st, st')
    && (forall o | o in st.objs :: st'.objs[o].load == st.objs[o].load && st'.objs[o].irqCount == st.objs[o].irqCount)
  }

  lemma FewerIsSafe(st: State, st': State)
    requires DrainSafe(st) && SameLoads(st, st')
    requires forall o | o in st.objs :: ListOk(st', st'.objs[o].interrupts)
    requires forall o, q | o in st.objs && q in st'.objs[o].interrupts :: q in st.objs[o].interrupts
    ensures DrainSafe(st')
  {
    forall o | o in st'.objs
      ensures forall i | 0 <= i < |st'.objs[o].interrupts| :: st'.objs[o].interrupts[i] in st'.irqs
      ensures Heavy(st'.irqs, st'.objs[o].interrupts) <= st'.objs[o].load
    {
      var t := st'.objs[o].interrupts;
      assert ListOk(st', t);
      HeavySame(st.irqs, st'.irqs, t);
      HeavySubset(st.irqs, t, st.objs[o].interrupts);
    }
  }

  // ---- taking one IRQ off an object ----

  lemma OffFrame(st: State, st': State, o: TopoObj, q: IrqInfo)
    requires o in st.objs && q in st.irqs && MovedTo(st, st', On(o), Waiting, q, 0)
    ensures SameLoads(st, st')
    ensures forall p, x | p in st.objs && x in st'.objs[p].interrupts && x in st.irqs :: x in st.objs[p].interrupts
    ensures st'.rebalance == st.rebalance + [q]
    ensures st'.irqs == st.irqs[q := st.irqs[q].(moved := true, owner := null)]
    ensures forall p | p in st.objs && p != o :: st'.objs[p].interrupts == st.objs[p].interrupts
    ensures forall x | x in st.irqs :: x in st'.objs[o].interrupts <==> x in st.objs[o].interrupts && x != q
  {
    forall p, x | p in st.objs && x in st'.objs[p].interrupts && x in st.irqs
      ensures x in st.objs[p].interrupts
    {
      if p != o {
        assert On(p) != On(o);
      }
    }
    forall p | p in st.objs
      ensures st'.objs[p].load == st.objs[p].load
    {
      assert On(p) != Waiting;
    }
    assert forall p | p in st.objs && p != o :: On(p) != On(o) && On(p) != Waiting;
  }

  lemma OwnedLists(st: State)
    requires Owned(st)
    ensures forall o | o in st.objs :: ListOk(st, st.objs[o].interrupts)
    ensures forall o, x | o in st.objs && x in st.objs[o].interrupts :: x in st.irqs
  {
    forall o, x | o in st.objs && x in st.objs[o].interrupts
      ensures x in st.irqs
    {
      assert ListOk(st, st.objs[o].interrupts);
    }
  }

  lemma OffFitting(st: State, st': State, q: IrqInfo)
    requires AllFitting(st) && q in st.irqs && st'.irqs == st.irqs[q := st.irqs[q].(moved := true, owner := null)]
    ensures AllFitting(st')
  {
    forall x | x in st'.irqs
      ensures Fitting(st', x)
    {
      assert Fitting(st, x);
    }
  }

  lemma NoneInEmpty(t: seq<IrqInfo>)
    ensures t == [] || exists q :: q in t
  {
    if t != [] {
      assert t[0] in t;
    }
  }

  lemma OffPower(st: State, st': State)
    requires PowerOk(st) && SameLoads(st, st') && Owned(st')
    requires forall o, x | o in st.objs && x in st'.objs[o].interrupts && x in st.irqs :: x in st.objs[o].interrupts
    ensures PowerOk(st')
  {
    OwnedLists(st');
    forall o | o in st'.objs && st'.objs[o].powersave
      ensures o.kind == ObjCpu && st'.objs[o].interrupts == []
    {
      NoneInEmpty(st'.objs[o].interrupts);
    }
  }

  /** Taking an IRQ off its object keeps every invariant. */
  lemma OffKeepsHeld(cfg: Config, sane: bool, st: State, st': State, o: TopoObj, q: IrqInfo)
    requires Held(cfg, st, sane) && Ready(cfg, st') && o in st.objs && q in st.irqs && q in st.objs[o].interrupts
    requires MovedTo(st, st', On(o), Waiting, q, 0)
    ensures Held(cfg, st', sane)
  {
    hide Ready, Owned, MovedTo, PowerOk, Held, AllFitting, Fitting, FullBudget, DrainSafe, SameLoads, Inv;
    HeldParts(cfg, sane, st);
    MoveKeepsOwned(st, st', On(o), Waiting, q, 0);
    OffFrame(st, st', o, q);
    FrameOf(st, st');
    OffFitting(st, st', q);
    OffPower(st, st');
    OwnedLists(st');
    if sane {
      FewerIsSafe(st, st');
    }
    MakeHeld(cfg, sane, st');
  }

  lemma FrameOf(st: State, st': State)
    requires SameLoads(st, st')
    ensures SameFrame(st, st') && st'.objs.Keys == st.objs.Keys && st'.irqs.Keys == st.irqs.Keys
  {
  }

  // ---- the drain of one object ----

  /** An IRQ that is balanced, whose load is worth moving, and that no EXACT hint binds. */
  ghost predicate MayLeave(q: IrqInfo, load: nat) {
    q.level != BalanceNone && load > 1 && (q.hintPolicy == HintExact ==> q.affinityHint == {})
  }

  /** st' is st with the IRQs `out` of object o taken off, in that order. */
  ghost predicate Drained(st: State, st': State, o: TopoObj, out: seq<IrqInfo>) {
    && o in st.objs && SameLoads(st, st')
    && NoDup(out)
    && (forall i | 0 <= i < |out| ::
          out[i] in st.irqs && st.irqs[out[i]].owner == o && MayLeave(out[i], st.irqs[out[i]].load))
    && st'.rebalance == st.rebalance + out
    && (forall x | x in st.irqs :: st'.irqs[x] == if x in out then st.irqs[x].(moved := true, owner := null) else st.irqs[x])
    && (forall p | p in st.objs && p != o :: st'.objs[p].interrupts == st.objs[p].interrupts)
    && (forall x | x in st.irqs :: x in st'.objs[o].interrupts <==> x in st.objs[o].interrupts && x !in out)
    && (st.objs[o].interrupts != [] ==> st'.objs[o].interrupts != [])
  }

  /** The bookkeeping is exact, and the object stays above the minimum. */
  ghost predicate Shifted(s: Stats, s': Stats, amount: nat) {
    && s' == s.(adjustment := s'.adjustment, minLoad := s'.minLoad)
    && s'.adjustment + amount == s.adjustment && s'.minLoad == s.minLoad + amount
    && (s.adjustment > s.minLoad ==> s'.adjustment > s'.minLoad)
  }

  /** Only the bookkeeping of the drain differs. */
  ghost predicate SameCounts(s: Stats, s': Stats) {
    s' == s.(adjustment := s'.adjustment, minLoad := s'.minLoad)
  }

  /** q has a reason not to leave o any more. */
  ghost predicate Kept(st: State, s: Stats, o: TopoObj, q: IrqInfo)
    requires q in st.irqs && o in st.objs
  {
    || !MayLeave(q, st.irqs[q].load)
    || |st.objs[o].interrupts| <= 1
    || s.adjustment <= s.minLoad + st.irqs[q].load + st.irqs[q].load
  }

  lemma NoWrap(s: Stats, load: nat)
    requires load <= s.adjustment && s.adjustment + s.minLoad < TWO64
    ensures Worthwhile(s, load) <==> s.adjustment > s.minLoad + load + load
    ensures Sub64(s.adjustment, load) == s.adjustment - load
    ensures s.minLoad + load < TWO64 ==> Add64(s.minLoad, load) == s.minLoad + load
  {
    assert Sub64(s.adjustment, load) == s.adjustment - load;
    assert s.minLoad + load < TWO64;
  }

  lemma StillOne(st: State, st': State, o: TopoObj, q: IrqInfo)
    requires o in st.objs && o in st'.objs && ListOk(st, st.objs[o].interrupts) && |st.objs[o].interrupts| > 1
    requires forall x | x in st.irqs :: x in st'.objs[o].interrupts <==> x in st.objs[o].interrupts && x != q
    ensures st'.objs[o].interrupts != []
  {
    var l := st.objs[o].interrupts;
    assert l[0] != l[1] && l[0] in l && l[1] in l;
    assert l[0] in st'.objs[o].interrupts || l[1] in st'.objs[o].interrupts;
  }

  lemma OneOff(st: State, st': State, o: TopoObj, q: IrqInfo)
    requires o in st.objs && q in st.irqs && MovedTo(st, st', On(o), Waiting, q, 0)
    requires ListOk(st, st.objs[o].interrupts) && |st.objs[o].interrupts| > 1
    requires st.irqs[q].owner == o && MayLeave(q, st.irqs[q].load)
    ensures Drained(st, st', o, [q])
  {
    OffFrame(st, st', o, q);
    StillOne(st, st', o, q);
    assert q in [q];
    hide MovedTo;
  }

  lemma NoneOff(st: State, o: TopoObj)
    requires o in st.objs
    ensures Drained(st, st, o, [])
  {
  }

  lemma FirstHeavy(irqs: map<IrqInfo, IrqState>, qs: seq<IrqInfo>)
    requires qs != [] && forall i | 0 <= i < |qs| :: qs[i] in irqs
    ensures irqs[qs[0]].load > 1 ==> Heavy(irqs, qs) == irqs[qs[0]].load + Heavy(irqs, qs[1..])
    ensures Heavy(irqs, qs[1..]) <= Heavy(irqs, qs)
  {
  }

  lemma OwnerList(st: State, o: TopoObj, q: IrqInfo)
    requires Owned(st) && q in st.irqs && st.irqs[q].owner == o
    ensures o in st.objs && q in st.objs[o].interrupts && ListOk(st, st.objs[o].interrupts)
  {
    assert OwnedIrq(st, q);
    assert ListOk(st, st.objs[o].interrupts);
  }

  /** The sum of the adjusted load and the minimum is below 2^64. */
  ghost predicate SumFits(s: Stats) {
    s.adjustment + s.minLoad < TWO64
  }

  lemma ExactSub(s: Stats, load: nat)
    requires load <= s.adjustment < TWO64
    ensures Sub64(s.adjustment, load) == s.adjustment - load
  {
  }

  /** One call of move_candidate_irqs: it keeps all invariants; the subtraction does
      not wrap; and while the sum fits, the addition is exact too and an IRQ that stays
      has a reason. */
  lemma CandidateDoes(cfg: Config, sane: bool, st: State, s: Stats, o: TopoObj, q: IrqInfo) returns (out: seq<IrqInfo>)
    requires Held(cfg, st, sane) && Ready(cfg, st) && q in st.irqs && st.irqs[q].owner == o && o in st.objs
    requires sane ==> (st.irqs[q].load > 1 ==> st.irqs[q].load <= s.adjustment) && s.adjustment < TWO64
    ensures var (st1, s1) := MoveCandidate(cfg, st, s, q);
      && Held(cfg, st1, sane) && Drained(st, st1, o, out)
      && (out == [] || out == [q]) && SameCounts(s, s1)
      && (sane ==> CandidateFits(st, s, q, SumFits(s)) && s1.adjustment + (if out == [] then 0 else st.irqs[q].load) == s.adjustment)
      && (sane && SumFits(s) ==> Shifted(s, s1, if out == [] then 0 else st.irqs[q].load))
      && (out == [] ==> st1 == st && s1 == s && (sane && SumFits(s) ==> Kept(st, s1, o, q)))
  {
    hide Held, Ready, Drained, MovedTo, Owned, DrainSafe, AllFitting, PowerOk, TreeOk, Sub64, Add64;
    hide Release, Inv, Known, IrqsOk, OwnedIrq, ListOk, Worthwhile;
    HeldParts(cfg, sane, st);
    OwnerList(st, o, q);
    var load := st.irqs[q].load;
    out := [];
    if sane && load > 1 {
      ExactSub(s, load);
      if SumFits(s) {
        NoWrap(s, load);
      }
    }
    if Movable(q, load) && |st.objs[o].interrupts| > 1 && Worthwhile(s, load) {
      out := [q];
      ReleaseMoves(st, o, q);
      ReleaseReady(cfg, st, o, q);
      OffKeepsHeld(cfg, sane, st, Release(st, o, q), o, q);
      OneOff(st, Release(st, o, q), o, q);
    } else {
      NoneOff(st, o);
    }
  }

  lemma DrainedBoth(st: State, st1: State, st2: State, o: TopoObj, out1: seq<IrqInfo>, out2: seq<IrqInfo>)
    requires Drained(st, st1, o, out1) && Drained(st1, st2, o, out2)
    requires forall i | 0 <= i < |out2| :: out2[i] !in out1
    ensures Drained(st, st2, o, out1 + out2)
  {
    hide MayLeave;
    var out := out1 + out2;
    forall i, j | 0 <= i < j < |out|
      ensures out[i] != out[j]
    {
      if i < |out1| && j >= |out1| {
        assert out[i] in out1 && out[j] == out2[j - |out1|];
      }
    }
    forall i | 0 <= i < |out|
      ensures out[i] in st.irqs && st.irqs[out[i]].owner == o && MayLeave(out[i], st.irqs[out[i]].load)
    {
      if i >= |out1| {
        assert out[i] == out2[i - |out1|];
      } else {
        assert out[i] == out1[i];
      }
    }
    forall x | x in st.irqs
      ensures st2.irqs[x] == if x in out then st.irqs[x].(moved := true, owner := null) else st.irqs[x]
    {
      assert x in out <==> x in out1 || x in out2;
    }
  }

  lemma DrainedRest(st: State, st1: State, o: TopoObj, qs: seq<IrqInfo>, out: seq<IrqInfo>)
    requires qs != [] && OnObject(st, o, qs) && Drained(st, st1, o, out) && (out == [] || out == [qs[0]])
    ensures OnObject(st1, o, qs[1..]) && Heavy(st1.irqs, qs[1..]) == Heavy(st.irqs, qs[1..])
    ensures qs[0] !in qs[1..] && o in st1.objs && st1.irqs.Keys == st.irqs.Keys
  {
    HeavySame(st.irqs, st1.irqs, qs[1..]);
    forall i | 0 <= i < |qs[1..]|
      ensures st1.irqs[qs[1..][i]] == st.irqs[qs[i + 1]]
    {
      assert qs[i + 1] != qs[0];
    }
  }

  /** Every IRQ of qs that is still on o has a reason to be. */
  ghost predicate Exhausted(st: State, s: Stats, o: TopoObj, qs: seq<IrqInfo>) {
    o in st.objs && forall q | q in qs && q in st.irqs && st.irqs[q].owner == o :: Kept(st, s, o, q)
  }

  lemma TwoNeedTwo(t: seq<IrqInfo>, s: seq<IrqInfo>)
    requires NoDup(t) && |t| > 1 && forall i | 0 <= i < |t| :: t[i] in s
    ensures |s| > 1
  {
    assert t[0] != t[1] && t[0] in s && t[1] in s;
  }

  lemma ShorterList(st: State, st': State, o: TopoObj, out: seq<IrqInfo>)
    requires Drained(st, st', o, out) && ListOk(st', st'.objs[o].interrupts)
    ensures |st'.objs[o].interrupts| > 1 ==> |st.objs[o].interrupts| > 1
  {
    var t := st'.objs[o].interrupts;
    if |t| > 1 {
      assert forall i | 0 <= i < |t| :: t[i] in t;
      TwoNeedTwo(t, st.objs[o].interrupts);
    }
  }

  /** A reason to stay does not go away as more IRQs leave. */
  lemma KeptStays(st1: State, s1: Stats, st2: State, s2: Stats, o: TopoObj, q: IrqInfo, out: seq<IrqInfo>, amount: nat)
    requires q in st1.irqs && o in st1.objs && Kept(st1, s1, o, q) && Drained(st1, st2, o, out)
    requires Shifted(s1, s2, amount) && ListOk(st2, st2.objs[o].interrupts)
    ensures q in st2.irqs && o in st2.objs && Kept(st2, s2, o, q)
  {
    ShorterList(st1, st2, o, out);
  }

  lemma ExhaustedStep(st: State, st1: State, s1: Stats, st2: State, s2: Stats, o: TopoObj, q: IrqInfo, rest: seq<IrqInfo>,
                      out1: seq<IrqInfo>, out2: seq<IrqInfo>, amount: nat)
    requires o in st.objs && q in st.irqs && Drained(st, st1, o, out1) && Drained(st1, st2, o, out2)
    requires out1 == [] || out1 == [q]
    requires out1 == [] ==> st1 == st && Kept(st, s1, o, q)
    requires Shifted(s1, s2, amount) && ListOk(st2, st2.objs[o].interrupts) && Exhausted(st2, s2, o, rest)
    ensures Exhausted(st2, s2, o, [q] + rest)
  {
    if out1 == [] {
      KeptStays(st, s1, st2, s2, o, q, out2, amount);
    } else {
      hide Kept;
      assert q in out1;
      assert st1.irqs[q].owner == null;
      assert q !in out2;
      assert st2.irqs[q].owner == null;
    }
  }

  lemma TotalJoined(irqs: map<IrqInfo, IrqState>, q: IrqInfo, out: seq<IrqInfo>)
    requires q in irqs && forall i | 0 <= i < |out| :: out[i] in irqs
    ensures forall i | 0 <= i < |[q] + out| :: ([q] + out)[i] in irqs
    ensures Total(irqs, [q] + out) == irqs[q].load + Total(irqs, out)
  {
    assert ([q] + out)[1..] == out;
  }

  lemma OutsApart(st: State, st1: State, st2: State, o: TopoObj, out1: seq<IrqInfo>, out2: seq<IrqInfo>)
    requires Drained(st, st1, o, out1) && Drained(st1, st2, o, out2)
    ensures forall i | 0 <= i < |out2| :: out2[i] !in out1
  {
  }

  lemma MoveCandidatesStep(cfg: Config, st: State, s: Stats, qs: seq<IrqInfo>)
    requires Ready(cfg, st) && qs != [] && forall q | q in qs :: q in st.irqs
    ensures var (st1, s1) := MoveCandidate(cfg, st, s, qs[0]);
      && MoveCandidates(cfg, st, s, qs) == MoveCandidates(cfg, st1, s1, qs[1..])
      && forall both: bool :: CandidateFits(st, s, qs[0], both) && CandidatesFit(cfg, st1, s1, qs[1..], both) ==> CandidatesFit(cfg, st, s, qs, both)
  {
    hide Ready, MoveCandidate, CandidateFits;
  }

  lemma MoveNoCandidates(cfg: Config, st: State, s: Stats, o: TopoObj)
    requires Ready(cfg, st) && o in st.objs
    ensures CandidatesFit(cfg, st, s, [], true) && CandidatesFit(cfg, st, s, [], false)
    ensures MoveCandidates(cfg, st, s, []) == (st, s) && SameCounts(s, s) && Shifted(s, s, 0) && Exhausted(st, s, o, []) && Total(st.irqs, []) == 0
  {
  }

  lemma HeavyFirst(st: State, o: TopoObj, qs: seq<IrqInfo>, s: Stats)
    requires qs != [] && OnObject(st, o, qs) && Heavy(st.irqs, qs) <= s.adjustment
    ensures st.irqs[qs[0]].load > 1 ==> st.irqs[qs[0]].load + Heavy(st.irqs, qs[1..]) <= s.adjustment
    ensures Heavy(st.irqs, qs[1..]) <= s.adjustment
  {
    FirstHeavy(st.irqs, qs);
  }

  lemma OnObjectKnown(st: State, o: TopoObj, qs: seq<IrqInfo>)
    requires OnObject(st, o, qs)
    ensures (forall q | q in qs :: q in st.irqs) && forall i | 0 <= i < |qs| :: qs[i] in st.irqs
  {
  }

  lemma ShiftedBoth(s: Stats, s1: Stats, s2: Stats, a: nat, b: nat)
    requires Shifted(s, s1, a) && Shifted(s1, s2, b)
    ensures Shifted(s, s2, a + b)
  {
  }

  /** What is left to drain still fits in the adjusted load. */
  lemma RoomLeft(st: State, st1: State, o: TopoObj, qs: seq<IrqInfo>, out: seq<IrqInfo>, s: Stats, s1: Stats)
    requires qs != [] && OnObject(st, o, qs) && Drained(st, st1, o, out) && (out == [] || out == [qs[0]])
    requires Heavy(st.irqs, qs) <= s.adjustment
    requires s1.adjustment + (if out == [] then 0 else st.irqs[qs[0]].load) == s.adjustment
    ensures OnObject(st1, o, qs[1..]) && Heavy(st1.irqs, qs[1..]) <= s1.adjustment
  {
    DrainedRest(st, st1, o, qs, out);
    HeavyFirst(st, o, qs, s);
    if out == [qs[0]] {
      assert out[0] == qs[0] && MayLeave(out[0], st.irqs[out[0]].load);
    }
  }

  lemma SumStays(s: Stats, s1: Stats, amount: nat)
    requires SumFits(s) && Shifted(s, s1, amount)
    ensures SumFits(s1)
  {
  }

  lemma WeakerFit(cfg: Config, st: State, s: Stats, qs: seq<IrqInfo>, st1: State, s1: Stats, both: bool, both1: bool)
    requires Ready(cfg, st) && qs != [] && (forall q | q in qs :: q in st.irqs) && (st1, s1) == MoveCandidate(cfg, st, s, qs[0])
    requires CandidateFits(st, s, qs[0], both) && CandidatesFit(cfg, st1, s1, qs[1..], both1) && (both ==> both1)
    ensures CandidatesFit(cfg, st, s, qs, both)
  {
    hide Ready, MoveCandidate, CandidateFits;
    if both != both1 {
      OnlySub(cfg, st1, s1, qs[1..]);
    }
  }

  /** Where neither wraps, the subtraction does not. */
  lemma {:induction false} OnlySub(cfg: Config, st: State, s: Stats, qs: seq<IrqInfo>)
    requires Ready(cfg, st) && (forall q | q in qs :: q in st.irqs) && CandidatesFit(cfg, st, s, qs, true)
    ensures CandidatesFit(cfg, st, s, qs, false)
    decreases |qs|
  {
    hide Ready, MoveCandidate;
    if qs != [] {
      var (st1, s1) := MoveCandidate(cfg, st, s, qs[0]);
      OnlySub(cfg, st1, s1, qs[1..]);
    }
  }

  /** The amounts add up. */
  lemma AmountsAdd(st: State, st1: State, st2: State, o: TopoObj, q: IrqInfo, out1: seq<IrqInfo>, out2: seq<IrqInfo>, s: Stats, s1: Stats, s2: Stats)
    requires Drained(st, st1, o, out1) && Drained(st1, st2, o, out2) && (out1 == [] || out1 == [q]) && q in st.irqs
    requires forall i | 0 <= i < |out2| :: out2[i] in st1.irqs
    requires Shifted(s, s1, if out1 == [] then 0 else st.irqs[q].load) && Shifted(s1, s2, Total(st1.irqs, out2))
    ensures forall i | 0 <= i < |out1 + out2| :: (out1 + out2)[i] in st.irqs
    ensures Shifted(s, s2, Total(st.irqs, out1 + out2))
  {
    hide Drained, Shifted;
    DrainedKeys(st, st1, o, out1);
    DrainedLoads(st, st1, o, out1);
    TotalSame(st.irqs, st1.irqs, out2);
    ShiftedBoth(s, s1, s2, if out1 == [] then 0 else st.irqs[q].load, Total(st1.irqs, out2));
    if out1 == [] {
      assert out1 + out2 == out2;
    } else {
      TotalJoined(st.irqs, q, out2);
    }
  }

  lemma NoneFirst(irqs: map<IrqInfo, IrqState>)
    ensures HeaviestFirst(irqs, [])
  {
  }

  /** Those that leave do so in the order of the list. */
  lemma OutsInOrder(irqs: map<IrqInfo, IrqState>, irqs1: map<IrqInfo, IrqState>, q: IrqInfo, rest: seq<IrqInfo>,
                    out1: seq<IrqInfo>, out2: seq<IrqInfo>)
    requires (out1 == [] || out1 == [q]) && forall x | x in out2 :: x in rest
    requires irqs1.Keys == irqs.Keys && forall x | x in irqs :: irqs1[x].load == irqs[x].load
    requires HeaviestFirst(irqs1, rest) ==> HeaviestFirst(irqs1, out2)
    ensures forall x | x in out1 + out2 :: x in [q] + rest
    ensures HeaviestFirst(irqs, [q] + rest) ==> HeaviestFirst(irqs, out1 + out2)
  {
    var list, out := [q] + rest, out1 + out2;
    if HeaviestFirst(irqs, list) {
      forall i, j | 0 <= i < j < |rest| && rest[i] in irqs && rest[j] in irqs
        ensures Precedes(irqs1, rest[i], rest[j])
      {
        assert list[i + 1] == rest[i] && list[j + 1] == rest[j];
        assert Precedes(irqs, list[i + 1], list[j + 1]);
      }
      assert HeaviestFirst(irqs1, out2);
      forall i, j | 0 <= i < j < |out| && out[i] in irqs && out[j] in irqs
        ensures Precedes(irqs, out[i], out[j])
      {
        var k := j - |out1|;
        assert out[j] == out2[k];
        if i < |out1| {
          assert out2[k] in out2;
          var l :| 0 <= l < |rest| && rest[l] == out2[k];
          assert list[0] == q && list[l + 1] == rest[l];
        } else {
          assert out[i] == out2[i - |out1|];
          assert Precedes(irqs1, out2[i - |out1|], out2[k]);
        }
      }
    }
  }

  lemma OutsKnown(st: State, st1: State, o: TopoObj, out: seq<IrqInfo>)
    requires Drained(st, st1, o, out)
    ensures forall i | 0 <= i < |out| :: out[i] in st.irqs
  {
  }

  lemma CountsBoth(s: Stats, s1: Stats, s2: Stats)
    requires SameCounts(s, s1) && SameCounts(s1, s2)
    ensures SameCounts(s, s2)
  {
  }

  lemma DrainedKeys(st: State, st1: State, o: TopoObj, out: seq<IrqInfo>)
    requires Drained(st, st1, o, out)
    ensures st1.irqs.Keys == st.irqs.Keys && st1.objs.Keys == st.objs.Keys && o in st.objs && o in st1.objs
  {
  }

  lemma DrainedLoads(st: State, st1: State, o: TopoObj, out: seq<IrqInfo>)
    requires Drained(st, st1, o, out)
    ensures st1.irqs.Keys == st.irqs.Keys && forall q | q in st.irqs :: st1.irqs[q].load == st.irqs[q].load
  {
  }

  /** The loop of move_candidate_irqs over an object's list: whatever the loads, no
      subtraction wraps; while the sum fits, nothing does. */
  lemma {:induction false} CandidatesDo(cfg: Config, sane: bool, st: State, s: Stats, o: TopoObj, qs: seq<IrqInfo>, st2: State, s2: Stats)
    returns (out: seq<IrqInfo>)
    requires Held(cfg, st, sane) && Ready(cfg, st) && o in st.objs && OnObject(st, o, qs)
    requires (forall q | q in qs :: q in st.irqs) && (st2, s2) == MoveCandidates(cfg, st, s, qs)
    requires sane ==> Heavy(st.irqs, qs) <= s.adjustment < TWO64
    ensures Held(cfg, st2, sane) && Drained(st, st2, o, out) && SameCounts(s, s2)
    ensures forall i | 0 <= i < |out| :: out[i] in st.irqs
    ensures (forall x | x in out :: x in qs) && (HeaviestFirst(st.irqs, qs) ==> HeaviestFirst(st.irqs, out))
    ensures sane ==> CandidatesFit(cfg, st, s, qs, SumFits(s))
    ensures sane && SumFits(s) ==> Exhausted(st2, s2, o, qs) && Shifted(s, s2, Total(st.irqs, out))
    decreases |qs|
  {
    hide *;
    HeldParts(cfg, sane, st);
    if qs == [] {
      out := [];
      MoveNoCandidates(cfg, st, s, o);
      NoneOff(st, o);
      NoneFirst(st.irqs);
      return;
    }
    var q, rest := qs[0], qs[1..];
    OnObjectFirst(st, o, qs);
    if sane {
      HeavyFirst(st, o, qs, s);
    }
    var out1 := CandidateDoes(cfg, sane, st, s, o, q);
    var (st1, s1) := MoveCandidate(cfg, st, s, q);
    MoveCandidatesStep(cfg, st, s, qs);
    DrainedRest(st, st1, o, qs, out1);
    if sane {
      RoomLeft(st, st1, o, qs, out1, s, s1);
      if SumFits(s) {
        SumStays(s, s1, if out1 == [] then 0 else st.irqs[q].load);
      }
    }
    DrainedKeys(st, st1, o, out1);
    OnObjectKnown(st1, o, rest);
    HeldParts(cfg, sane, st1);
    var out2 := CandidatesDo(cfg, sane, st1, s1, o, rest, st2, s2);
    out := out1 + out2;
    DrainedLoads(st, st1, o, out1);
    OutsInOrder(st.irqs, st1.irqs, q, rest, out1, out2);
    assert [q] + rest == qs;
    OutsApart(st, st1, st2, o, out1, out2);
    DrainedBoth(st, st1, st2, o, out1, out2);
    OutsKnown(st, st2, o, out);
    CountsBoth(s, s1, s2);
    if sane {
      WeakerFit(cfg, st, s, qs, st1, s1, SumFits(s), SumFits(s1));
      if SumFits(s) {
        AmountsAdd(st, st1, st2, o, q, out1, out2, s, s1, s2);
        HeldParts(cfg, sane, st2);
        DrainedKeys(st1, st2, o, out2);
        OwnedLists(st2);
        ExhaustedStep(st, st1, s1, st2, s2, o, q, rest, out1, out2, Total(st1.irqs, out2));
        assert [q] + rest == qs;
      }
    }
  }

  // ---- migrate_overloaded_irqs ----

  lemma SortFrames(st: State, st1: State, d: TopoObj, list: seq<IrqInfo>)
    requires Owned(st) && d in st.objs && st1 == WithList(st, On(d), list)
    requires multiset(list) == multiset(st.objs[d].interrupts)
    ensures SameLoads(st, st1) && st1.irqs == st.irqs && st1.rebalance == st.rebalance
    ensures NoDup(list)
    ensures forall o, x | o in st.objs :: x in st1.objs[o].interrupts <==> x in st.objs[o].interrupts
    ensures forall p | p in st.objs && p != d :: st1.objs[p].interrupts == st.objs[p].interrupts
  {
    assert ListOk(st, st.objs[d].interrupts);
    PermutedList(st.objs[d].interrupts, list);
  }

  lemma SortedObjectOwned(st: State, st1: State, d: TopoObj)
    requires Owned(st) && d in st.objs && SameLoads(st, st1) && st1.irqs == st.irqs && st1.rebalance == st.rebalance
    requires NoDup(st1.objs[d].interrupts)
    requires forall o, x | o in st.objs :: x in st1.objs[o].interrupts <==> x in st.objs[o].interrupts
    requires forall p | p in st.objs && p != d :: st1.objs[p].interrupts == st.objs[p].interrupts
    ensures Owned(st1)
  {
    OwnedLists(st);
    forall o | o in st1.objs
      ensures ListOk(st1, st1.objs[o].interrupts)
    {
      assert ListOk(st, st.objs[o].interrupts);
      var t := st1.objs[o].interrupts;
      forall i | 0 <= i < |t|
        ensures t[i] in st1.irqs
      {
        assert t[i] in st1.objs[o].interrupts;
      }
    }
    assert ListOk(st, st.rebalance);
    forall q | q in st1.irqs
      ensures OwnedIrq(st1, q)
    {
      assert OwnedIrq(st, q);
    }
  }

  /** Sorting an object's list keeps every invariant. */
  lemma SortObjectDoes(cfg: Config, sane: bool, st: State, d: TopoObj, st1: State)
    requires Held(cfg, st, sane) && Ready(cfg, st) && d in st.objs && st1 == SortObject(cfg, st, d)
    ensures Held(cfg, st1, sane) && SameLoads(st, st1) && st1.irqs == st.irqs && st1.rebalance == st.rebalance
    ensures forall o, x | o in st.objs :: x in st1.objs[o].interrupts <==> x in st.objs[o].interrupts
    ensures forall p | p in st.objs && p != d :: st1.objs[p].interrupts == st.objs[p].interrupts
    ensures st.objs[d].interrupts != [] ==> st1.objs[d].interrupts != []
    ensures multiset(st1.objs[d].interrupts) == multiset(st.objs[d].interrupts)
    ensures st1.objs[d].interrupts == SortIrqs(st.irqs, st.objs[d].interrupts)
    ensures HeaviestFirst(st1.irqs, st1.objs[d].interrupts)
  {
    hide HeaviestFirst, Held, Ready, Owned, PowerOk, AllFitting, FullBudget, DrainSafe, SortIrqs, SameLoads, Inv, TreeOk, IrqsOk, Known;
    HeldParts(cfg, sane, st);
    SortIrqsPermutes(st.irqs, st.objs[d].interrupts);
    ObjectWithin(st, d);
    SortIrqsOrders(st.irqs, st.objs[d].interrupts);
    assert st1 == WithList(st, On(d), SortIrqs(st.irqs, st.objs[d].interrupts));
    SortFrames(st, st1, d, st1.objs[d].interrupts);
    FrameOf(st, st1);
    SortedObjectOwned(st, st1, d);
    SameFitting(st, st1);
    OffPower(st, st1);
    OwnedLists(st1);
    if sane {
      FewerIsSafe(st, st1);
    }
    MakeHeld(cfg, sane, st1);
  }

  lemma ObjectWithin(st: State, d: TopoObj)
    requires Owned(st) && d in st.objs
    ensures Within(st.objs[d].interrupts, st.irqs.Keys)
  {
    assert ListOk(st, st.objs[d].interrupts);
  }

  lemma SameFitting(st: State, st1: State)
    requires AllFitting(st) && st1.irqs == st.irqs
    ensures AllFitting(st1)
  {
    forall x | x in st1.irqs
      ensures Fitting(st1, x)
    {
      assert Fitting(st, x);
    }
  }

  /** One object of a drain: what left it, heaviest first, and, when the arithmetic is `exact`, what
      that amounts to and why the rest stayed. */
  ghost predicate ObjectDrained(st: State, s: Stats, st2: State, s2: Stats, d: TopoObj, out: seq<IrqInfo>, exact: bool)
    requires d in st.objs && forall i | 0 <= i < |out| :: out[i] in st.irqs
  {
    && Drained(st, st2, d, out) && SameCounts(s, s2) && HeaviestFirst(st.irqs, out)
    && (!(st.objs[d].load > s.minLoad && |st.objs[d].interrupts| > 1) ==> out == [] && s2 == s)
    && (exact ==>
          && s2.minLoad == s.minLoad + Total(st.irqs, out)
          && (st.objs[d].load > s.minLoad && |st.objs[d].interrupts| > 1 ==>
                && s2.adjustment + Total(st.irqs, out) == st.objs[d].load
                && s2.adjustment > s2.minLoad
                && forall q | q in st2.irqs && st2.irqs[q].owner == d :: Kept(st2, s2, d, q)))
  }

  /** Whatever the loads, draining an object keeps the invariants, takes only movable
      IRQs off it, not all, and no subtraction wraps.  When the object's load and the
      minimum add up to less than 2^64 nothing wraps at all: the loads that leave the
      object add up to what its adjusted load loses and the minimum gains; the adjusted
      load stays above the minimum; and when it ends no IRQ left could follow. */
  lemma DrainObjectDoes(cfg: Config, sane: bool, st: State, s: Stats, d: TopoObj, st2: State, s2: Stats) returns (out: seq<IrqInfo>)
    requires Held(cfg, st, sane) && Ready(cfg, st) && d in st.objs && (st2, s2) == DrainObject(cfg, st, s, d)
    ensures forall i | 0 <= i < |out| :: out[i] in st.irqs
    ensures Held(cfg, st2, sane) && ObjectDrained(st, s, st2, s2, d, out, sane && st.objs[d].load + s.minLoad < TWO64)
    ensures sane ==> DrainFits(cfg, st, s, d, st.objs[d].load + s.minLoad < TWO64)
    ensures sane && st.objs[d].load < LIMIT && s.minLoad < LIMIT ==> s2.minLoad < LIMIT
  {
    hide *;
    var exact := sane && st.objs[d].load + s.minLoad < TWO64;
    if !(st.objs[d].load > s.minLoad && |st.objs[d].interrupts| > 1) {
      out := [];
      DrainSkips(cfg, st, s, d, exact);
      return;
    }
    var st1 := SortObject(cfg, st, d);
    DrainObjectIs(cfg, st, s, d, st1);
    SortObjectDoes(cfg, sane, st, d, st1);
    FrameOf(st, st1);
    var start := s.(adjustment := st.objs[d].load);
    SameObjectLoad(st, st1, d);
    HeldParts(cfg, sane, st1);
    OwnedLists(st1);
    if sane {
      DrainStarts(cfg, st1, d);
    }
    StartFits(s, st.objs[d].load);
    ListIsOnObject(cfg, st1, d);
    var qs := st1.objs[d].interrupts;
    out := CandidatesDo(cfg, sane, st1, start, d, qs, st2, s2);
    DrainedKeys(st1, st2, d, out);
    DrainedSorted(st, st1, st2, d, out);
    if exact {
      ExhaustedAll(st1, st2, s2, d, out);
      DrainEnds(st, s, st2, s2, d, out);
    } else {
      DrainEndsBare(st, s, st2, s2, d, out);
    }
  }

  lemma StartFits(s: Stats, load: nat)
    ensures SumFits(s.(adjustment := load)) <==> load + s.minLoad < TWO64
    ensures load < LIMIT && s.minLoad < LIMIT ==> load + s.minLoad < TWO64
  {
  }

  lemma DrainSkips(cfg: Config, st: State, s: Stats, d: TopoObj, exact: bool)
    requires Ready(cfg, st) && d in st.objs && !(st.objs[d].load > s.minLoad && |st.objs[d].interrupts| > 1)
    ensures DrainObject(cfg, st, s, d) == (st, s) && ObjectDrained(st, s, st, s, d, [], exact)
    ensures DrainFits(cfg, st, s, d, true) && DrainFits(cfg, st, s, d, false)
  {
    hide Ready, Drained, Kept;
    NoneOff(st, d);
    NoneFirst(st.irqs);
  }

  lemma DrainObjectIs(cfg: Config, st: State, s: Stats, d: TopoObj, st1: State)
    requires Ready(cfg, st) && d in st.objs && st1 == SortObject(cfg, st, d)
    requires st.objs[d].load > s.minLoad && |st.objs[d].interrupts| > 1
    ensures Ready(cfg, st1) && d in st1.objs && forall q | q in st1.objs[d].interrupts :: q in st1.irqs
    ensures DrainObject(cfg, st, s, d) == MoveCandidates(cfg, st1, s.(adjustment := st.objs[d].load), st1.objs[d].interrupts)
    ensures forall both: bool :: DrainFits(cfg, st, s, d, both) <==>
      CandidatesFit(cfg, st1, s.(adjustment := st.objs[d].load), st1.objs[d].interrupts, both)
  {
    hide Ready, SortObject, MoveCandidates, CandidatesFit;
  }

  lemma DrainStarts(cfg: Config, st: State, d: TopoObj)
    requires DrainSafe(st) && d in st.objs
    ensures forall i | 0 <= i < |st.objs[d].interrupts| :: st.objs[d].interrupts[i] in st.irqs
    ensures Heavy(st.irqs, st.objs[d].interrupts) <= st.objs[d].load
  {
  }

  lemma SameObjectLoad(st: State, st1: State, d: TopoObj)
    requires SameLoads(st, st1) && d in st.objs
    ensures d in st1.objs && st1.objs[d].load == st.objs[d].load
  {
  }

  lemma DrainedSorted(st: State, st1: State, st2: State, d: TopoObj, out: seq<IrqInfo>)
    requires Drained(st1, st2, d, out) && SameLoads(st, st1) && st1.irqs == st.irqs && st1.rebalance == st.rebalance && d in st.objs
    requires forall o, x | o in st.objs :: x in st1.objs[o].interrupts <==> x in st.objs[o].interrupts
    requires forall p | p in st.objs && p != d :: st1.objs[p].interrupts == st.objs[p].interrupts
    requires st.objs[d].interrupts != [] ==> st1.objs[d].interrupts != []
    ensures Drained(st, st2, d, out)
  {
    hide MayLeave;
  }

  lemma ExhaustedAll(st1: State, st2: State, s2: Stats, d: TopoObj, out: seq<IrqInfo>)
    requires d in st1.objs && Drained(st1, st2, d, out) && Exhausted(st2, s2, d, st1.objs[d].interrupts)
    requires forall q | q in st1.irqs :: q in st1.objs[d].interrupts <==> st1.irqs[q].owner == d
    ensures d in st2.objs && forall q | q in st2.irqs && st2.irqs[q].owner == d :: Kept(st2, s2, d, q)
  {
    hide Kept, MayLeave;
  }

  lemma DrainEnds(st: State, s: Stats, st2: State, s2: Stats, d: TopoObj, out: seq<IrqInfo>)
    requires d in st.objs && st.objs[d].load > s.minLoad && |st.objs[d].interrupts| > 1 && Drained(st, st2, d, out)
    requires (forall i | 0 <= i < |out| :: out[i] in st.irqs) && HeaviestFirst(st.irqs, out)
    requires Shifted(s.(adjustment := st.objs[d].load), s2, Total(st.irqs, out))
    requires d in st2.objs && forall q | q in st2.irqs && st2.irqs[q].owner == d :: Kept(st2, s2, d, q)
    ensures ObjectDrained(st, s, st2, s2, d, out, true) && (st.objs[d].load < LIMIT ==> s2.minLoad < LIMIT)
  {
    hide Drained, Kept, HeaviestFirst;
  }

  lemma DrainEndsBare(st: State, s: Stats, st2: State, s2: Stats, d: TopoObj, out: seq<IrqInfo>)
    requires d in st.objs && st.objs[d].load > s.minLoad && |st.objs[d].interrupts| > 1 && Drained(st, st2, d, out)
    requires (forall i | 0 <= i < |out| :: out[i] in st.irqs) && HeaviestFirst(st.irqs, out)
    requires SameCounts(s.(adjustment := st.objs[d].load), s2)
    ensures ObjectDrained(st, s, st2, s2, d, out, false)
  {
    hide Drained, Kept, HeaviestFirst;
  }
}
