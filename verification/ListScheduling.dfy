/** How well place_irq_in_object spreads load: the list-scheduling bound. */
module ListScheduling {
  import opened MergeSort
  import opened Irqs
  import opened Ownership
  import opened Tree
  import opened Placement
  import opened PlacementProofs
  import opened PlacementLoads

  /** The children of d that take any IRQ without a SUBSET hint. */
  ghost function Takers(objs: map<TopoObj, ObjState>, cs: seq<TopoObj>): (r: seq<TopoObj>)
    requires forall i | 0 <= i < |cs| :: cs[i] in objs
    ensures forall i | 0 <= i < |r| :: r[i] in objs && r[i] in cs && !objs[r[i]].powersave
  {
    if cs == [] then []
    else (if objs[cs[0]].powersave then [] else [cs[0]]) + Takers(objs, cs[1..])
  }

  lemma {:induction false} AllTakers(objs: map<TopoObj, ObjState>, cs: seq<TopoObj>)
    requires (forall i | 0 <= i < |cs| :: cs[i] in objs) && NoDup(cs)
    ensures NoDup(Takers(objs, cs))
    ensures forall c | c in cs && !objs[c].powersave :: c in Takers(objs, cs)
  {
    if cs != [] {
      AllTakers(objs, cs[1..]);
      assert cs[0] !in cs[1..];
    }
  }

  lemma {:induction false} SameTakerList(objs: map<TopoObj, ObjState>, objs': map<TopoObj, ObjState>, cs: seq<TopoObj>)
    requires (forall i | 0 <= i < |cs| :: cs[i] in objs) && objs'.Keys == objs.Keys
    requires forall o | o in objs :: objs'[o].powersave == objs[o].powersave
    ensures Takers(objs', cs) == Takers(objs, cs)
  {
    if cs != [] {
      SameTakerList(objs, objs', cs[1..]);
    }
  }

  ghost function TotalLoad(objs: map<TopoObj, ObjState>, cs: seq<TopoObj>): nat
    requires forall i | 0 <= i < |cs| :: cs[i] in objs
  {
    if cs == [] then 0 else objs[cs[0]].load + TotalLoad(objs, cs[1..])
  }

  lemma {:induction false} LeastTimesCount(objs: map<TopoObj, ObjState>, cs: seq<TopoObj>, least: nat)
    requires forall i | 0 <= i < |cs| :: cs[i] in objs && least <= objs[cs[i]].load
    ensures |cs| * least <= TotalLoad(objs, cs)
  {
    if cs != [] {
      LeastTimesCount(objs, cs[1..], least);
      assert |cs| * least == least + (|cs| - 1) * least;
    }
  }

  lemma {:induction false} TotalGrows(objs: map<TopoObj, ObjState>, objs': map<TopoObj, ObjState>, cs: seq<TopoObj>, c: TopoObj, extra: nat)
    requires (forall i | 0 <= i < |cs| :: cs[i] in objs) && NoDup(cs) && objs'.Keys == objs.Keys
    requires forall o | o in objs :: objs'[o].load == objs[o].load + (if o == c then extra else 0)
    ensures TotalLoad(objs', cs) == TotalLoad(objs, cs) + (if c in cs then extra else 0)
  {
    if cs != [] {
      TotalGrows(objs, objs', cs[1..], c, extra);
      assert cs[0] !in cs[1..];
    }
  }

  /** A child carries no more than `top`, or no more than its share of the total plus most of one IRQ. */
  ghost predicate Balanced(objs: map<TopoObj, ObjState>, cs: seq<TopoObj>, top: nat, pmax: nat)
    requires forall i | 0 <= i < |cs| :: cs[i] in objs
  {
    forall i | 0 <= i < |cs| ::
      objs[cs[i]].load <= top || |cs| * objs[cs[i]].load <= TotalLoad(objs, cs) + (|cs| - 1) * pmax
  }

  ghost predicate Spread(objs: map<TopoObj, ObjState>, cs: seq<TopoObj>, gap: nat)
    requires forall i | 0 <= i < |cs| :: cs[i] in objs
  {
    forall i, j | 0 <= i < |cs| && 0 <= j < |cs| :: objs[cs[i]].load <= objs[cs[j]].load + gap
  }

  ghost predicate GrewBy(objs: map<TopoObj, ObjState>, objs': map<TopoObj, ObjState>, c: TopoObj, extra: nat)
  {
    && objs'.Keys == objs.Keys
    && (forall o | o in objs :: objs'[o].load == objs[o].load + (if o == c then extra else 0))
    && (forall o | o in objs :: objs'[o].powersave == objs[o].powersave)
  }

  lemma FairShare(m: nat, load: nat, extra: nat, pmax: nat, total: nat)
    requires m >= 1 && m * load <= total && extra <= pmax
    ensures m * (load + extra) <= total + extra + (m - 1) * pmax
  {
    assert m * (load + extra) == m * load + m * extra;
    assert m * extra == extra + (m - 1) * extra;
    assert (m - 1) * extra <= (m - 1) * pmax;
  }

  /** Giving one IRQ to a least loaded child keeps the bounds. */
  lemma OneKeepsBalance(objs: map<TopoObj, ObjState>, objs': map<TopoObj, ObjState>, cs: seq<TopoObj>, k: nat, extra: nat,
                        top: nat, pmax: nat, gap: nat)
    requires (forall i | 0 <= i < |cs| :: cs[i] in objs) && NoDup(cs) && k < |cs| && GrewBy(objs, objs', cs[k], extra)
    requires (forall i | 0 <= i < |cs| :: objs[cs[k]].load <= objs[cs[i]].load) && extra <= pmax <= gap
    requires Balanced(objs, cs, top, pmax) && Spread(objs, cs, gap)
    ensures Balanced(objs', cs, top, pmax) && Spread(objs', cs, gap)
  {
    var c := cs[k];
    TotalGrows(objs, objs', cs, c, extra);
    LeastTimesCount(objs, cs, objs[c].load);
    FairShare(|cs|, objs[c].load, extra, pmax, TotalLoad(objs, cs));
    forall i | 0 <= i < |cs|
      ensures objs'[cs[i]].load <= top || |cs| * objs'[cs[i]].load <= TotalLoad(objs', cs) + (|cs| - 1) * pmax
    {
      if i != k {
        assert objs'[cs[i]].load == objs[cs[i]].load;
      }
    }
  }

  ghost predicate NoSubsetHint(q: IrqInfo) {
    q.hintPolicy == HintSubset ==> q.affinityHint == {}
  }

  /** q has moved and is not yet as deep as it goes. */
  ghost predicate Pushable(st: State, d: TopoObj, q: IrqInfo)
    requires q in st.irqs
  {
    st.irqs[q].moved && !AtLevel(d.kind, q.level)
  }

  /** Without a SUBSET hint every child that does not save power is eligible. */
  lemma EligibleIsAwake(cfg: Config, st: State, q: IrqInfo, c: TopoObj)
    requires c in st.objs && NoSubsetHint(q) && c.kind != ObjNode
    ensures Eligible(cfg, st, q, c) <==> !st.objs[c].powersave
  {
  }

  lemma MovedGrows(st: State, st1: State, d: TopoObj, c: TopoObj, q: IrqInfo)
    requires d in st.objs && c in st.objs && q in st.irqs
    requires MovedTo(st, st1, On(d), On(c), q, st.irqs[q].load) && st.objs[c].load + st.irqs[q].load < TWO64
    ensures GrewBy(st.objs, st1.objs, c, st.irqs[q].load)
  {
    hide MovedTo;
    MovedParts(st, st1, On(d), On(c), q, st.irqs[q].load);
    LoadAfter(st, st1, On(d), c, q, st.irqs[q].load);
  }

  ghost predicate Childs(cfg: Config, st: State, d: TopoObj) {
    && d in cfg.children && NoDup(cfg.children[d])
    && forall i | 0 <= i < |cfg.children[d]| :: cfg.children[d][i] in st.objs && cfg.children[d][i].kind != ObjNode
  }

  lemma GoodChilds(cfg: Config, st: State, d: TopoObj)
    requires Good(cfg, st) && d in st.objs
    ensures Childs(cfg, st, d)
  {
    GoodParts(cfg, st);
    InvParts(cfg, st);
    KeysFromInv(cfg, st, d);
    assert LinksOk(cfg, st.objs.Keys);
    forall i | 0 <= i < |cfg.children[d]|
      ensures cfg.children[d][i] in st.objs && cfg.children[d][i].kind != ObjNode
    {
      assert cfg.children[d][i] in cfg.children[d];
    }
  }

  ghost function TakersOf(cfg: Config, st: State, d: TopoObj): (r: seq<TopoObj>)
    requires Childs(cfg, st, d)
    ensures forall i | 0 <= i < |r| :: r[i] in st.objs
  {
    Takers(st.objs, cfg.children[d])
  }

  lemma BestIsLeast(cfg: Config, st: State, d: TopoObj, q: IrqInfo, c: TopoObj) returns (k: nat)
    requires Childs(cfg, st, d) && NoSubsetHint(q)
    requires forall e | e in cfg.children[d] :: e in st.objs
    requires BestChild(cfg, st, d, q, c)
    ensures k < |TakersOf(cfg, st, d)| && TakersOf(cfg, st, d)[k] == c && NoDup(TakersOf(cfg, st, d))
    ensures forall i | 0 <= i < |TakersOf(cfg, st, d)| :: st.objs[c].load <= st.objs[TakersOf(cfg, st, d)[i]].load
  {
    var cs := TakersOf(cfg, st, d);
    AllTakers(st.objs, cfg.children[d]);
    EligibleIsAwake(cfg, st, q, c);
    k :| 0 <= k < |cs| && cs[k] == c;
    forall i | 0 <= i < |cs|
      ensures st.objs[c].load <= st.objs[cs[i]].load
    {
      EligibleIsAwake(cfg, st, q, cs[i]);
      assert AsGood(st, c, cs[i]);
    }
  }

  ghost predicate Bounds(cfg: Config, st: State, d: TopoObj, top: nat, pmax: nat, gap: nat)
    requires Childs(cfg, st, d)
  {
    Balanced(st.objs, TakersOf(cfg, st, d), top, pmax) && Spread(st.objs, TakersOf(cfg, st, d), gap)
  }

  lemma PushOneBalances(cfg: Config, st: State, d: TopoObj, q: IrqInfo, st1: State, top: nat, pmax: nat, gap: nat)
    requires Good(cfg, st) && d in st.objs && q in st.irqs && st.irqs[q].owner == d && st1 == PlaceIrq(cfg, st, d, q)
    requires (Pushable(st, d, q) ==> NoSubsetHint(q) && st.irqs[q].load <= pmax) && pmax <= gap
    requires Childs(cfg, st, d) && Bounds(cfg, st, d, top, pmax, gap)
    ensures Childs(cfg, st1, d) && Bounds(cfg, st1, d, top, pmax, gap)
  {
    hide Good, Inv, Ready, PlaceIrq, PlaceIrqSafe, MovedTo, Stays, Balanced, Spread, BestChild, LoadsOk;
    GoodParts(cfg, st);
    IrqSafe(cfg, st, d, q);
    var c := PlaceIrqDoes(cfg, st, d, q);
    if c != null {
      RoomFor(cfg, st, c, q);
      MovedGrows(st, st1, d, c, q);
      var k := BestIsLeast(cfg, st, d, q, c);
      OneKeepsBalance(st.objs, st1.objs, TakersOf(cfg, st, d), k, st.irqs[q].load, top, pmax, gap);
      SameTakerList(st.objs, st1.objs, cfg.children[d]);
    }
  }

  /** Loads and hints of the IRQs of qs that can be pushed down from d. */
  ghost predicate Light(st: State, d: TopoObj, qs: seq<IrqInfo>, pmax: nat) {
    forall i | 0 <= i < |qs| ::
      qs[i] in st.irqs && (Pushable(st, d, qs[i]) ==> NoSubsetHint(qs[i]) && st.irqs[qs[i]].load <= pmax)
  }

  lemma LightRest(cfg: Config, st: State, st1: State, d: TopoObj, qs: seq<IrqInfo>, pmax: nat)
    requires d in cfg.children && (forall c | c in cfg.children[d] :: c in st.objs)
    requires OnObject(st, d, qs) && qs != [] && SameFrame(st, st1) && Pushed(cfg, st, st1, d, [qs[0]])
    requires Light(st, d, qs, pmax)
    ensures Light(st1, d, qs[1..], pmax)
    ensures Pushable(st, d, qs[0]) ==> NoSubsetHint(qs[0]) && st.irqs[qs[0]].load <= pmax
  {
    forall i | 0 <= i < |qs[1..]|
      ensures st1.irqs[qs[1..][i]] == st.irqs[qs[i + 1]]
    {
      assert qs[0] != qs[i + 1];
    }
  }

  lemma {:induction false} PushAllBalances(cfg: Config, st: State, d: TopoObj, qs: seq<IrqInfo>, st2: State, top: nat, pmax: nat, gap: nat)
    requires Good(cfg, st) && d in st.objs && OnObject(st, d, qs) && Light(st, d, qs, pmax) && pmax <= gap
    requires (forall q | q in qs :: q in st.irqs) && st2 == PlaceIrqs(cfg, st, d, qs)
    requires Childs(cfg, st, d) && Bounds(cfg, st, d, top, pmax, gap)
    ensures Childs(cfg, st2, d) && Bounds(cfg, st2, d, top, pmax, gap)
    decreases |qs|
  {
    hide *;
    GoodParts(cfg, st);
    KeysFromInv(cfg, st, d);
    if qs == [] {
      PushNone(cfg, st, d);
      return;
    }
    var q := qs[0];
    var st1 := PlaceIrq(cfg, st, d, q);
    PlaceIrqsStep(cfg, st, d, qs);
    OnObjectFirst(st, d, qs);
    PushOneGood(cfg, st, d, q, st1);
    PushOne(cfg, st, d, q, st1);
    OnObjectRest(cfg, st, st1, d, qs);
    LightRest(cfg, st, st1, d, qs, pmax);
    PushOneBalances(cfg, st, d, q, st1, top, pmax, gap);
    FrameKeys(st, st1);
    PushAllBalances(cfg, st1, d, qs[1..], st2, top, pmax, gap);
  }

  /** The list-scheduling bound.  When place_irq_in_object pushes IRQs without
      SUBSET hints from d to its m children that do not save power, no child ends
      above the larger of the highest initial load and
      (total load afterwards + (m - 1) * pmax) / m; and no two of them differ by
      more than the larger of the initial spread and pmax. */
  lemma SpreadsLoad(cfg: Config, st: State, d: TopoObj, st': State, top: nat, pmax: nat, gap: nat)
    requires Good(cfg, st) && d in st.objs && st' == PlaceObject(cfg, st, d)
    requires Light(st, d, st.objs[d].interrupts, pmax)
    requires forall c | c in cfg.children[d] && c in st.objs && !st.objs[c].powersave :: st.objs[c].load <= top
    requires forall a, b | a in cfg.children[d] && b in cfg.children[d] && a in st.objs && b in st.objs
                           && !st.objs[a].powersave && !st.objs[b].powersave :: st.objs[a].load <= st.objs[b].load + gap
    ensures Childs(cfg, st, d) && Childs(cfg, st', d) && TakersOf(cfg, st', d) == TakersOf(cfg, st, d)
    ensures forall c | c in TakersOf(cfg, st', d) ::
      var m := |TakersOf(cfg, st', d)|;
      st'.objs[c].load <= top || m * st'.objs[c].load <= TotalLoad(st'.objs, TakersOf(cfg, st', d)) + (m - 1) * pmax
    ensures forall a, b | a in TakersOf(cfg, st', d) && b in TakersOf(cfg, st', d) ::
      st'.objs[a].load <= st'.objs[b].load + (if gap < pmax then pmax else gap)
  {
    hide *;
    var widest := if gap < pmax then pmax else gap;
    GoodChilds(cfg, st, d);
    GoodParts(cfg, st);
    InvParts(cfg, st);
    ListIsOnObject(cfg, st, d);
    KnownList(st, d);
    PlaceObjectIs(cfg, st, d);
    ObjectGood(cfg, st, d, st');
    StartBounds(cfg, st, d, top, pmax, gap, widest);
    PlaceObjectDoes(cfg, st, d, st');
    PushAllBalances(cfg, st, d, st.objs[d].interrupts, st', top, pmax, widest);
    FrameTakers(cfg, st, st', d);
    BoundsMean(cfg, st', d, top, pmax, widest);
  }

  lemma StartBounds(cfg: Config, st: State, d: TopoObj, top: nat, pmax: nat, gap: nat, widest: nat)
    requires Childs(cfg, st, d) && gap <= widest
    requires forall c | c in cfg.children[d] && c in st.objs && !st.objs[c].powersave :: st.objs[c].load <= top
    requires forall a, b | a in cfg.children[d] && b in cfg.children[d] && a in st.objs && b in st.objs
                           && !st.objs[a].powersave && !st.objs[b].powersave :: st.objs[a].load <= st.objs[b].load + gap
    ensures Bounds(cfg, st, d, top, pmax, widest)
  {
  }

  lemma FrameTakers(cfg: Config, st: State, st': State, d: TopoObj)
    requires Childs(cfg, st, d) && SameFrame(st, st')
    ensures Childs(cfg, st', d) && TakersOf(cfg, st', d) == TakersOf(cfg, st, d)
  {
    SameTakerList(st.objs, st'.objs, cfg.children[d]);
  }

  lemma BoundsMean(cfg: Config, st: State, d: TopoObj, top: nat, pmax: nat, gap: nat)
    requires Childs(cfg, st, d) && Bounds(cfg, st, d, top, pmax, gap)
    ensures forall c | c in TakersOf(cfg, st, d) ::
      var m := |TakersOf(cfg, st, d)|;
      st.objs[c].load <= top || m * st.objs[c].load <= TotalLoad(st.objs, TakersOf(cfg, st, d)) + (m - 1) * pmax
    ensures forall a, b | a in TakersOf(cfg, st, d) && b in TakersOf(cfg, st, d) :: st.objs[a].load <= st.objs[b].load + gap
  {
  }

  // ---- what the order of the list adds ----

  /** q's object exceeds no child that does not save power by more than q's load. */
  ghost predicate Topped(cfg: Config, st: State, d: TopoObj, q: IrqInfo)
    requires Childs(cfg, st, d)
  {
    q in st.irqs && st.irqs[q].owner != null && st.irqs[q].owner in st.objs
    && forall b | b in TakersOf(cfg, st, d) :: st.objs[st.irqs[q].owner].load <= st.objs[b].load + st.irqs[q].load
  }

  ghost predicate AllTopped(cfg: Config, st: State, d: TopoObj, done: seq<IrqInfo>)
    requires Childs(cfg, st, d)
  {
    forall x | x in done :: Topped(cfg, st, d, x)
  }

  /** Of the IRQs that can be pushed down, none is followed by a heavier one. */
  ghost predicate Descending(st: State, d: TopoObj, qs: seq<IrqInfo>) {
    forall i, j | 0 <= i < j < |qs| && qs[i] in st.irqs && qs[j] in st.irqs && Pushable(st, d, qs[i]) && Pushable(st, d, qs[j]) ::
      st.irqs[qs[i]].load >= st.irqs[qs[j]].load
  }

  /** Those already pushed down are at least as heavy as those to come. */
  ghost predicate Heavier(st: State, d: TopoObj, done: seq<IrqInfo>, qs: seq<IrqInfo>) {
    forall x, q | x in done && q in qs && x in st.irqs && q in st.irqs && Pushable(st, d, q) :: st.irqs[x].load >= st.irqs[q].load
  }

  /** A list of one class in the order of sort_irqs is such a list. */
  lemma OneClassDescends(st: State, d: TopoObj, qs: seq<IrqInfo>)
    requires HeaviestFirst(st.irqs, qs) && forall i, j | 0 <= i < |qs| && 0 <= j < |qs| :: qs[i].cls == qs[j].cls
    ensures Descending(st, d, qs)
  {
    forall i, j | 0 <= i < j < |qs| && qs[i] in st.irqs && qs[j] in st.irqs
      ensures st.irqs[qs[i]].load >= st.irqs[qs[j]].load
    {
      assert Precedes(st.irqs, qs[i], qs[j]);
    }
  }

  /** One more IRQ, no heavier than those before it, on a least loaded child. */
  lemma OneTopped(cfg: Config, st: State, st1: State, d: TopoObj, c: TopoObj, q: IrqInfo, done: seq<IrqInfo>)
    requires Childs(cfg, st, d) && Childs(cfg, st1, d) && TakersOf(cfg, st1, d) == TakersOf(cfg, st, d) && q in st.irqs
    requires c in st.objs && GrewBy(st.objs, st1.objs, c, st.irqs[q].load)
    requires forall b | b in TakersOf(cfg, st, d) :: st.objs[c].load <= st.objs[b].load
    requires st1.irqs == st.irqs[q := st.irqs[q].(moved := true, owner := c)]
    requires AllTopped(cfg, st, d, done) && q !in done && forall x | x in done && x in st.irqs :: st.irqs[x].load >= st.irqs[q].load
    ensures AllTopped(cfg, st1, d, done + [q])
  {
    hide Childs;
    forall x | x in done + [q]
      ensures Topped(cfg, st1, d, x)
    {
      if x != q {
        assert x in done;
        assert Topped(cfg, st, d, x);
      }
    }
  }

  lemma PushOneTopped(cfg: Config, st: State, d: TopoObj, q: IrqInfo, st1: State, done: seq<IrqInfo>)
    returns (done1: seq<IrqInfo>)
    requires Good(cfg, st) && d in st.objs && q in st.irqs && st.irqs[q].owner == d && st1 == PlaceIrq(cfg, st, d, q)
    requires Childs(cfg, st, d) && AllTopped(cfg, st, d, done) && q !in done
    requires Pushable(st, d, q) ==> NoSubsetHint(q) && forall x | x in done && x in st.irqs :: st.irqs[x].load >= st.irqs[q].load
    ensures Childs(cfg, st1, d) && AllTopped(cfg, st1, d, done1)
    ensures done1 == (if st1.irqs.Keys == st.irqs.Keys && st1.irqs[q].owner == d then done else done + [q])
    ensures done1 != done ==> Pushable(st, d, q)
  {
    hide Good, Inv, Ready, PlaceIrq, PlaceIrqSafe, MovedTo, Stays, AllTopped, BestChild, LoadsOk;
    GoodParts(cfg, st);
    IrqSafe(cfg, st, d, q);
    var c := PlaceIrqDoes(cfg, st, d, q);
    done1 := done;
    if c != null {
      RoomFor(cfg, st, c, q);
      MovedGrows(st, st1, d, c, q);
      MovedParts(st, st1, On(d), On(c), q, st.irqs[q].load);
      var k := BestIsLeast(cfg, st, d, q, c);
      SameTakerList(st.objs, st1.objs, cfg.children[d]);
      LeastOfAll(cfg, st, d, c);
      OneTopped(cfg, st, st1, d, c, q, done);
      done1 := done + [q];
    }
  }

  lemma LeastOfAll(cfg: Config, st: State, d: TopoObj, c: TopoObj)
    requires Childs(cfg, st, d) && c in st.objs
    requires forall i | 0 <= i < |TakersOf(cfg, st, d)| :: st.objs[c].load <= st.objs[TakersOf(cfg, st, d)[i]].load
    ensures forall b | b in TakersOf(cfg, st, d) :: st.objs[c].load <= st.objs[b].load
  {
    hide Childs, TakersOf;
  }

  lemma HeavierRest(cfg: Config, st: State, st1: State, d: TopoObj, qs: seq<IrqInfo>, done: seq<IrqInfo>, done1: seq<IrqInfo>)
    requires d in cfg.children && (forall c | c in cfg.children[d] :: c in st.objs)
    requires OnObject(st, d, qs) && qs != [] && SameFrame(st, st1) && Pushed(cfg, st, st1, d, [qs[0]])
    requires Descending(st, d, qs) && Heavier(st, d, done, qs)
    requires done1 == done || (done1 == done + [qs[0]] && Pushable(st, d, qs[0]))
    ensures Descending(st1, d, qs[1..]) && Heavier(st1, d, done1, qs[1..])
  {
    forall i | 0 <= i < |qs[1..]|
      ensures st1.irqs[qs[1..][i]] == st.irqs[qs[i + 1]] && qs[1..][i] == qs[i + 1] && qs[i + 1] in st.irqs
    {
      assert qs[0] != qs[i + 1];
    }
  }

  lemma {:induction false} PushAllTopped(cfg: Config, st: State, d: TopoObj, qs: seq<IrqInfo>, st2: State, pmax: nat, done: seq<IrqInfo>)
    requires Good(cfg, st) && d in st.objs && OnObject(st, d, qs) && Light(st, d, qs, pmax)
    requires (forall q | q in qs :: q in st.irqs) && st2 == PlaceIrqs(cfg, st, d, qs)
    requires Childs(cfg, st, d) && AllTopped(cfg, st, d, done) && Descending(st, d, qs) && Heavier(st, d, done, qs)
    requires forall q | q in qs :: q !in done
    ensures Childs(cfg, st2, d) && AllTopped(cfg, st2, d, done)
    ensures forall q | q in qs && q in st2.irqs && st2.irqs[q].owner != d :: Topped(cfg, st2, d, q)
    decreases |qs|
  {
    hide *;
    GoodParts(cfg, st);
    KeysFromInv(cfg, st, d);
    if qs == [] {
      PushNone(cfg, st, d);
      return;
    }
    var q, rest := qs[0], qs[1..];
    var st1 := PlaceIrq(cfg, st, d, q);
    PlaceIrqsStep(cfg, st, d, qs);
    OnObjectFirst(st, d, qs);
    PushOneGood(cfg, st, d, q, st1);
    PushOne(cfg, st, d, q, st1);
    OnObjectRest(cfg, st, st1, d, qs);
    LightRest(cfg, st, st1, d, qs, pmax);
    HeavierFirst(st, d, done, qs);
    var done1 := PushOneTopped(cfg, st, d, q, st1, done);
    HeavierRest(cfg, st, st1, d, qs, done, done1);
    FrameKeys(st, st1);
    PushAllTopped(cfg, st1, d, rest, st2, pmax, done1);
    GoodParts(cfg, st1);
    PushAllGood(cfg, st1, d, rest, st2);
    PushAll(cfg, st1, d, rest, st2);
    NotInRest(cfg, st1, st2, d, q, rest);
    FirstTopped(cfg, st, st1, st2, d, q, rest, done, done1);
  }

  lemma HeavierFirst(st: State, d: TopoObj, done: seq<IrqInfo>, qs: seq<IrqInfo>)
    requires qs != [] && Heavier(st, d, done, qs)
    ensures qs[0] in st.irqs && Pushable(st, d, qs[0]) ==> forall x | x in done && x in st.irqs :: st.irqs[x].load >= st.irqs[qs[0]].load
  {
  }

  lemma FirstTopped(cfg: Config, st: State, st1: State, st2: State, d: TopoObj, q: IrqInfo, rest: seq<IrqInfo>, done: seq<IrqInfo>, done1: seq<IrqInfo>)
    requires Childs(cfg, st2, d) && AllTopped(cfg, st2, d, done1)
    requires q in st.irqs && st1.irqs.Keys == st.irqs.Keys
    requires done1 == if st1.irqs.Keys == st.irqs.Keys && st1.irqs[q].owner == d then done else done + [q]
    requires st1.irqs[q].owner == d ==> q in st2.irqs && st2.irqs[q].owner == d
    ensures AllTopped(cfg, st2, d, done)
    ensures q in st2.irqs && st2.irqs[q].owner != d ==> Topped(cfg, st2, d, q)
  {
    hide Childs, Topped;
    if done1 != done {
      assert forall x | x in done :: x in done1;
      assert q in done1;
    }
  }

  lemma NotInRest(cfg: Config, st1: State, st2: State, d: TopoObj, q: IrqInfo, rest: seq<IrqInfo>)
    requires SameFrame(st1, st2) && d in cfg.children && forall c | c in cfg.children[d] :: c in st1.objs
    requires Pushed(cfg, st1, st2, d, rest) && q !in rest && q in st1.irqs
    ensures q in st2.irqs && st2.irqs[q] == st1.irqs[q]
  {
  }

  /** When the list of d is heaviest first, the order of sort_irqs within a class, and its IRQs
      have no SUBSET hints, then whatever the loads before: a child of d exceeds no other that
      does not save power by more than the lightest of the IRQs pushed down to it. */
  lemma SpreadsByLightest(cfg: Config, st: State, d: TopoObj, st': State, pmax: nat, q: IrqInfo, b: TopoObj)
    requires Good(cfg, st) && d in st.objs && st' == PlaceObject(cfg, st, d)
    requires Light(st, d, st.objs[d].interrupts, pmax) && Descending(st, d, st.objs[d].interrupts)
    requires q in st.irqs && st.irqs[q].owner == d && q in st'.irqs && st'.irqs[q].owner != d
    requires b in st.objs && b in cfg.children[d] && !st.objs[b].powersave
    ensures st'.irqs[q].owner != null && st'.irqs[q].owner in st'.objs && b in st'.objs
    ensures st'.objs[st'.irqs[q].owner].load <= st'.objs[b].load + st'.irqs[q].load
  {
    hide *;
    GoodChilds(cfg, st, d);
    GoodParts(cfg, st);
    InvParts(cfg, st);
    ListIsOnObject(cfg, st, d);
    KnownList(st, d);
    PlaceObjectIs(cfg, st, d);
    ObjectGood(cfg, st, d, st');
    PlaceObjectDoes(cfg, st, d, st');
    NoneTopped(cfg, st, d);
    PushAllTopped(cfg, st, d, st.objs[d].interrupts, st', pmax, []);
    FrameTakers(cfg, st, st', d);
    IsTaker(cfg, st, d, b);
    ToppedMeans(cfg, st', d, q, b);
  }

  lemma NoneTopped(cfg: Config, st: State, d: TopoObj)
    requires Childs(cfg, st, d) && d in st.objs
    ensures AllTopped(cfg, st, d, []) && Heavier(st, d, [], st.objs[d].interrupts)
  {
  }

  lemma IsTaker(cfg: Config, st: State, d: TopoObj, b: TopoObj)
    requires Childs(cfg, st, d) && b in cfg.children[d] && b in st.objs && !st.objs[b].powersave
    ensures b in TakersOf(cfg, st, d)
  {
    AllTakers(st.objs, cfg.children[d]);
  }

  lemma ToppedMeans(cfg: Config, st: State, d: TopoObj, q: IrqInfo, b: TopoObj)
    requires Childs(cfg, st, d) && Topped(cfg, st, d, q) && b in TakersOf(cfg, st, d)
    ensures q in st.irqs && st.irqs[q].owner != null && st.irqs[q].owner in st.objs && b in st.objs
    ensures st.objs[st.irqs[q].owner].load <= st.objs[b].load + st.irqs[q].load
  {
  }
}
