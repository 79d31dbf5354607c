/** The records of types.h and the state the balancer works on. */
module Irqs {
  import opened MergeSort

  const TWO64 := 0x1_0000_0000_0000_0000
  const ULLONG_MAX := TWO64 - 1

  /** uint64_t, and its wrapping arithmetic. */
  type U64 = n: nat | n < TWO64

  function Add64(a: nat, b: nat): U64 {
    (a + b) % TWO64
  }

  function Sub64(a: nat, b: nat): U64 {
    (a - b) % TWO64
  }

  lemma {:induction false} ModShift(z: nat, q: nat)
    ensures (z + TWO64 * q) % TWO64 == z % TWO64
  {
    if q > 0 {
      ModShift(z, q - 1);
    }
  }

  /** Wrapping early or late makes no difference. */
  lemma AddMod(a: nat, b: nat)
    ensures Add64(a % TWO64, b) == (a + b) % TWO64
  {
    ModShift(a % TWO64 + b, a / TWO64);
  }

  lemma AddMods(a: nat, b: nat)
    ensures Add64(a % TWO64, b % TWO64) == (a + b) % TWO64
  {
    AddMod(a, b);
    AddMod(b, a % TWO64);
  }

  /** BALANCE_NONE .. BALANCE_CORE: how far down the tree an IRQ is balanced. */
  datatype Level = BalanceNone | BalancePackage | BalanceCache | BalanceCore {
    function Depth(): nat {
      match this
      case BalanceNone => 0
      case BalancePackage => 1
      case BalanceCache => 2
      case BalanceCore => 3
    }
  }

  /** OBJ_TYPE_*: the levels of the tree, with their distance from the root. */
  datatype Kind = ObjNode | ObjPackage | ObjCache | ObjCpu {
    function Depth(): (d: nat)
      ensures d <= 3
    {
      match this
      case ObjNode => 0
      case ObjPackage => 1
      case ObjCache => 2
      case ObjCpu => 3
    }
  }

  datatype HintPolicy = HintIgnore | HintSubset | HintExact

  /** struct irq_info.  `addr` is the record's address, which `sort_irqs` compares. */
  class IrqInfo {
    const addr: nat
    const irq: int
    const cls: int
    const level: Level
    const hintPolicy: HintPolicy
    const affinityHint: set<nat>
    const numaNode: TopoObj
    var irqCount: nat
    var lastIrqCount: nat
    var load: U64
    var moved: bool
    var assignedObj: TopoObj?

    constructor (addr: nat, irq: int, cls: int, level: Level, hintPolicy: HintPolicy, affinityHint: set<nat>, numaNode: TopoObj)
      ensures this.addr == addr && this.irq == irq && this.cls == cls && this.level == level
      ensures this.hintPolicy == hintPolicy && this.affinityHint == affinityHint && this.numaNode == numaNode
      ensures irqCount == 0 && lastIrqCount == 0 && load == 0 && !moved && assignedObj == null
    {
      this.addr, this.irq, this.cls, this.level := addr, irq, cls, level;
      this.hintPolicy, this.affinityHint, this.numaNode := hintPolicy, affinityHint, numaNode;
      irqCount, lastIrqCount, load, moved, assignedObj := 0, 0, 0, false, null;
    }

    function Fields(): IrqState
      reads this
    {
      IrqState(irqCount, lastIrqCount, load, moved, assignedObj)
    }
  }

  /** struct topo_obj */
  class TopoObj {
    const kind: Kind
    const number: int
    const mask: set<nat>
    var load: U64
    var irqCount: nat
    var powersaveMode: bool
    var interrupts: seq<IrqInfo>
    var parent: TopoObj?
    var children: seq<TopoObj>

    constructor (kind: Kind, number: int, mask: set<nat>)
      ensures this.kind == kind && this.number == number && this.mask == mask
      ensures load == 0 && irqCount == 0 && !powersaveMode && interrupts == [] && parent == null && children == []
    {
      this.kind, this.number, this.mask := kind, number, mask;
      load, irqCount, powersaveMode, interrupts, parent, children := 0, 0, false, [], null, [];
    }

    function Fields(): ObjState
      reads this
    {
      ObjState(load, irqCount, powersaveMode, interrupts)
    }
  }

  /** The fields of an irq_info that change while the daemon runs. */
  datatype IrqState = IrqState(irqCount: nat, lastIrqCount: nat, load: U64, moved: bool, owner: TopoObj?)

  /** The fields of a topo_obj that change while the daemon runs on a fixed tree. */
  datatype ObjState = ObjState(load: U64, irqCount: nat, powersave: bool, interrupts: seq<IrqInfo>)

  /** Everything that changes: the records by identity, and the global list of
      IRQs waiting to be placed. */
  datatype State = State(irqs: map<IrqInfo, IrqState>, objs: map<TopoObj, ObjState>, rebalance: seq<IrqInfo>)

  /** What does not change between two scans of the machine. */
  datatype Config = Config(
    nodes: seq<TopoObj>, packages: seq<TopoObj>, caches: seq<TopoObj>, cpus: seq<TopoObj>,
    children: map<TopoObj, seq<TopoObj>>, parent: map<TopoObj, TopoObj?>,
    db: seq<IrqInfo>, banned: set<nat>, numaAvail: bool, powerThresh: nat)

  // ---- sort_irqs ----

  /** sort_irqs: by class, then load, then address, greatest first; never 0. */
  function CompareIrqs(a: IrqInfo, loadA: nat, b: IrqInfo, loadB: nat): (r: int) {
    if a.cls < b.cls then 1
    else if a.cls > b.cls then -1
    else if loadA < loadB then 1
    else if loadA > loadB then -1
    else if a.addr < b.addr then 1
    else -1
  }

  function IrqOrder(irqs: map<IrqInfo, IrqState>): (IrqInfo, IrqInfo) -> int {
    (a: IrqInfo, b: IrqInfo) =>
      if a in irqs && b in irqs then CompareIrqs(a, irqs[a].load, b, irqs[b].load) else 0
  }

  /** sort_irq_list */
  function SortIrqs(irqs: map<IrqInfo, IrqState>, list: seq<IrqInfo>): seq<IrqInfo> {
    Sort(list, IrqOrder(irqs))
  }

  /** Different records live at different addresses. */
  ghost predicate Addresses(irqs: set<IrqInfo>) {
    forall a, b | a in irqs && b in irqs :: a.addr == b.addr ==> a == b
  }

  /** sort_irqs is a strict total order on distinct IRQs, so sorting has one possible outcome. */
  lemma IrqOrderIsStrict(irqs: map<IrqInfo, IrqState>)
    requires Addresses(irqs.Keys)
    ensures TotalOn(IrqOrder(irqs), irqs.Keys) && StrictOn(IrqOrder(irqs), irqs.Keys)
  {
  }

  /** The greater class first; within a class the greater load; and at equal load by address. */
  ghost predicate Precedes(irqs: map<IrqInfo, IrqState>, a: IrqInfo, b: IrqInfo)
    requires a in irqs && b in irqs
  {
    || a.cls > b.cls
    || (a.cls == b.cls && irqs[a].load > irqs[b].load)
    || (a.cls == b.cls && irqs[a].load == irqs[b].load && a.addr >= b.addr)
  }

  ghost predicate HeaviestFirst(irqs: map<IrqInfo, IrqState>, list: seq<IrqInfo>) {
    forall i, j | 0 <= i < j < |list| && list[i] in irqs && list[j] in irqs :: Precedes(irqs, list[i], list[j])
  }

  lemma SortedIsHeaviestFirst(irqs: map<IrqInfo, IrqState>, list: seq<IrqInfo>)
    requires Addresses(irqs.Keys) && Within(list, irqs.Keys)
    ensures HeaviestFirst(irqs, list) ==> Sorted(list, IrqOrder(irqs))
  {
    forall i, j | 0 <= i < j < |list| && HeaviestFirst(irqs, list)
      ensures IrqOrder(irqs)(list[i], list[j]) <= 0
    {
      assert list[i] in irqs && list[j] in irqs;
    }
  }

  lemma IrqOrderIsTotal(irqs: map<IrqInfo, IrqState>)
    ensures TotalOn(IrqOrder(irqs), irqs.Keys)
  {
  }

  /** sort_irq_list puts the heaviest IRQs of the greatest class first. */
  lemma SortIrqsOrders(irqs: map<IrqInfo, IrqState>, list: seq<IrqInfo>)
    requires Within(list, irqs.Keys)
    ensures HeaviestFirst(irqs, SortIrqs(irqs, list))
  {
    var cmp := IrqOrder(irqs);
    IrqOrderIsTotal(irqs);
    SortSorted(list, irqs.Keys, cmp);
    var sorted := SortIrqs(irqs, list);
    forall i, j | 0 <= i < j < |sorted| && sorted[i] in irqs && sorted[j] in irqs
      ensures Precedes(irqs, sorted[i], sorted[j])
    {
      assert cmp(sorted[i], sorted[j]) <= 0;
    }
  }

  /** And there is one such arrangement of the records. */
  lemma SortIrqsUnique(irqs: map<IrqInfo, IrqState>, list: seq<IrqInfo>, other: seq<IrqInfo>)
    requires Addresses(irqs.Keys) && Within(list, irqs.Keys) && multiset(other) == multiset(list)
    ensures HeaviestFirst(irqs, other) <==> other == SortIrqs(irqs, list)
  {
    hide HeaviestFirst;
    var cmp := IrqOrder(irqs);
    SortIrqsOrders(irqs, list);
    if HeaviestFirst(irqs, other) {
      IrqOrderIsStrict(irqs);
      SortSorted(list, irqs.Keys, cmp);
      SortPermutes(list, cmp);
      SortWithin(list, irqs.Keys, cmp);
      forall i | 0 <= i < |other|
        ensures other[i] in irqs.Keys
      {
        assert other[i] in multiset(list);
      }
      SortedIsHeaviestFirst(irqs, other);
      SortedUnique(other, Sort(list, cmp), irqs.Keys, cmp);
    }
  }

  /** Of a list in that order, some in the same order, for the same loads. */
  lemma StillHeaviestFirst(irqs: map<IrqInfo, IrqState>, irqs': map<IrqInfo, IrqState>, list: seq<IrqInfo>)
    requires HeaviestFirst(irqs, list) && irqs'.Keys == irqs.Keys && forall q | q in irqs :: irqs'[q].load == irqs[q].load
    ensures HeaviestFirst(irqs', list)
  {
  }

  lemma DropHeaviestFirst(irqs: map<IrqInfo, IrqState>, a: seq<IrqInfo>, q: IrqInfo, b: seq<IrqInfo>)
    requires HeaviestFirst(irqs, a + ([q] + b))
    ensures HeaviestFirst(irqs, a + b)
  {
    var s, t := a + ([q] + b), a + b;
    forall i | 0 <= i < |t|
      ensures t[i] == s[if i < |a| then i else i + 1]
    {
    }
    forall i, j | 0 <= i < j < |t| && t[i] in irqs && t[j] in irqs
      ensures Precedes(irqs, t[i], t[j])
    {
      var k, l := if i < |a| then i else i + 1, if j < |a| then j else j + 1;
      assert k < l && s[k] == t[i] && s[l] == t[j];
    }
  }

  lemma SortIrqsPermutes(irqs: map<IrqInfo, IrqState>, list: seq<IrqInfo>)
    ensures multiset(SortIrqs(irqs, list)) == multiset(list)
    ensures |SortIrqs(irqs, list)| == |list|
    ensures forall u: set<IrqInfo> :: Within(list, u) ==> Within(SortIrqs(irqs, list), u)
  {
    SortPermutes(list, IrqOrder(irqs));
    forall u: set<IrqInfo> | Within(list, u)
      ensures Within(SortIrqs(irqs, list), u)
    {
      SortWithin(list, u, IrqOrder(irqs));
    }
  }
}
