/** The daemon's global variables and records on the heap, and their value. */
module Globals {
  import opened MergeSort
  import opened Irqs
  import opened Ownership
  import opened Tree

  class Globals {
    var nodes: seq<TopoObj>
    var packages: seq<TopoObj>
    var caches: seq<TopoObj>
    var cpus: seq<TopoObj>
    var interruptsDb: seq<IrqInfo>
    var rebalance: seq<IrqInfo>
    var banned: set<nat>
    var numaAvail: bool
    var powerThresh: nat

    // All records there are.
    ghost var irqs: set<IrqInfo>
    ghost var objs: set<TopoObj>

    ghost function St(): (r: State)
      reads this, irqs, objs
      ensures r.irqs.Keys == irqs && r.objs.Keys == objs && r.rebalance == rebalance
    {
      State(map q | q in irqs :: q.Fields(), map o | o in objs :: o.Fields(), rebalance)
    }

    ghost function Cfg(): (r: Config)
      reads this, objs
    {
      Config(nodes, packages, caches, cpus, map o | o in objs :: o.children, map o | o in objs :: o.parent,
             interruptsDb, banned, numaAvail, powerThresh)
    }

    ghost predicate Valid()
      reads this, irqs, objs
    {
      Ready(Cfg(), St())
    }

    constructor (nodes: seq<TopoObj>, packages: seq<TopoObj>, caches: seq<TopoObj>, cpus: seq<TopoObj>,
                 interruptsDb: seq<IrqInfo>, banned: set<nat>, numaAvail: bool, powerThresh: nat,
                 ghost irqs: set<IrqInfo>, ghost objs: set<TopoObj>)
      ensures this.nodes == nodes && this.packages == packages && this.caches == caches && this.cpus == cpus
      ensures this.interruptsDb == interruptsDb && this.banned == banned && this.rebalance == []
      ensures this.numaAvail == numaAvail && this.powerThresh == powerThresh
      ensures this.irqs == irqs && this.objs == objs
    {
      this.nodes, this.packages, this.caches, this.cpus := nodes, packages, caches, cpus;
      this.interruptsDb, this.banned, this.rebalance := interruptsDb, banned, [];
      this.numaAvail, this.powerThresh := numaAvail, powerThresh;
      this.irqs, this.objs := irqs, objs;
    }
  }

  // ---- single fields ----

  method SetAssignedObj(g: Globals, q: IrqInfo, o: TopoObj?)
    requires q in g.irqs
    modifies q`assignedObj
    ensures g.St() == SetOwner(old(g.St()), q, o) && g.Cfg() == old(g.Cfg())
  {
    q.assignedObj := o;
    assert g.St().irqs == SetOwner(old(g.St()), q, o).irqs;
    assert g.St().objs == old(g.St().objs);
  }

  method AddToLoad(g: Globals, o: TopoObj, extra: nat)
    requires o in g.objs
    modifies o`load
    ensures g.St() == AddLoad(old(g.St()), o, extra) && g.Cfg() == old(g.Cfg())
  {
    o.load := Add64(o.load, extra);
    assert g.St().irqs == old(g.St().irqs);
    assert g.St().objs == AddLoad(old(g.St()), o, extra).objs;
  }

  /** The list a pointer of migrate_irq's caller leads to. */
  method ListOf(g: Globals, loc: Loc) returns (list: seq<IrqInfo>)
    requires loc.On? ==> loc.obj in g.objs
    ensures list == ListAt(g.St(), loc)
  {
    match loc
    case Waiting => list := g.rebalance;
    case On(o) => list := o.interrupts;
  }

  method SetWaiting(g: Globals, list: seq<IrqInfo>)
    modifies g`rebalance
    ensures g.St() == old(g.St()).(rebalance := list) && g.Cfg() == old(g.Cfg())
  {
    g.rebalance := list;
    assert g.St().irqs == old(g.St().irqs);
    assert g.St().objs == old(g.St().objs);
  }

  method SetInterrupts(g: Globals, o: TopoObj, list: seq<IrqInfo>)
    requires o in g.objs
    modifies o`interrupts
    ensures g.St() == old(g.St()).(objs := old(g.St().objs)[o := old(g.St().objs)[o].(interrupts := list)])
    ensures g.Cfg() == old(g.Cfg())
  {
    o.interrupts := list;
    assert g.St().irqs == old(g.St().irqs);
    assert g.St().objs == old(g.St().objs)[o := old(g.St().objs)[o].(interrupts := list)];
  }

  method SetList(g: Globals, loc: Loc, list: seq<IrqInfo>)
    requires loc.On? ==> loc.obj in g.objs
    modifies g`rebalance, g.objs`interrupts
    ensures g.St() == WithList(old(g.St()), loc, list) && g.Cfg() == old(g.Cfg())
  {
    hide Globals.St, Globals.Cfg;
    match loc {
      case Waiting => SetWaiting(g, list);
      case On(o) => SetInterrupts(g, o, list);
    }
  }

  method SetMoved(g: Globals, q: IrqInfo, moved: bool)
    requires q in g.irqs
    modifies q`moved
    ensures g.St() == old(g.St()).(irqs := old(g.St().irqs)[q := old(g.St().irqs)[q].(moved := moved)])
    ensures g.Cfg() == old(g.Cfg())
  {
    q.moved := moved;
    assert g.St().irqs == old(g.St().irqs)[q := old(g.St().irqs)[q].(moved := moved)];
    assert g.St().objs == old(g.St().objs);
  }

  method SetIrqLoad(g: Globals, q: IrqInfo, load: U64)
    requires q in g.irqs
    modifies q`load
    ensures g.St() == old(g.St()).(irqs := old(g.St().irqs)[q := old(g.St().irqs)[q].(load := load)])
    ensures g.Cfg() == old(g.Cfg())
  {
    q.load := load;
    assert g.St().irqs == old(g.St().irqs)[q := old(g.St().irqs)[q].(load := load)];
    assert g.St().objs == old(g.St().objs);
  }

  method SetCountsOf(g: Globals, q: IrqInfo, last: nat, count: nat)
    requires q in g.irqs
    modifies q`irqCount, q`lastIrqCount
    ensures g.St() == old(g.St()).(irqs := old(g.St().irqs)[q := old(g.St().irqs)[q].(lastIrqCount := last, irqCount := count)])
    ensures g.Cfg() == old(g.Cfg())
  {
    q.lastIrqCount := last;
    q.irqCount := count;
    assert g.St().irqs == old(g.St().irqs)[q := old(g.St().irqs)[q].(lastIrqCount := last, irqCount := count)];
    assert g.St().objs == old(g.St().objs);
  }

  method SetObjLoad(g: Globals, o: TopoObj, load: U64)
    requires o in g.objs
    modifies o`load
    ensures g.St() == old(g.St()).(objs := old(g.St().objs)[o := old(g.St().objs)[o].(load := load)])
    ensures g.Cfg() == old(g.Cfg())
  {
    o.load := load;
    assert g.St().irqs == old(g.St().irqs);
    assert g.St().objs == old(g.St().objs)[o := old(g.St().objs)[o].(load := load)];
  }

  method SetObjCount(g: Globals, o: TopoObj, count: nat)
    requires o in g.objs
    modifies o`irqCount
    ensures g.St() == old(g.St()).(objs := old(g.St().objs)[o := old(g.St().objs)[o].(irqCount := count)])
    ensures g.Cfg() == old(g.Cfg())
  {
    o.irqCount := count;
    assert g.St().irqs == old(g.St().irqs);
    assert g.St().objs == old(g.St().objs)[o := old(g.St().objs)[o].(irqCount := count)];
  }

  method SetPowersaveMode(g: Globals, o: TopoObj, on: bool)
    requires o in g.objs
    modifies o`powersaveMode
    ensures g.St() == old(g.St()).(objs := old(g.St().objs)[o := old(g.St().objs)[o].(powersave := on)])
    ensures g.Cfg() == old(g.Cfg())
  {
    o.powersaveMode := on;
    assert g.St().irqs == old(g.St().irqs);
    assert g.St().objs == old(g.St().objs)[o := old(g.St().objs)[o].(powersave := on)];
  }

  // ---- lists ----

  /** g_list_find_custom with compare_ints */
  method FindInList(list: seq<IrqInfo>, irq: int) returns (i: nat)
    ensures i == FindIrq(list, irq)
  {
    i := 0;
    while i < |list| && list[i].irq != irq
      invariant i <= |list| && forall j | 0 <= j < i :: list[j].irq != irq
    {
      i := i + 1;
    }
    FirstMatch(list, irq, i);
  }

  lemma {:induction false} FirstMatch(list: seq<IrqInfo>, irq: int, i: nat)
    requires i <= |list| && (i < |list| ==> list[i].irq == irq) && forall j | 0 <= j < i :: list[j].irq != irq
    ensures FindIrq(list, irq) == i
  {
    if i > 0 {
      FirstMatch(list[1..], irq, i - 1);
    }
  }

  lemma MigrateMisses(st: State, from: Loc, to: Loc, info: IrqInfo, list: seq<IrqInfo>)
    requires LocOk(st, from) && LocOk(st, to) && info in st.irqs && list == ListAt(st, from)
    requires FindIrq(list, info.irq) == |list|
    ensures Migrate(st, from, to, info) == st
  {
  }

  /** The i-th entry of one list moved to the end of another. */
  ghost function MoveEntry(st: State, from: Loc, to: Loc, list: seq<IrqInfo>, i: nat): State
    requires LocOk(st, from) && LocOk(st, to) && i < |list|
  {
    var st1 := WithList(st, from, RemoveAt(list, i));
    WithList(st1, to, ListAt(st1, to) + [list[i]])
  }

  lemma MigrateMoves(st: State, from: Loc, to: Loc, info: IrqInfo, list: seq<IrqInfo>, i: nat, st2: State)
    requires LocOk(st, from) && LocOk(st, to) && info in st.irqs && list == ListAt(st, from)
    requires i < |list| && FindIrq(list, info.irq) == i && st2 == MoveEntry(st, from, to, list, i) && info in st2.irqs
    ensures Migrate(st, from, to, info) == st2.(irqs := st2.irqs[info := st2.irqs[info].(moved := true)])
  {
  }

  method MoveEntryBetween(g: Globals, from: Loc, to: Loc, list: seq<IrqInfo>, i: nat, ghost st: State)
    requires g.St() == st && LocOk(st, from) && LocOk(st, to) && i < |list|
    modifies g`rebalance, g.objs`interrupts
    ensures g.St() == MoveEntry(st, from, to, list, i) && g.Cfg() == old(g.Cfg())
  {
    hide WithList, ListAt, Globals.St, Globals.Cfg;
    SetList(g, from, list[..i] + list[i + 1..]);
    var target := ListOf(g, to);
    SetList(g, to, target + [list[i]]);
  }

  method MigrateIrq(g: Globals, from: Loc, to: Loc, info: IrqInfo)
    requires (from.On? ==> from.obj in g.objs) && (to.On? ==> to.obj in g.objs) && info in g.irqs
    modifies g`rebalance, g.objs`interrupts, info`moved
    ensures g.St() == Migrate(old(g.St()), from, to, info) && g.Cfg() == old(g.Cfg())
  {
    hide WithList, ListAt, Migrate, FindIrq, Globals.St, Globals.Cfg, MoveEntry;
    ghost var st := g.St();
    var list := ListOf(g, from);
    var i := FindInList(list, info.irq);
    if i == |list| {
      MigrateMisses(st, from, to, info, list);
      return;
    }
    MoveEntryBetween(g, from, to, list, i, st);
    MigrateMoves(st, from, to, info, list, i, g.St());
    SetMoved(g, info, true);
  }

  /** Move an IRQ, note its object, and add to the object's load. */
  method AssignTo(g: Globals, from: Loc, o: TopoObj, info: IrqInfo, extra: nat)
    requires (from.On? ==> from.obj in g.objs) && o in g.objs && info in g.irqs
    modifies g`rebalance, g.objs`interrupts, info`moved, info`assignedObj, o`load
    ensures g.St() == Assign(old(g.St()), from, o, info, extra) && g.Cfg() == old(g.Cfg())
  {
    hide Migrate, SetOwner, AddLoad, Globals.St, Globals.Cfg;
    MigrateIrq(g, from, On(o), info);
    SetAssignedObj(g, info, o);
    AddToLoad(g, o, extra);
    assert Assign(old(g.St()), from, o, info, extra) == AddLoad(SetOwner(Migrate(old(g.St()), from, On(o), info), info, o), o, extra);
  }

  /** Take an IRQ off its object onto the waiting list. */
  method TakeOff(g: Globals, o: TopoObj, info: IrqInfo)
    requires o in g.objs && info in g.irqs
    modifies g`rebalance, g.objs`interrupts, info`moved, info`assignedObj
    ensures g.St() == Release(old(g.St()), o, info) && g.Cfg() == old(g.Cfg())
  {
    hide Migrate, SetOwner, Globals.St, Globals.Cfg;
    MigrateIrq(g, On(o), Waiting, info);
    SetAssignedObj(g, info, null);
    assert Release(old(g.St()), o, info) == SetOwner(Migrate(old(g.St()), On(o), Waiting, info), info, null);
  }

  // ---- sort_irq_list ----

  lemma {:induction false} MergeAgrees(a: seq<IrqInfo>, b: seq<IrqInfo>, cmp: (IrqInfo, IrqInfo) -> int, cmp': (IrqInfo, IrqInfo) -> int, u: set<IrqInfo>)
    requires Within(a, u) && Within(b, u)
    requires forall x, y | x in u && y in u :: cmp(x, y) == cmp'(x, y)
    ensures Merge(a, b, cmp) == Merge(a, b, cmp')
    decreases |a| + |b|
  {
    if a != [] && b != [] {
      if cmp(a[0], b[0]) <= 0 {
        MergeAgrees(a[1..], b, cmp, cmp', u);
      } else {
        MergeAgrees(a, b[1..], cmp, cmp', u);
      }
    }
  }

  /** Sorting asks the order about members of the list only. */
  lemma {:induction false} SortAgrees(s: seq<IrqInfo>, cmp: (IrqInfo, IrqInfo) -> int, cmp': (IrqInfo, IrqInfo) -> int, u: set<IrqInfo>)
    requires Within(s, u)
    requires forall x, y | x in u && y in u :: cmp(x, y) == cmp'(x, y)
    ensures Sort(s, cmp) == Sort(s, cmp')
    decreases |s|
  {
    if |s| > 1 {
      var m := |s| / 2;
      SortAgrees(s[..m], cmp, cmp', u);
      SortAgrees(s[m..], cmp, cmp', u);
      SortWithin(s[..m], u, cmp);
      SortWithin(s[m..], u, cmp);
      MergeAgrees(Sort(s[..m], cmp), Sort(s[m..], cmp), cmp, cmp', u);
    }
  }

  /** sort_irq_list; the sort itself is `GList.SortList`. */
  method SortIrqList(g: Globals, list: seq<IrqInfo>) returns (sorted: seq<IrqInfo>)
    requires forall q | q in list :: q in g.irqs
    ensures sorted == SortIrqs(g.St().irqs, list)
  {
    var records := map q | q in list :: q.Fields();
    sorted := Sort(list, IrqOrder(records));
    SortAgrees(list, IrqOrder(records), IrqOrder(g.St().irqs), records.Keys);
  }
}
