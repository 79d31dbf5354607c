/** Moving IRQs between lists (`migrate_irq`), and the ownership invariant:
    every IRQ that takes part in balancing is in exactly one list, once, and
    that list is the one its `assigned_obj` says. */
module Ownership {
  import opened MergeSort
  import opened Irqs

  /** The two kinds of list an IRQ can be on: `rebalance_irq_list`, or an object's `interrupts`. */
  datatype Loc = Waiting | On(obj: TopoObj)

  ghost predicate LocOk(st: State, loc: Loc) {
    loc.On? ==> loc.obj in st.objs
  }

  function ListAt(st: State, loc: Loc): seq<IrqInfo>
    requires loc.On? ==> loc.obj in st.objs
  {
    match loc
    case Waiting => st.rebalance
    case On(o) => st.objs[o].interrupts
  }

  function WithList(st: State, loc: Loc, list: seq<IrqInfo>): State
    requires loc.On? ==> loc.obj in st.objs
  {
    match loc
    case Waiting => st.(rebalance := list)
    case On(o) => st.(objs := st.objs[o := st.objs[o].(interrupts := list)])
  }

  /** g_list_find_custom with compare_ints: the first entry with this number, or the length. */
  function FindIrq(list: seq<IrqInfo>, irq: int): (i: nat)
    ensures i <= |list| && (i < |list| ==> list[i].irq == irq)
    ensures forall j | 0 <= j < i :: list[j].irq != irq
  {
    if list == [] then 0 else if list[0].irq == irq then 0 else 1 + FindIrq(list[1..], irq)
  }

  function RemoveAt<T>(s: seq<T>, i: nat): seq<T>
    requires i < |s|
  {
    s[..i] + s[i + 1..]
  }

  /** migrate_irq: the entry found by number moves to the end of `to`. */
  function Migrate(st: State, from: Loc, to: Loc, info: IrqInfo): State
    requires from.On? ==> from.obj in st.objs
    requires to.On? ==> to.obj in st.objs
    requires info in st.irqs
  {
    var list := ListAt(st, from);
    var i := FindIrq(list, info.irq);
    if i == |list| then st
    else
      var st1 := WithList(st, from, RemoveAt(list, i));
      var st2 := WithList(st1, to, ListAt(st1, to) + [list[i]]);
      st2.(irqs := st2.irqs[info := st2.irqs[info].(moved := true)])
  }

  function SetOwner(st: State, q: IrqInfo, owner: TopoObj?): State
    requires q in st.irqs
  {
    st.(irqs := st.irqs[q := st.irqs[q].(owner := owner)])
  }

  function AddLoad(st: State, o: TopoObj, extra: nat): State
    requires o in st.objs
  {
    st.(objs := st.objs[o := st.objs[o].(load := Add64(st.objs[o].load, extra))])
  }

  /** Put an IRQ on an object: move the entry, set assigned_obj, add to the object's load. */
  function Assign(st: State, from: Loc, o: TopoObj, q: IrqInfo, extra: nat): State
    requires from.On? ==> from.obj in st.objs
    requires o in st.objs && q in st.irqs
  {
    AddLoad(SetOwner(Migrate(st, from, On(o), q), q, o), o, extra)
  }

  /** Take an IRQ off its object and let it wait. */
  function Release(st: State, o: TopoObj, q: IrqInfo): State
    requires o in st.objs && q in st.irqs
  {
    SetOwner(Migrate(st, On(o), Waiting, q), q, null)
  }

  // ---- the invariant ----

  /** IRQ numbers identify IRQs (IrqDb proves this of the database). */
  ghost predicate Numbered(irqs: set<IrqInfo>) {
    forall a, b | a in irqs && b in irqs :: a.irq == b.irq ==> a == b
  }

  ghost predicate ListOk(st: State, list: seq<IrqInfo>) {
    NoDup(list) && forall i | 0 <= i < |list| :: list[i] in st.irqs
  }

  ghost predicate ListsOk(st: State) {
    ListOk(st, st.rebalance) && forall o | o in st.objs :: ListOk(st, st.objs[o].interrupts)
  }

  /** An IRQ is on the list of its assigned object and on no other; it waits
      exactly when it is balanced at all and has no assigned object. */
  ghost predicate OwnedIrq(st: State, q: IrqInfo)
    requires q in st.irqs
  {
    && (q in st.rebalance <==> st.irqs[q].owner == null && q.level != BalanceNone)
    && (st.irqs[q].owner != null ==> st.irqs[q].owner in st.objs && q.level != BalanceNone)
    && (forall o | o in st.objs :: q in st.objs[o].interrupts <==> st.irqs[q].owner == o)
  }

  ghost predicate Owned(st: State) {
    && Numbered(st.irqs.Keys)
    && ListsOk(st)
    && forall q | q in st.irqs :: OwnedIrq(st, q)
  }

  /** Only IRQ q's list membership, owner and `moved`, and the load of `to`, differ. */
  ghost predicate MovedTo(st: State, st': State, from: Loc, to: Loc, q: IrqInfo, extra: nat)
    requires LocOk(st, from) && LocOk(st, to) && q in st.irqs
  {
    && st'.irqs == st.irqs[q := st.irqs[q].(moved := true, owner := if to.On? then to.obj else null)]
    && st'.objs.Keys == st.objs.Keys
    && (forall x | x in st.irqs :: x in ListAt(st', from) <==> x in ListAt(st, from) && x != q)
    && ListAt(st', to) == ListAt(st, to) + [q]
    && (forall o | o in st.objs :: st'.objs[o].powersave == st.objs[o].powersave && st'.objs[o].irqCount == st.objs[o].irqCount)
    && (forall o | o in st.objs && On(o) != to :: st'.objs[o].load == st.objs[o].load)
    && (to.On? ==> st'.objs[to.obj].load == Add64(st.objs[to.obj].load, extra))
    && (forall o | o in st.objs && On(o) != to && On(o) != from :: st'.objs[o].interrupts == st.objs[o].interrupts)
    && (to != Waiting && from != Waiting ==> st'.rebalance == st.rebalance)
    && ListOk(st', ListAt(st', from)) && ListOk(st', ListAt(st', to))
  }

  // ---- how moving keeps it ----

  lemma RemoveOne<T>(s: seq<T>, i: nat)
    requires i < |s| && NoDup(s)
    ensures NoDup(RemoveAt(s, i))
    ensures forall x :: x in RemoveAt(s, i) <==> x in s && x != s[i]
  {
    var r := RemoveAt(s, i);
    forall x
      ensures x in r <==> x in s && x != s[i]
    {
      if x in r {
        var j :| 0 <= j < |r| && r[j] == x;
        assert x == s[if j < i then j else j + 1];
      }
      if x in s && x != s[i] {
        var j :| 0 <= j < |s| && s[j] == x;
        assert r[if j < i then j else j - 1] == x;
      }
    }
  }

  /** With unique numbers the entry found by number is the IRQ itself. */
  lemma FindsItself(st: State, list: seq<IrqInfo>, q: IrqInfo)
    requires Numbered(st.irqs.Keys) && ListOk(st, list) && q in list && q in st.irqs
    ensures FindIrq(list, q.irq) < |list| && list[FindIrq(list, q.irq)] == q
  {
    var j :| 0 <= j < |list| && list[j] == q;
  }

  /** What migrate_irq does when the IRQ is where it is looked for. */
  ghost predicate Migrated(st: State, m: State, from: Loc, to: Loc, q: IrqInfo)
    requires LocOk(st, from) && LocOk(st, to) && q in st.irqs
  {
    && m.irqs == st.irqs[q := st.irqs[q].(moved := true)]
    && m.objs.Keys == st.objs.Keys
    && (forall o | o in st.objs :: m.objs[o] == st.objs[o].(interrupts := m.objs[o].interrupts))
    && (forall o | o in st.objs && On(o) != to && On(o) != from :: m.objs[o] == st.objs[o])
    && (to != Waiting && from != Waiting ==> m.rebalance == st.rebalance)
    && ListAt(m, to) == ListAt(st, to) + [q]
    && |ListAt(st, from)| > 0
    && (exists i :: 0 <= i < |ListAt(st, from)| && ListAt(st, from)[i] == q && ListAt(m, from) == RemoveAt(ListAt(st, from), i))
  }

  lemma MigrateDoes(st: State, from: Loc, to: Loc, q: IrqInfo)
    requires Numbered(st.irqs.Keys) && LocOk(st, from) && LocOk(st, to) && from != to && q in st.irqs
    requires ListOk(st, ListAt(st, from)) && q in ListAt(st, from)
    ensures Migrated(st, Migrate(st, from, to, q), from, to, q)
  {
    var list := ListAt(st, from);
    FindsItself(st, list, q);
    var i := FindIrq(list, q.irq);
    assert ListAt(Migrate(st, from, to, q), from) == RemoveAt(list, i);
  }

  lemma MigrateLists(st: State, m: State, from: Loc, to: Loc, q: IrqInfo)
    requires LocOk(st, from) && LocOk(st, to) && from != to && q in st.irqs && Migrated(st, m, from, to, q)
    requires ListOk(st, ListAt(st, from)) && ListOk(st, ListAt(st, to)) && q !in ListAt(st, to)
    ensures ListOk(m, ListAt(m, from)) && ListOk(m, ListAt(m, to))
    ensures forall x | x in st.irqs :: x in ListAt(m, from) <==> x in ListAt(st, from) && x != q
  {
    var list := ListAt(st, from);
    var i :| 0 <= i < |list| && list[i] == q && ListAt(m, from) == RemoveAt(list, i);
    RemoveOne(list, i);
  }

  /** The bookkeeping around migrate_irq. */
  lemma Bookkeeping(st: State, m: State, from: Loc, to: Loc, q: IrqInfo, extra: nat)
    requires LocOk(st, from) && LocOk(st, to) && from != to && q in st.irqs && Migrated(st, m, from, to, q)
    requires ListOk(st, ListAt(st, from)) && ListOk(st, ListAt(st, to)) && q !in ListAt(st, to)
    ensures to.On? ==> MovedTo(st, AddLoad(SetOwner(m, q, to.obj), to.obj, extra), from, to, q, extra)
    ensures to.Waiting? ==> MovedTo(st, SetOwner(m, q, null), from, to, q, extra)
  {
    MigrateLists(st, m, from, to, q);
    var owner := if to.On? then to.obj else null;
    var st1 := SetOwner(m, q, owner);
    var st' := if to.On? then AddLoad(st1, to.obj, extra) else st1;
    assert st'.irqs == st.irqs[q := st.irqs[q].(moved := true, owner := owner)];
    assert ListAt(st', from) == ListAt(m, from) && ListAt(st', to) == ListAt(m, to);
    SameKeys(m, st', ListAt(m, from));
    SameKeys(m, st', ListAt(m, to));
  }

  lemma SameKeys(st: State, st': State, list: seq<IrqInfo>)
    requires st'.irqs.Keys == st.irqs.Keys
    ensures ListOk(st, list) <==> ListOk(st', list)
  {
  }

  lemma AssignMoves(st: State, from: Loc, o: TopoObj, q: IrqInfo, extra: nat)
    requires Owned(st) && LocOk(st, from) && o in st.objs && q in st.irqs
    requires q in ListAt(st, from) && from != On(o)
    ensures MovedTo(st, Assign(st, from, o, q, extra), from, On(o), q, extra)
  {
    assert q !in st.objs[o].interrupts by {
      assert OwnedIrq(st, q);
    }
    MigrateDoes(st, from, On(o), q);
    Bookkeeping(st, Migrate(st, from, On(o), q), from, On(o), q, extra);
  }

  lemma ReleaseMoves(st: State, o: TopoObj, q: IrqInfo)
    requires Owned(st) && o in st.objs && q in st.irqs && q in st.objs[o].interrupts
    ensures MovedTo(st, Release(st, o, q), On(o), Waiting, q, 0)
  {
    assert q !in st.rebalance by {
      assert OwnedIrq(st, q);
    }
    MigrateDoes(st, On(o), Waiting, q);
    Bookkeeping(st, Migrate(st, On(o), Waiting, q), On(o), Waiting, q, 0);
  }

  lemma MoveKeepsOwned(st: State, st': State, from: Loc, to: Loc, q: IrqInfo, extra: nat)
    requires Owned(st) && LocOk(st, from) && LocOk(st, to) && q in st.irqs
    requires q in ListAt(st, from) && from != to
    requires MovedTo(st, st', from, to, q, extra)
    ensures Owned(st')
  {
    assert OwnedIrq(st, q);
    MovedLists(st, st', from, to, q, extra);
    hide MovedTo, ListsOk;
    MovedKeys(st, st', from, to, q, extra);
    forall x | x in st'.irqs
      ensures OwnedIrq(st', x)
    {
      MovedOwner(st, st', from, to, q, extra, x);
    }
  }

  lemma MovedKeys(st: State, st': State, from: Loc, to: Loc, q: IrqInfo, extra: nat)
    requires LocOk(st, from) && LocOk(st, to) && q in st.irqs && MovedTo(st, st', from, to, q, extra)
    ensures st'.irqs.Keys == st.irqs.Keys && st'.objs.Keys == st.objs.Keys
  {
  }

  lemma MovedLists(st: State, st': State, from: Loc, to: Loc, q: IrqInfo, extra: nat)
    requires ListsOk(st) && LocOk(st, from) && LocOk(st, to) && q in st.irqs && MovedTo(st, st', from, to, q, extra)
    ensures ListsOk(st')
  {
    forall o | o in st'.objs
      ensures ListOk(st', st'.objs[o].interrupts)
    {
      if On(o) != to && On(o) != from {
        assert ListOk(st, st.objs[o].interrupts);
      }
    }
  }

  lemma MovedOwner(st: State, st': State, from: Loc, to: Loc, q: IrqInfo, extra: nat, x: IrqInfo)
    requires Owned(st) && LocOk(st, from) && LocOk(st, to) && q in st.irqs && x in st.irqs && x in st'.irqs
    requires q in ListAt(st, from) && from != to && MovedTo(st, st', from, to, q, extra)
    ensures OwnedIrq(st', x)
  {
    hide ListsOk, Numbered, ListOk, Add64;
    assert OwnedIrq(st, x) && OwnedIrq(st, q);
  }
}
