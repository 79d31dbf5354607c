/** The object tree as the balancer relies on it. */
module Tree {
  import opened MergeSort
  import opened Irqs
  import opened Ownership

  function Layer(cfg: Config, kind: Kind): seq<TopoObj> {
    match kind
    case ObjNode => cfg.nodes
    case ObjPackage => cfg.packages
    case ObjCache => cfg.caches
    case ObjCpu => cfg.cpus
  }

  /** Every object is in the list of its kind, once. */
  ghost predicate LayersOk(cfg: Config, objs: set<TopoObj>) {
    && (forall o | o in objs :: o in Layer(cfg, o.kind))
    && (forall kind: Kind, i | 0 <= i < |Layer(cfg, kind)| :: Layer(cfg, kind)[i] in objs && Layer(cfg, kind)[i].kind == kind)
    && (forall kind: Kind :: NoDup(Layer(cfg, kind)))
  }

  /** `children` and `parent` are inverse to each other and lead from each kind to the next. */
  ghost predicate LinksOk(cfg: Config, objs: set<TopoObj>) {
    && cfg.children.Keys == objs && cfg.parent.Keys == objs
    && (forall o | o in objs :: NoDup(cfg.children[o]))
    && (forall o, i | o in objs && 0 <= i < |cfg.children[o]| ::
          var c := cfg.children[o][i];
          c in objs && c.kind.Depth() == o.kind.Depth() + 1 && cfg.parent[c] == o)
    && (forall o | o in objs :: o.kind != ObjNode ==> cfg.parent[o] != null)
    && (forall o | o in objs && cfg.parent[o] != null :: cfg.parent[o] in objs && o in cfg.children[cfg.parent[o]])
  }

  /** Banned CPUs were blanked out of every mask below the nodes. */
  ghost predicate MasksOk(cfg: Config, objs: set<TopoObj>) {
    forall o | o in objs && o.kind != ObjNode :: o.mask !! cfg.banned
  }

  ghost predicate TreeOk(cfg: Config, objs: set<TopoObj>) {
    LayersOk(cfg, objs) && LinksOk(cfg, objs) && MasksOk(cfg, objs)
  }

  /** `interrupts_db` lists every IRQ once, and every IRQ has a NUMA node. */
  ghost predicate IrqsOk(cfg: Config, irqs: set<IrqInfo>) {
    && NoDup(cfg.db)
    && (forall i | 0 <= i < |cfg.db| :: cfg.db[i] in irqs)
    && (forall q | q in irqs :: q in cfg.db && q.numaNode in cfg.nodes)
  }

  /** The lists hold known IRQs only. */
  ghost predicate Known(st: State) {
    && (forall q | q in st.rebalance :: q in st.irqs)
    && (forall o | o in st.objs :: forall q | q in st.objs[o].interrupts :: q in st.irqs)
  }

  ghost predicate Ready(cfg: Config, st: State) {
    TreeOk(cfg, st.objs.Keys) && IrqsOk(cfg, st.irqs.Keys) && Known(st)
  }

  lemma LayerKnown(cfg: Config, objs: set<TopoObj>, kind: Kind)
    requires TreeOk(cfg, objs)
    ensures forall o | o in Layer(cfg, kind) :: o in objs && o.kind == kind
  {
    forall o | o in Layer(cfg, kind)
      ensures o in objs && o.kind == kind
    {
      var i :| 0 <= i < |Layer(cfg, kind)| && Layer(cfg, kind)[i] == o;
    }
  }

  lemma ChildrenKnown(cfg: Config, objs: set<TopoObj>, d: TopoObj)
    requires TreeOk(cfg, objs) && d in objs
    ensures forall c | c in cfg.children[d] :: c in objs && c != d && c.kind.Depth() == d.kind.Depth() + 1
  {
    forall c | c in cfg.children[d]
      ensures c in objs && c != d && c.kind.Depth() == d.kind.Depth() + 1
    {
      var i :| 0 <= i < |cfg.children[d]| && cfg.children[d][i] == c;
    }
  }

  lemma NodeKnown(cfg: Config, st: State, q: IrqInfo)
    requires Ready(cfg, st) && q in st.irqs
    ensures q.numaNode in st.objs && q.numaNode.kind == ObjNode
  {
    LayerKnown(cfg, st.objs.Keys, ObjNode);
    assert q.numaNode in Layer(cfg, ObjNode);
  }

  lemma WithListKnown(st: State, loc: Loc, list: seq<IrqInfo>)
    requires Known(st) && LocOk(st, loc) && forall q | q in list :: q in st.irqs
    ensures Known(WithList(st, loc, list))
  {
  }

  /** Updating a record keeps lists of known IRQs. */
  lemma RecordKnown(st: State, st': State)
    requires Known(st) && st'.irqs.Keys == st.irqs.Keys && st'.rebalance == st.rebalance && st'.objs.Keys == st.objs.Keys
    requires forall o | o in st.objs :: st'.objs[o].interrupts == st.objs[o].interrupts
    ensures Known(st')
  {
  }

  lemma MigrateKnown(st: State, from: Loc, to: Loc, q: IrqInfo)
    requires Known(st) && LocOk(st, from) && LocOk(st, to) && q in st.irqs
    ensures var m := Migrate(st, from, to, q);
      m.objs.Keys == st.objs.Keys && m.irqs.Keys == st.irqs.Keys && Known(m)
  {
    var list := ListAt(st, from);
    var i := FindIrq(list, q.irq);
    if i < |list| {
      var st1 := WithList(st, from, RemoveAt(list, i));
      assert (forall x | x in list :: x in st.irqs) && list[i] in list;
      assert forall x | x in RemoveAt(list, i) :: x in list;
      WithListKnown(st, from, RemoveAt(list, i));
      var added := ListAt(st1, to) + [list[i]];
      assert forall x | x in added :: x in st1.irqs;
      WithListKnown(st1, to, added);
      hide Known, FindIrq;
      RecordKnown(WithList(st1, to, added), Migrate(st, from, to, q));
    }
  }

  /** Moving an IRQ around keeps lists of known IRQs. */
  lemma AssignReady(cfg: Config, st: State, from: Loc, o: TopoObj, q: IrqInfo, extra: nat)
    requires Ready(cfg, st) && LocOk(st, from) && o in st.objs && q in st.irqs
    ensures Ready(cfg, Assign(st, from, o, q, extra))
    ensures Assign(st, from, o, q, extra).objs.Keys == st.objs.Keys
    ensures Assign(st, from, o, q, extra).irqs.Keys == st.irqs.Keys
  {
    hide TreeOk, IrqsOk, Known, Migrate;
    MigrateKnown(st, from, On(o), q);
    RecordKnown(Migrate(st, from, On(o), q), Assign(st, from, o, q, extra));
  }

  lemma ReleaseReady(cfg: Config, st: State, o: TopoObj, q: IrqInfo)
    requires Ready(cfg, st) && o in st.objs && q in st.irqs
    ensures Ready(cfg, Release(st, o, q))
    ensures Release(st, o, q).objs.Keys == st.objs.Keys
    ensures Release(st, o, q).irqs.Keys == st.irqs.Keys
  {
    hide TreeOk, IrqsOk, Known, Migrate;
    MigrateKnown(st, On(o), Waiting, q);
    RecordKnown(Migrate(st, On(o), Waiting, q), Release(st, o, q));
  }
}
