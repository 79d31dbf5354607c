/** build_object_tree hands the balancer the machine its theorems start from. */
module Startup {
  import opened Irqs
  import opened Ownership
  import opened Tree
  import opened CpuTree
  import opened CpuTreeCode
  import opened Globals
  import opened Measure
  import opened Runs
  import Db = IrqDb

  /** The globals hold the tree built and one record, just made, for each entry of
      the database. */
  ghost predicate HoldsScan(t: Topology, d: Db.Database, g: Globals, records: seq<IrqInfo>)
    reads t, d, g, records
  {
    && g.nodes == t.nodes && g.packages == t.packages && g.caches == t.caches && g.cpus == t.cpus
    && g.banned == t.banned && g.numaAvail == t.numaAvail && g.objs == t.objs
    && g.interruptsDb == records && g.rebalance == [] && g.irqs == (set q | q in records)
    && |records| == |d.interruptsDb|
    && (forall i | 0 <= i < |records| ::
          && records[i].irq == d.interruptsDb[i].irq && records[i].numaNode in t.nodes
          && records[i].Fields() == IrqState(0, 0, 0, false, null))
    && (forall i, j | 0 <= i < j < |records| :: records[i].addr != records[j].addr)
  }

  lemma RecordsOk(t: Topology, d: Db.Database, g: Globals, records: seq<IrqInfo>)
    requires HoldsScan(t, d, g, records) && Db.Unique(d.Value())
    ensures IrqsOk(g.Cfg(), g.irqs) && Numbered(g.irqs) && Addresses(g.irqs)
    ensures forall q | q in g.irqs :: q.Fields() == IrqState(0, 0, 0, false, null)
  {
    Db.RecordsNumbered(d.Value(), records);
    forall a, b | a in g.irqs && b in g.irqs && a.addr == b.addr
      ensures a == b
    {
      var i :| 0 <= i < |records| && records[i] == a;
      var j :| 0 <= j < |records| && records[j] == b;
    }
    forall q | q in g.irqs
      ensures q.numaNode in t.nodes && q.Fields() == IrqState(0, 0, 0, false, null)
    {
      var i :| 0 <= i < |records| && records[i] == q;
    }
  }

  lemma TopologyThere(t: Topology, g: Globals)
    requires t.Valid() && Consistent(t.seen) && PackagesParented(t.Value())
    requires g.nodes == t.nodes && g.packages == t.packages && g.caches == t.caches && g.cpus == t.cpus
    requires g.banned == t.banned && g.objs == t.objs
    ensures TreeOk(g.Cfg(), g.objs) && forall o | o in g.objs :: o.Fields() == ObjState(0, 0, false, [])
  {
    hide Grown, Records, TreeOk, Consistent, PackagesParented;
    assert g.Cfg().children == t.Value().children && g.Cfg().parent == t.Value().parent;
    BuiltTreeIsOk(t, g.Cfg());
  }

  /** After a scan in which equal cache masks came with equal package masks and node
      ids were known, the machine is fresh: every run theorem applies from here on. */
  lemma ScanIsFresh(t: Topology, d: Db.Database, g: Globals, records: seq<IrqInfo>, reading: Reading)
    requires t.Valid() && Consistent(t.seen) && PackagesParented(t.Value())
    requires Db.Unique(d.Value()) && HoldsScan(t, d, g, records)
    ensures Fresh(g.Cfg(), g.St())
    ensures var scan := Scan(g.Cfg(), g.St(), reading); Scanned(scan, Rescanned(scan))
  {
    hide TreeOk, Grown, Records, Consistent, PackagesParented, Topology.Valid, BeginFrom;
    RecordsOk(t, d, g, records);
    TopologyThere(t, g);
    DbKnown(g.Cfg(), g.irqs);
  }
}
