/** Passing interrupt counts down the tree in equal parts loses less than one
    interrupt per CPU. */
module ShareConservation {
  import opened Irqs
  import opened Tree
  import opened LoadShare

  // Objects of one depth, and sums over the tree below them.

  ghost predicate AtDepth(objs: set<TopoObj>, ds: seq<TopoObj>, depth: nat) {
    forall d | d in ds :: d in objs && d.kind.Depth() == depth
  }

  lemma ChildrenBelow(cfg: Config, objs: set<TopoObj>, d: TopoObj)
    requires TreeOk(cfg, objs) && d in objs
    ensures d in cfg.children && AtDepth(objs, cfg.children[d], d.kind.Depth() + 1)
    ensures forall c | c in cfg.children[d] :: c in objs && c in cfg.parent && cfg.parent[c] == d
  {
    KeysOfTree(cfg, objs);
    ChildrenKnown(cfg, objs, d);
    forall c | c in cfg.children[d]
      ensures c in objs && cfg.parent[c] == d
    {
      var i :| 0 <= i < |cfg.children[d]| && cfg.children[d][i] == c;
    }
  }

  /** Interrupts counted on d and everything below it. */
  ghost function TotalCount(cfg: Config, objs: map<TopoObj, ObjState>, d: TopoObj): nat
    requires TreeOk(cfg, objs.Keys) && d in objs
    decreases 2 * (LEVELS - d.kind.Depth()) + 1, 0
  {
    ChildrenBelow(cfg, objs.Keys, d);
    objs[d].irqCount + TotalCounts(cfg, objs, cfg.children[d], d.kind.Depth() + 1)
  }

  ghost function TotalCounts(cfg: Config, objs: map<TopoObj, ObjState>, ds: seq<TopoObj>, depth: nat): nat
    requires TreeOk(cfg, objs.Keys) && AtDepth(objs.Keys, ds, depth)
    decreases if depth < LEVELS then 2 * (LEVELS - depth) + 2 else 0, |ds|
  {
    if ds == [] then 0 else TotalCount(cfg, objs, ds[0]) + TotalCounts(cfg, objs, ds[1..], depth)
  }

  /** The number of childless objects at and below d: the CPUs, in a full tree. */
  ghost function LeafCount(cfg: Config, objs: set<TopoObj>, d: TopoObj): nat
    requires TreeOk(cfg, objs) && d in objs
    decreases 2 * (LEVELS - d.kind.Depth()) + 1, 0
  {
    ChildrenBelow(cfg, objs, d);
    if cfg.children[d] == [] then 1 else LeafCounts(cfg, objs, cfg.children[d], d.kind.Depth() + 1)
  }

  ghost function LeafCounts(cfg: Config, objs: set<TopoObj>, ds: seq<TopoObj>, depth: nat): nat
    requires TreeOk(cfg, objs) && AtDepth(objs, ds, depth)
    decreases if depth < LEVELS then 2 * (LEVELS - depth) + 2 else 0, |ds|
  {
    if ds == [] then 0 else LeafCount(cfg, objs, ds[0]) + LeafCounts(cfg, objs, ds[1..], depth)
  }

  /** The shares of the childless objects at and below d. */
  ghost function LeafShare(cfg: Config, objs: map<TopoObj, ObjState>, d: TopoObj): nat
    requires TreeOk(cfg, objs.Keys) && d in objs
    decreases 2 * (LEVELS - d.kind.Depth()) + 1, 0
  {
    ChildrenBelow(cfg, objs.Keys, d);
    TreeParents(cfg, objs.Keys);
    if cfg.children[d] == [] then ParentShare(cfg, objs, d) else LeafShares(cfg, objs, cfg.children[d], d.kind.Depth() + 1)
  }

  ghost function LeafShares(cfg: Config, objs: map<TopoObj, ObjState>, ds: seq<TopoObj>, depth: nat): nat
    requires TreeOk(cfg, objs.Keys) && AtDepth(objs.Keys, ds, depth)
    decreases if depth < LEVELS then 2 * (LEVELS - depth) + 2 else 0, |ds|
  {
    if ds == [] then 0 else LeafShare(cfg, objs, ds[0]) + LeafShares(cfg, objs, ds[1..], depth)
  }

  lemma EqualPartsLose(total: nat, parts: nat)
    requires parts > 0
    ensures parts * EqualPart(total, parts) <= total
    ensures total - (parts - 1) <= parts * EqualPart(total, parts)
  {
    assert total == EqualPart(total, parts) * parts + total % parts;
  }

  /** What goes into d and is counted below it arrives at the leaves, but for
      less than one interrupt a leaf. */
  lemma {:induction false} LeavesShare(cfg: Config, objs: map<TopoObj, ObjState>, d: TopoObj)
    requires TreeOk(cfg, objs.Keys) && Parents(cfg, objs.Keys) && d in objs
    ensures LeafShare(cfg, objs, d) <= ParentShare(cfg, objs, d) + TotalCount(cfg, objs, d) - objs[d].irqCount
    ensures ParentShare(cfg, objs, d) + TotalCount(cfg, objs, d) - objs[d].irqCount
            <= LeafShare(cfg, objs, d) + LeafCount(cfg, objs.Keys, d) - 1
    decreases 2 * (LEVELS - d.kind.Depth()) + 1, 0
  {
    hide TreeOk, ParentShare, EqualPart, Parents;
    ChildrenBelow(cfg, objs.Keys, d);
    var cs := cfg.children[d];
    if cs == [] {
      return;
    }
    var inflow := ParentShare(cfg, objs, d);
    ChildrenShare(cfg, objs, d, cs, d.kind.Depth() + 1, EqualPart(inflow, |cs|));
    EqualPartsLose(inflow, |cs|);
  }

  lemma SharesOfChild(cfg: Config, objs: map<TopoObj, ObjState>, d: TopoObj, c: TopoObj)
    requires TreeOk(cfg, objs.Keys) && Parents(cfg, objs.Keys) && d in objs && d in cfg.children && c in cfg.children[d] && c in objs
    requires c in cfg.parent && cfg.parent[c] == d
    ensures ParentShare(cfg, objs, c) == EqualPart(ParentShare(cfg, objs, d), |cfg.children[d]|) + objs[c].irqCount
  {
    hide TreeOk;
  }

  lemma {:induction false} ChildrenShare(cfg: Config, objs: map<TopoObj, ObjState>, d: TopoObj, cs: seq<TopoObj>, depth: nat, part: nat)
    requires TreeOk(cfg, objs.Keys) && Parents(cfg, objs.Keys) && d in objs && d in cfg.children && |cfg.children[d]| > 0
    requires AtDepth(objs.Keys, cs, depth) && forall c | c in cs :: c in cfg.children[d] && c in cfg.parent && cfg.parent[c] == d
    requires part == EqualPart(ParentShare(cfg, objs, d), |cfg.children[d]|)
    ensures LeafShares(cfg, objs, cs, depth) <= |cs| * part + TotalCounts(cfg, objs, cs, depth)
    ensures |cs| * part + TotalCounts(cfg, objs, cs, depth) + |cs| <= LeafShares(cfg, objs, cs, depth) + LeafCounts(cfg, objs.Keys, cs, depth)
    decreases if depth < LEVELS then 2 * (LEVELS - depth) + 2 else 0, |cs|
  {
    hide TreeOk, ParentShare, EqualPart, Parents;
    if cs != [] {
      var c := cs[0];
      SharesOfChild(cfg, objs, d, c);
      LeavesShare(cfg, objs, c);
      ChildrenShare(cfg, objs, d, cs[1..], depth, part);
      assert |cs| * part == part + |cs[1..]| * part;
    }
  }

  /** In a tree, the leaves' shares add up to at most the interrupts counted in the
      tree, and to at least those but one for every leaf after the first. */
  lemma SharesConserved(cfg: Config, objs: map<TopoObj, ObjState>, root: TopoObj)
    requires TreeOk(cfg, objs.Keys) && root in objs && root.kind == ObjNode
    ensures LeafShare(cfg, objs, root) <= TotalCount(cfg, objs, root)
    ensures TotalCount(cfg, objs, root) <= LeafShare(cfg, objs, root) + LeafCount(cfg, objs.Keys, root) - 1
  {
    TreeParents(cfg, objs.Keys);
    LeavesShare(cfg, objs, root);
    RootShare(cfg, objs, root);
  }

  lemma RootShare(cfg: Config, objs: map<TopoObj, ObjState>, root: TopoObj)
    requires TreeOk(cfg, objs.Keys) && Parents(cfg, objs.Keys) && root in objs && root.kind == ObjNode
    ensures ParentShare(cfg, objs, root) == objs[root].irqCount
  {
    hide TreeOk;
  }

  // ---- no sum of counts exceeds the total ----

  lemma {:induction false} CountSumAppend(objs: map<TopoObj, ObjState>, a: seq<TopoObj>, b: seq<TopoObj>)
    ensures CountSum(objs, a + b) == CountSum(objs, a) + CountSum(objs, b)
  {
    if a == [] {
      assert a + b == b;
    } else {
      assert (a + b)[0] == a[0] && (a + b)[1..] == a[1..] + b;
      CountSumAppend(objs, a[1..], b);
    }
  }

  /** What a walk counts, given levels enough for it to end at the leaves. */
  lemma {:induction false} WalkCounts(cfg: Config, objs: map<TopoObj, ObjState>, ds: seq<TopoObj>, depth: nat, levels: nat)
    requires TreeOk(cfg, objs.Keys) && AtDepth(objs.Keys, ds, depth) && depth + levels >= LEVELS
    ensures CountSum(objs, PostOrder(cfg, ds, levels)) == TotalCounts(cfg, objs, ds, depth)
    decreases levels, |ds|
  {
    hide TreeOk, CountSum;
    if ds == [] {
      assert CountSum(objs, []) == 0 by { NothingToCount(objs); }
      return;
    }
    EmptyOrFirst(ds);
    var d := ds[0];
    ChildrenBelow(cfg, objs.Keys, d);
    var below, after := PostOrder(cfg, Children(cfg, d), levels - 1), PostOrder(cfg, ds[1..], levels);
    WalkCounts(cfg, objs, cfg.children[d], depth + 1, levels - 1);
    WalkCounts(cfg, objs, ds[1..], depth, levels);
    CountSumAppend(objs, below + [d], after);
    CountSumAppend(objs, below, [d]);
    CountOne(objs, d);
  }

  lemma NothingToCount(objs: map<TopoObj, ObjState>)
    ensures CountSum(objs, []) == 0
  {
  }

  lemma CountOne(objs: map<TopoObj, ObjState>, d: TopoObj)
    requires d in objs
    ensures CountSum(objs, [d]) == objs[d].irqCount
  {
    assert [d][1..] == [];
  }

  lemma {:induction false} TotalHas(cfg: Config, objs: map<TopoObj, ObjState>, ds: seq<TopoObj>, depth: nat, d: TopoObj)
    requires TreeOk(cfg, objs.Keys) && AtDepth(objs.Keys, ds, depth) && d in ds && d in objs
    ensures TotalCount(cfg, objs, d) <= TotalCounts(cfg, objs, ds, depth)
  {
    hide TreeOk, TotalCount;
    if ds[0] != d {
      TotalHas(cfg, objs, ds[1..], depth, d);
    }
  }

  /** What an object shares out and what is counted below it are within the total of its root. */
  lemma {:induction false} SharesWithinRoot(cfg: Config, objs: map<TopoObj, ObjState>, d: TopoObj) returns (root: TopoObj)
    requires TreeOk(cfg, objs.Keys) && Parents(cfg, objs.Keys) && d in objs
    ensures root in objs && root.kind == ObjNode
    ensures ParentShare(cfg, objs, d) + TotalCount(cfg, objs, d) - objs[d].irqCount <= TotalCount(cfg, objs, root)
    decreases d.kind.Depth()
  {
    hide TreeOk, ParentShare, EqualPart;
    if d.kind == ObjNode {
      root := d;
      RootShare(cfg, objs, d);
      return;
    }
    HasParent(cfg, objs.Keys, d);
    var p := cfg.parent[d];
    root := SharesWithinRoot(cfg, objs, p);
    ChildrenBelow(cfg, objs.Keys, p);
    SharesOfChild(cfg, objs, p, d);
    EqualPartsLose(ParentShare(cfg, objs, p), |cfg.children[p]|);
    PartAtMost(ParentShare(cfg, objs, p), |cfg.children[p]|);
    TotalHas(cfg, objs, cfg.children[p], p.kind.Depth() + 1, d);
  }

  lemma PartAtMost(total: nat, parts: nat)
    requires parts > 0
    ensures EqualPart(total, parts) <= total
  {
    EqualPartsLose(total, parts);
    var part := EqualPart(total, parts);
    hide EqualPart;
    assert parts * part == (parts - 1) * part + part && (parts - 1) * part >= 0;
  }

  lemma HasParent(cfg: Config, objs: set<TopoObj>, d: TopoObj)
    requires TreeOk(cfg, objs) && d in objs && d.kind != ObjNode
    ensures d in cfg.parent && cfg.parent[d] != null && cfg.parent[d] in objs && cfg.parent[d] in cfg.children
    ensures d in cfg.children[cfg.parent[d]] && cfg.parent[d].kind.Depth() < d.kind.Depth()
  {
    ParentAbove(cfg, objs, d);
  }

  /** The interrupts an object's load is divided among are at most all that are counted. */
  lemma LocalCountWithin(cfg: Config, objs: map<TopoObj, ObjState>, d: TopoObj)
    requires TreeOk(cfg, objs.Keys) && Parents(cfg, objs.Keys) && d in objs
    ensures ParentShare(cfg, objs, d) <= LocalCount(cfg, objs, d) <= CountSum(objs, Walk(cfg))
  {
    hide TreeOk, ParentShare, TotalCounts, Parents, CountSum, PostOrder;
    LayerKnown(cfg, objs.Keys, ObjNode);
    assert cfg.nodes == Layer(cfg, ObjNode);
    var root := SharesWithinRoot(cfg, objs, d);
    RootListed(cfg, objs.Keys, root);
    TotalHas(cfg, objs, cfg.nodes, 0, root);
    WalkCounts(cfg, objs, cfg.nodes, 0, LEVELS);
    ChildrenBelow(cfg, objs.Keys, d);
    WalkCounts(cfg, objs, cfg.children[d], d.kind.Depth() + 1, LEVELS);
  }

  lemma RootListed(cfg: Config, objs: set<TopoObj>, root: TopoObj)
    requires TreeOk(cfg, objs) && root in objs && root.kind == ObjNode
    ensures root in cfg.nodes
  {
    assert root in Layer(cfg, root.kind);
  }
}
