/** cputree.c on the heap: the lists, counters and links that do_one_cpu builds. */
module CpuTreeCode {
  import opened MergeSort
  import opened Irqs
  import opened Tree
  import opened CpuTree

  class Topology {
    var nodes: seq<TopoObj>
    var packages: seq<TopoObj>
    var caches: seq<TopoObj>
    var cpus: seq<TopoObj>
    var packageCount: nat
    var cacheDomainCount: nat
    var coreCount: nat
    const banned: set<nat>
    const numaAvail: bool

    ghost var objs: set<TopoObj>
    // The CPUs added, with the masks they were added with, and the number skipped.
    ghost var seen: seq<Desc>
    ghost var skipped: nat

    ghost function Value(): (f: Forest)
      reads this, objs
      ensures f.children.Keys == objs && f.parent.Keys == objs
    {
      Forest(nodes, packages, caches, cpus, map o | o in objs :: o.children, map o | o in objs :: o.parent)
    }

    ghost predicate CountsMatch()
      reads this
    {
      packageCount == |packages| && cacheDomainCount == |caches| && coreCount == |cpus| + skipped
    }

    /** No object below the nodes has a banned CPU in its mask, and none has been used yet. */
    ghost predicate Blank()
      reads this, objs
    {
      forall o | o in objs :: (o.kind != ObjNode ==> o.mask !! banned) && o.Fields() == ObjState(0, 0, false, [])
    }

    /** The tree is well linked, and holds exactly the CPUs seen. */
    ghost predicate Valid()
      reads this, objs
    {
      && Grown(Value()) && Records(Value(), seen)
      && CountsMatch() && Blank()
      && |nodes| > 0
    }

    /** build_numa_node_list has run: the unspecified node comes first. */
    constructor (nodes: seq<TopoObj>, banned: set<nat>, numaAvail: bool)
      requires |nodes| > 0 && NoDup(nodes)
      requires forall o | o in nodes :: o.kind == ObjNode && o.children == [] && o.parent == null && o.Fields() == ObjState(0, 0, false, [])
      ensures Valid() && this.nodes == nodes && this.banned == banned && this.numaAvail == numaAvail
      ensures seen == [] && skipped == 0 && objs == set o | o in nodes
    {
      this.nodes, packages, caches, cpus := nodes, [], [], [];
      packageCount, cacheDomainCount, coreCount := 0, 0, 0;
      this.banned, this.numaAvail := banned, numaAvail;
      objs, seen, skipped := set o | o in nodes, [], 0;
      new;
      hide *;
      JustNodes(this);
    }

    /** get_numa_node */
    method GetNumaNode(nodeId: int) returns (node: TopoObj?)
      requires |nodes| > 0
      ensures node == NodeFor(nodes, numaAvail, nodeId) && (node != null ==> node in nodes)
    {
      if !numaAvail || nodeId == -1 {
        return nodes[0];
      }
      var i := 0;
      while i < |nodes|
        invariant i <= |nodes| && forall j | 0 <= j < i :: nodes[j].number != nodeId
      {
        if nodes[i].number == nodeId {
          FirstIs(nodes, nodeId, i);
          return nodes[i];
        }
        i := i + 1;
      }
      FirstIs(nodes, nodeId, i);
      return null;
    }

    /** The search for a mask at the head of add_cpu_to_cache_domain and add_cache_domain_to_package */
    method SearchMask(list: seq<TopoObj>, mask: set<nat>) returns (i: nat)
      ensures i == FindMask(list, mask)
    {
      i := 0;
      while i < |list| && list[i].mask != mask
        invariant i <= |list| && forall j | 0 <= j < i :: list[j].mask != mask
        decreases |list| - i
      {
        i := i + 1;
      }
      FirstMask(list, mask, i);
    }

    /** The second half of those two: c is appended to p's children, unless it is there. */
    method AdoptChild(p: TopoObj, c: TopoObj)
      requires p in objs && c in objs
      modifies p`children, c`parent
      ensures Value() == Adopt(old(Value()), p, c)
    {
      var i := 0;
      while i < |p.children| && p.children[i] != c
        invariant i <= |p.children| && forall j | 0 <= j < i :: p.children[j] != c
      {
        i := i + 1;
      }
      if i == |p.children| {
        assert c !in p.children;
        p.children := p.children + [c];
        c.parent := p;
        assert Value().children == Adopt(old(Value()), p, c).children;
        assert Value().parent == Adopt(old(Value()), p, c).parent;
      }
    }

    /** An object made by calloc, not on a list yet. */
    method MakeObject(kind: Kind, number: int, mask: set<nat>) returns (o: TopoObj)
      modifies this`objs
      ensures fresh(o) && o !in old(objs) && objs == old(objs) + {o}
      ensures o.kind == kind && o.number == number && o.mask == mask && o.Fields() == ObjState(0, 0, false, [])
      ensures Value() == NewObject(old(Value()), o)
    {
      o := new TopoObj(kind, number, mask);
      ghost var f := Value();
      objs := objs + {o};
      assert Value().children == NewObject(f, o).children;
      assert Value().parent == NewObject(f, o).parent;
    }

    method AppendCache(cache: TopoObj)
      modifies this`caches, this`cacheDomainCount
      ensures Value() == old(Value()).(caches := old(caches) + [cache])
      ensures cacheDomainCount == old(cacheDomainCount) + 1 && caches == old(caches) + [cache]
    {
      caches := caches + [cache];
      cacheDomainCount := cacheDomainCount + 1;
      assert Value().children == old(Value()).children && Value().parent == old(Value()).parent;
    }

    /** The first half of add_cpu_to_cache_domain: the cache domain with this mask, found or made */
    method FindCache(cacheMask: set<nat>) returns (cache: TopoObj, ghost spare: TopoObj)
      requires Listed(Value()) && CountsMatch() && Blank() && cacheMask !! banned
      modifies this`objs, this`caches, this`cacheDomainCount
      ensures old(objs) <= objs && CountsMatch() && Blank() && cache in objs
      ensures (Value(), cache) == CacheFor(old(Value()), cacheMask, spare)
      ensures FindMask(old(caches), cacheMask) == |old(caches)| ==>
        spare !in old(objs) && spare.kind == ObjCache && spare.mask == cacheMask
      ensures forall o | o in objs && o !in old(objs) :: fresh(o) && o.kind == ObjCache
    {
      hide Listed, NewObject, FindMask, Value;
      ghost var f := Value();
      ListsOf();
      var entry := SearchMask(caches, cacheMask);
      if entry < |caches| {
        cache := caches[entry];
        spare := cache;
        ListedThere(f, cache);
      } else {
        cache := MakeObject(ObjCache, cacheDomainCount, cacheMask);
        spare := cache;
        AppendCache(cache);
      }
    }

    lemma ListsOf()
      ensures Value().caches == caches && Value().packages == packages && Value().nodes == nodes && Value().cpus == cpus
    {
    }

    /** add_cpu_to_cache_domain */
    method AddCpuToCacheDomain(cpu: TopoObj, cacheMask: set<nat>) returns (cache: TopoObj, ghost spare: TopoObj)
      requires Listed(Value()) && CountsMatch() && Blank() && cpu in objs && cacheMask !! banned
      modifies this`objs, this`caches, this`cacheDomainCount, objs`children, cpu`parent
      ensures cache in objs && old(objs) <= objs && CountsMatch() && Blank()
      ensures (Value(), cache) == AddCpuToCache(old(Value()), cpu, cacheMask, spare)
      ensures FindMask(old(caches), cacheMask) == |old(caches)| ==>
        spare !in old(objs) && spare.kind == ObjCache && spare.mask == cacheMask
      ensures forall o | o in objs && o !in old(objs) :: fresh(o) && o.kind == ObjCache
    {
      hide Listed, Adopt, CacheFor, Value, FindMask;
      cache, spare := FindCache(cacheMask);
      AdoptChild(cache, cpu);
    }

    method AppendPackage(package: TopoObj)
      modifies this`packages, this`packageCount
      ensures Value() == old(Value()).(packages := old(packages) + [package])
      ensures packageCount == old(packageCount) + 1 && packages == old(packages) + [package]
    {
      packages := packages + [package];
      packageCount := packageCount + 1;
      assert Value().children == old(Value()).children && Value().parent == old(Value()).parent;
    }

    /** The first half of add_cache_domain_to_package: the package with this mask, found or made */
    method FindPackage(packageId: int, packageMask: set<nat>) returns (package: TopoObj, ghost spare: TopoObj)
      requires Listed(Value()) && CountsMatch() && Blank() && packageMask !! banned
      modifies this`objs, this`packages, this`packageCount
      ensures old(objs) <= objs && CountsMatch() && Blank() && package in objs
      ensures (Value(), package) == PackageFor(old(Value()), packageMask, spare)
      ensures FindMask(old(packages), packageMask) == |old(packages)| ==>
        spare !in old(objs) && spare.kind == ObjPackage && spare.mask == packageMask
      ensures forall o | o in objs && o !in old(objs) :: fresh(o) && o.kind == ObjPackage
    {
      hide Listed, NewObject, FindMask, Value;
      ghost var f := Value();
      ListsOf();
      var entry := SearchMask(packages, packageMask);
      if entry < |packages| {
        package := packages[entry];
        spare := package;
        ListedThere(f, package);
      } else {
        package := MakeObject(ObjPackage, packageId, packageMask);
        spare := package;
        AppendPackage(package);
      }
    }

    /** add_cache_domain_to_package */
    method AddCacheDomainToPackage(cache: TopoObj, packageId: int, packageMask: set<nat>) returns (package: TopoObj, ghost spare: TopoObj)
      requires Listed(Value()) && CountsMatch() && Blank() && cache in objs && packageMask !! banned
      modifies this`objs, this`packages, this`packageCount, objs`children, cache`parent
      ensures package in objs && old(objs) <= objs && CountsMatch() && Blank()
      ensures (Value(), package) == AddCacheToPackage(old(Value()), cache, packageMask, spare)
      ensures FindMask(old(packages), packageMask) == |old(packages)| ==>
        spare !in old(objs) && spare.kind == ObjPackage && spare.mask == packageMask
      ensures forall o | o in objs && o !in old(objs) :: fresh(o) && o.kind == ObjPackage
    {
      hide Listed, Adopt, PackageFor, Value, FindMask;
      package, spare := FindPackage(packageId, packageMask);
      AdoptChild(package, cache);
    }

    /** add_package_to_node, the node having been looked up */
    method LinkPackageToNode(package: TopoObj, node: TopoObj?)
      requires package in objs && (node != null ==> node in objs)
      modifies objs`children, package`parent
      ensures Value() == AddPackageToNode(old(Value()), package, node)
    {
      if node == null {
        return;
      }
      if package.parent == null {
        node.children := node.children + [package];
        package.parent := node;
        assert Value().children == AddPackageToNode(old(Value()), package, node).children;
        assert Value().parent == AddPackageToNode(old(Value()), package, node).parent;
      }
    }

    method AppendCpu(cpu: TopoObj)
      modifies this`cpus, this`coreCount
      ensures Value() == old(Value()).(cpus := old(cpus) + [cpu])
      ensures coreCount == old(coreCount) + 1 && cpus == old(cpus) + [cpu]
    {
      cpus := cpus + [cpu];
      coreCount := coreCount + 1;
      assert Value().children == old(Value()).children && Value().parent == old(Value()).parent;
    }

    /** The first half of do_one_cpu's tree building: the CPU and its cache domain */
    method PlaceBelowCache(number: nat, cacheMask: set<nat>) returns (cpu: TopoObj, cache: TopoObj, ghost spare: TopoObj)
      requires Grown(Value()) && CountsMatch() && Blank() && number !in banned && cacheMask !! banned
      modifies this`objs, this`caches, this`cacheDomainCount, objs`children
      ensures fresh(cpu) && cpu !in old(objs) && cpu.kind == ObjCpu && cpu.number == number && cpu.mask == {number}
      ensures (Value(), cache) == AddCpuToCache(NewObject(old(Value()), cpu), cpu, cacheMask, spare)
      ensures FindMask(old(caches), cacheMask) == |old(caches)| ==>
        spare !in old(objs) && spare.kind == ObjCache && spare.mask == cacheMask
      ensures old(objs) <= objs && cpu in objs && cache in objs && CountsMatch() && Blank() && Listed(Value())
      ensures forall o | o in objs && o !in old(objs) :: fresh(o)
    {
      hide Grown, Listed, Value, AddCpuToCache, NewObject, FindMask;
      ghost var f := Value();
      ListsOf();
      cpu := MakeObject(ObjCpu, number, {number});
      ghost var f0 := Value();
      ghost var d := Desc(cpu, cacheMask, {}, null);
      NewCpuListed(f, d, f0);
      ListsOf();
      cache, spare := AddCpuToCacheDomain(cpu, cacheMask);
      HalfListed(f, d, spare, Value(), cache);
    }

    /** The second half: the package and its node */
    method PlaceAbove(cache: TopoObj, packageId: int, packageMask: set<nat>, nodeId: int)
      returns (package: TopoObj, node: TopoObj?, ghost spare: TopoObj)
      requires Listed(Value()) && CountsMatch() && Blank() && |nodes| > 0 && cache in objs && packageMask !! banned
      modifies this`objs, this`packages, this`packageCount, objs`children, objs`parent
      ensures Value() == AddPackageToNode(AddCacheToPackage(old(Value()), cache, packageMask, spare).0, package, node)
      ensures package == AddCacheToPackage(old(Value()), cache, packageMask, spare).1
      ensures FindMask(old(packages), packageMask) == |old(packages)| ==>
        spare !in old(objs) && spare.kind == ObjPackage && spare.mask == packageMask
      ensures node == NodeFor(nodes, numaAvail, nodeId) && (node != null ==> node in nodes)
      ensures CountsMatch() && Blank()
    {
      hide Listed, Value, AddCacheToPackage, AddPackageToNode, FindMask;
      ghost var f := Value();
      ListsOf();
      package, spare := AddCacheDomainToPackage(cache, packageId, packageMask);
      node := GetNumaNode(nodeId);
      if node != null {
        ListedThere(f, node);
      }
      LinkPackageToNode(package, node);
    }

    /** The part of do_one_cpu that builds the tree, for an online CPU that is not banned */
    method PlaceCpu(number: nat, packageId: int, cacheMask: set<nat>, packageMask: set<nat>, nodeId: int)
      returns (ghost d: Desc, ghost s: Spares)
      requires Grown(Value()) && CountsMatch() && Blank() && |nodes| > 0
      requires number !in banned && cacheMask !! banned && packageMask !! banned
      modifies this`objs, this`packages, this`packageCount, this`caches, this`cacheDomainCount, this`cpus, this`coreCount
      modifies objs`children, objs`parent
      ensures Usable(old(Value()), d, s) && Value() == AddCpu(old(Value()), d, s)
      ensures d.cacheMask == cacheMask && d.packageMask == packageMask && fresh(d.cpu)
      ensures d.cpu.number == number && d.cpu.mask == {number}
      ensures d.node == NodeFor(nodes, numaAvail, nodeId) && (d.node != null ==> d.node in nodes)
      ensures coreCount == old(coreCount) + 1 && CountsMatch() && Blank()
    {
      hide *;
      ghost var f := Value();
      ListsOf();
      CountsKept();
      var cpu, cache, spareCache := PlaceBelowCache(number, cacheMask);
      ghost var f1 := Value();
      var package, node, sparePackage := PlaceAbove(cache, packageId, packageMask, nodeId);
      ghost var f3 := Value();
      ListsOf();
      CountsKept();
      BlankKept();
      AppendCpu(cpu);
      CountsKept();
      BlankKept();
      d := Desc(cpu, cacheMask, packageMask, node);
      s := Spares(spareCache, sparePackage);
      AddCpuIs(f, d, s, f1, cache, AddCacheToPackage(f1, cache, packageMask, sparePackage).0, package, f3, Value());
      UsableHere(f, d, s);
    }

    /** do_one_cpu, for an online CPU, with what it reads: the package id, the masks of
        the CPUs that share its cache and its package, and its node.  Banned CPUs are
        counted but not added, and blanked out of the masks. */
    method DoOneCpu(number: nat, packageId: int, cacheMask: set<nat>, packageMask: set<nat>, nodeId: int)
      requires Valid()
      modifies this, objs`children, objs`parent
      ensures Valid() && nodes == old(nodes)
      ensures coreCount == old(coreCount) + 1
      ensures number in banned ==> Value() == old(Value()) && seen == old(seen) && objs == old(objs)
      ensures number !in banned ==>
        && |seen| == |old(seen)| + 1 && seen[..|old(seen)|] == old(seen)
        && var d := seen[|old(seen)|];
           d.cacheMask == cacheMask - banned && d.packageMask == packageMask - banned
           && d.cpu.number == number && d.cpu.mask == {number} && fresh(d.cpu)
      ensures number !in banned ==> seen[|old(seen)|].node == NodeFor(nodes, numaAvail, nodeId)
      ensures old(PackagesParented(Value())) && (number !in banned ==> seen[|old(seen)|].node != null) ==> PackagesParented(Value())
    {
      hide Grown, Records, Value, AddCpu, Usable, PackagesParented;
      ghost var f := Value();
      if number in banned {
        SkipCpu();
        return;
      }
      ghost var d, s := PlaceCpu(number, packageId, cacheMask - banned, packageMask - banned, nodeId);
      AddCpuDoes(f, seen, d, s);
      if d.node != null && PackagesParented(f) {
        AddCpuParents(f, d, s);
      }
      NoteCpu(d);
    }

    method SkipCpu()
      modifies this`skipped, this`coreCount
      ensures Value() == old(Value()) && coreCount == old(coreCount) + 1 && skipped == old(skipped) + 1
    {
      skipped := skipped + 1;
      coreCount := coreCount + 1;
      assert Value().children == old(Value()).children && Value().parent == old(Value()).parent;
    }

    ghost method NoteCpu(d: Desc)
      modifies this`seen
      ensures Value() == old(Value()) && seen == old(seen) + [d]
    {
      seen := seen + [d];
      assert Value().children == old(Value()).children && Value().parent == old(Value()).parent;
    }

    lemma CountsKept()
      ensures CountsMatch() <==> packageCount == |packages| && cacheDomainCount == |caches| && coreCount == |cpus| + skipped
    {
    }

    lemma BlankKept()
      ensures Blank() <==> forall o | o in objs :: (o.kind != ObjNode ==> o.mask !! banned) && o.Fields() == ObjState(0, 0, false, [])
    {
    }
  }

  lemma UsableHere(f: Forest, d: Desc, s: Spares)
    requires Grown(f) && f.children.Keys == f.parent.Keys && d.cpu !in f.children && d.cpu.kind == ObjCpu
    requires FindMask(f.caches, d.cacheMask) == |f.caches| ==>
      s.cache !in f.children && s.cache.kind == ObjCache && s.cache.mask == d.cacheMask
    requires FindMask(f.packages, d.packageMask) == |f.packages| ==>
      s.package !in f.children && s.package.kind == ObjPackage && s.package.mask == d.packageMask
    requires d.node != null ==> d.node in f.nodes
    ensures Usable(f, d, s)
  {
    hide Complete, Kids, Links, FindMask;
  }

  /** The tree is on the lists also while a CPU is being added. */
  lemma NewCpuListed(f: Forest, d: Desc, f0: Forest)
    requires Grown(f) && NewCpu(f, d) && f0 == NewObject(f, d.cpu)
    ensures Listed(f0) && f0.caches == f.caches && f0.packages == f.packages && f0.nodes == f.nodes
  {
    hide Listed, Complete, Kids, Links;
    CpuJoins(f, d.cpu);
    JoinedListed(f, d.cpu, f0);
  }

  lemma HalfListed(f: Forest, d: Desc, spare: TopoObj, f1: Forest, cache: TopoObj)
    requires Grown(f) && NewCpu(f, d)
    requires FindMask(f.caches, d.cacheMask) == |f.caches| ==>
      spare !in f.children && spare !in f.parent && spare.kind == ObjCache && spare.mask == d.cacheMask
    requires (f1, cache) == AddCpuToCache(NewObject(f, d.cpu), d.cpu, d.cacheMask, spare)
    ensures Listed(f1)
  {
    hide Listed, Complete, Kids, Links, Extends, NewObject, CacheFor, FindMask;
    CacheHalf(f, d, Spares(spare, spare), f1, cache);
  }

  lemma AddCpuIs(f: Forest, d: Desc, s: Spares, f1: Forest, cache: TopoObj, f2: Forest, package: TopoObj, f3: Forest, f4: Forest)
    requires (f1, cache) == AddCpuToCache(NewObject(f, d.cpu), d.cpu, d.cacheMask, s.cache)
    requires (f2, package) == AddCacheToPackage(f1, cache, d.packageMask, s.package)
    requires f3 == AddPackageToNode(f2, package, d.node) && f4 == f3.(cpus := f3.cpus + [d.cpu])
    ensures f4 == AddCpu(f, d, s)
  {
    hide NewObject, AddCpuToCache, AddCacheToPackage, AddPackageToNode;
  }

  lemma ListedThere(f: Forest, o: TopoObj)
    requires Listed(f)
    ensures o in f.caches || o in f.packages || o in f.nodes ==> o in f.children && o in f.parent
  {
  }

  /** A tree of nodes only. */
  lemma JustNodes(t: Topology)
    requires t.packages == [] && t.caches == [] && t.cpus == [] && NoDup(t.nodes) && |t.nodes| > 0
    requires t.objs == set o | o in t.nodes
    requires forall o | o in t.nodes :: o.kind == ObjNode && o.children == [] && o.parent == null && o.Fields() == ObjState(0, 0, false, [])
    requires t.seen == [] && t.skipped == 0 && t.packageCount == 0 && t.cacheDomainCount == 0 && t.coreCount == 0
    ensures t.Valid()
  {
    var f := t.Value();
    assert forall o | o in f.children :: o.kind == ObjNode && f.children[o] == [] && f.parent[o] == null;
    hide *;
    NodesOnly(f);
    NodesValid(t);
  }

  lemma NodesValid(t: Topology)
    requires Grown(t.Value()) && Records(t.Value(), []) && t.seen == []
    requires t.packages == [] && t.caches == [] && t.cpus == [] && |t.nodes| > 0 && t.objs == set o | o in t.nodes
    requires forall o | o in t.nodes :: o.kind == ObjNode && o.Fields() == ObjState(0, 0, false, [])
    requires t.skipped == 0 && t.packageCount == 0 && t.cacheDomainCount == 0 && t.coreCount == 0
    ensures t.Valid()
  {
    hide Grown, Records;
  }

  /** The first node with this number. */
  function FirstNumbered(list: seq<TopoObj>, number: int): (r: TopoObj?)
    ensures r != null ==> r in list && r.number == number
    ensures r == null <==> forall n | n in list :: n.number != number
  {
    if list == [] then null else if list[0].number == number then list[0] else FirstNumbered(list[1..], number)
  }

  /** get_numa_node: the unspecified node comes first. */
  function NodeFor(nodes: seq<TopoObj>, numaAvail: bool, nodeId: int): TopoObj?
    requires |nodes| > 0
  {
    if !numaAvail || nodeId == -1 then nodes[0] else FirstNumbered(nodes, nodeId)
  }

  lemma {:induction false} FirstIs(list: seq<TopoObj>, number: int, i: nat)
    requires i <= |list| && (i < |list| ==> list[i].number == number) && forall j | 0 <= j < i :: list[j].number != number
    ensures FirstNumbered(list, number) == if i < |list| then list[i] else null
  {
    if i > 0 {
      FirstIs(list[1..], number, i - 1);
    }
  }

  lemma {:induction false} FirstMask(list: seq<TopoObj>, mask: set<nat>, i: nat)
    requires i <= |list| && (i < |list| ==> list[i].mask == mask) && forall j | 0 <= j < i :: list[j].mask != mask
    ensures FindMask(list, mask) == i
  {
    if i > 0 {
      FirstMask(list[1..], mask, i - 1);
    }
  }

  /** In a tree built by do_one_cpu, whatever the order of the CPUs: counters are list
      lengths, no two caches and no two packages have the same mask, each CPU's parent
      is the cache with its mask, and the links between caches and packages are a forest
      exactly when equal (restricted) cache masks came with equal package masks. */
  lemma BuiltTree(t: Topology)
    requires t.Valid()
    ensures t.packageCount == |t.packages| && t.cacheDomainCount == |t.caches| && t.coreCount == |t.cpus| + t.skipped
    ensures DistinctMasks(t.caches) && DistinctMasks(t.packages) && |t.cpus| == |t.seen|
    ensures forall i | 0 <= i < |t.cpus| ::
      t.cpus[i] in t.objs && t.cpus[i].parent != null && t.cpus[i].parent in t.caches && t.cpus[i].parent.mask == t.seen[i].cacheMask
    ensures IsForest(t.Value()) <==> Consistent(t.seen)
  {
    ForestIff(t.Value(), t.seen);
    hide Complete, Kids, Links, CachesParented, PairsSeen, Consistent, IsForest;
    forall i | 0 <= i < |t.cpus|
      ensures t.cpus[i] in t.objs && t.cpus[i].parent != null && t.cpus[i].parent in t.caches && t.cpus[i].parent.mask == t.seen[i].cacheMask
    {
      assert Placed(t.Value(), t.seen[i]);
    }
  }

  /** Such a tree is what the balancer relies on. */
  lemma BuiltTreeIsOk(t: Topology, cfg: Config)
    requires t.Valid() && Consistent(t.seen) && PackagesParented(t.Value())
    requires cfg.nodes == t.nodes && cfg.packages == t.packages && cfg.caches == t.caches && cfg.cpus == t.cpus
    requires cfg.children == t.Value().children && cfg.parent == t.Value().parent && cfg.banned == t.banned
    ensures TreeOk(cfg, t.objs)
  {
    hide Grown, Records, Consistent, PackagesParented, TreeOk;
    TreeIsOk(t.Value(), t.seen, cfg);
  }
}
