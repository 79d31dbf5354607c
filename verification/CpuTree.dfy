/** cputree.c: the object tree grows CPU by CPU; when it is a forest, and that it
    then is what the balancer relies on. */
module CpuTree {
  import opened MergeSort
  import opened Irqs
  import opened Tree

  /** The lists and links of the tree. */
  datatype Forest = Forest(nodes: seq<TopoObj>, packages: seq<TopoObj>, caches: seq<TopoObj>, cpus: seq<TopoObj>,
                           children: map<TopoObj, seq<TopoObj>>, parent: map<TopoObj, TopoObj?>)

  // ---- the operations ----

  /** The position of the first object with this mask, or the length. */
  function FindMask(list: seq<TopoObj>, mask: set<nat>): (i: nat)
    ensures i <= |list| && (i < |list| ==> list[i].mask == mask)
    ensures forall j | 0 <= j < i :: list[j].mask != mask
  {
    if list == [] then 0 else if list[0].mask == mask then 0 else 1 + FindMask(list[1..], mask)
  }

  /** c becomes a child of p unless it is one already. */
  function Adopt(f: Forest, p: TopoObj, c: TopoObj): Forest {
    if p !in f.children || c in f.children[p] then f
    else f.(children := f.children[p := f.children[p] + [c]], parent := f.parent[c := p])
  }

  function NewObject(f: Forest, o: TopoObj): Forest {
    f.(children := f.children[o := []], parent := f.parent[o := null])
  }

  /** The cache domain with this mask, made from `spare` if there is none. */
  function CacheFor(f: Forest, mask: set<nat>, spare: TopoObj): (r: (Forest, TopoObj))
    ensures r.1 == spare || r.1 in f.caches
  {
    var k := FindMask(f.caches, mask);
    if k < |f.caches| then (f, f.caches[k]) else (NewObject(f, spare).(caches := f.caches + [spare]), spare)
  }

  function PackageFor(f: Forest, mask: set<nat>, spare: TopoObj): (r: (Forest, TopoObj))
    ensures r.1 == spare || r.1 in f.packages
  {
    var k := FindMask(f.packages, mask);
    if k < |f.packages| then (f, f.packages[k]) else (NewObject(f, spare).(packages := f.packages + [spare]), spare)
  }

  /** add_package_to_node */
  function AddPackageToNode(f: Forest, p: TopoObj, node: TopoObj?): Forest {
    if node == null || node !in f.children || p !in f.parent || f.parent[p] != null then f
    else f.(children := f.children[node := f.children[node] + [p]], parent := f.parent[p := node])
  }

  // ---- what the tree says ----

  ghost predicate DistinctMasks(list: seq<TopoObj>) {
    forall i, j | 0 <= i < j < |list| :: list[i].mask != list[j].mask
  }

  /** A list of distinct objects of one kind. */
  ghost predicate OfKind(f: Forest, list: seq<TopoObj>, kind: Kind) {
    NoDup(list) && forall o | o in list :: o in f.children && o in f.parent && o.kind == kind
  }

  /** Every object above the CPUs is on the list of its kind, once; masks tell
      caches and packages apart. */
  ghost predicate Listed(f: Forest) {
    && OfKind(f, f.nodes, ObjNode) && OfKind(f, f.packages, ObjPackage)
    && OfKind(f, f.caches, ObjCache) && OfKind(f, f.cpus, ObjCpu)
    && DistinctMasks(f.caches) && DistinctMasks(f.packages)
  }

  ghost predicate Complete(f: Forest) {
    && f.children.Keys == f.parent.Keys
    && (forall o | o in f.children && o.kind == ObjNode :: o in f.nodes)
    && (forall o | o in f.children && o.kind == ObjPackage :: o in f.packages)
    && (forall o | o in f.children && o.kind == ObjCache :: o in f.caches)
  }

  /** An object's children: distinct, known, and of the next kind. */
  ghost predicate Kids(f: Forest) {
    && (forall o | o in f.children :: NoDup(f.children[o]))
    && (forall o, x | o in f.children && x in f.children[o] ::
          x in f.children && x in f.parent && x.kind.Depth() == o.kind.Depth() + 1)
  }

  /** Children of objects of this kind have that object as their parent. */
  ghost predicate ChildrenOf(f: Forest, kind: Kind) {
    forall o, x | o in f.children && o.kind == kind && x in f.children[o] :: x in f.parent && f.parent[x] == o
  }

  /** Children of objects of this kind have some parent. */
  ghost predicate Parented(f: Forest, kind: Kind) {
    forall o, x | o in f.children && o.kind == kind && x in f.children[o] :: x in f.parent && f.parent[x] != null
  }

  /** Objects of this kind are children of their parent, which is of the kind above. */
  ghost predicate ParentsHave(f: Forest, kind: Kind) {
    forall x | x in f.parent && x.kind == kind && f.parent[x] != null ::
      && f.parent[x] in f.children && f.parent[x].kind.Depth() + 1 == kind.Depth()
      && x in f.children[f.parent[x]]
  }

  /** Links between CPUs and caches and between packages and nodes are inverse to
      each other.  Those between caches and packages need not be: see `ForestIff`. */
  ghost predicate Links(f: Forest) {
    && ChildrenOf(f, ObjCache) && ChildrenOf(f, ObjNode) && Parented(f, ObjPackage)
    && ParentsHave(f, ObjCpu) && ParentsHave(f, ObjCache) && ParentsHave(f, ObjPackage) && ParentsHave(f, ObjNode)
  }

  ghost predicate Grown(f: Forest) {
    Listed(f) && Complete(f) && Kids(f) && Links(f)
  }

  // ---- how a step keeps it ----

  lemma SameMask(list: seq<TopoObj>, a: TopoObj, b: TopoObj)
    requires DistinctMasks(list) && a in list && b in list && a.mask == b.mask
    ensures a == b
  {
    var i :| 0 <= i < |list| && list[i] == a;
    var j :| 0 <= j < |list| && list[j] == b;
    assert i == j;
  }

  lemma ListGrows(list: seq<TopoObj>, o: TopoObj)
    requires NoDup(list) && o !in list
    ensures NoDup(list + [o])
    ensures forall x :: x in list + [o] <==> x in list || x == o
    ensures DistinctMasks(list) && FindMask(list, o.mask) == |list| ==> DistinctMasks(list + [o])
  {
  }

  /** A new object joins the tree, linked to nothing yet. */
  ghost predicate Joined(f: Forest, spare: TopoObj, f1: Forest) {
    && spare !in f.children && spare !in f.parent
    && f1.children == f.children[spare := []] && f1.parent == f.parent[spare := null]
    && f1.nodes == f.nodes && f1.cpus == f.cpus
    && f1.caches == (if spare.kind == ObjCache then f.caches + [spare] else f.caches)
    && f1.packages == (if spare.kind == ObjPackage then f.packages + [spare] else f.packages)
    && (spare.kind == ObjCache ==> FindMask(f.caches, spare.mask) == |f.caches|)
    && (spare.kind == ObjPackage ==> FindMask(f.packages, spare.mask) == |f.packages|)
    && spare.kind != ObjNode
  }

  lemma OfKindKept(f: Forest, f1: Forest, list: seq<TopoObj>, kind: Kind)
    requires OfKind(f, list, kind) && f.children.Keys <= f1.children.Keys && f.parent.Keys <= f1.parent.Keys
    ensures OfKind(f1, list, kind)
  {
  }

  lemma OfKindGrows(f: Forest, f1: Forest, list: seq<TopoObj>, spare: TopoObj)
    requires OfKind(f1, list, spare.kind) && spare !in f.children && spare in f1.children && spare in f1.parent
    requires OfKind(f, list, spare.kind)
    ensures OfKind(f1, list + [spare], spare.kind)
  {
    ListGrows(list, spare);
  }

  lemma JoinedListed(f: Forest, spare: TopoObj, f1: Forest)
    requires Listed(f) && Joined(f, spare, f1)
    ensures Listed(f1)
  {
    hide OfKind, FindMask, DistinctMasks;
    OfKindKept(f, f1, f.nodes, ObjNode);
    OfKindKept(f, f1, f.packages, ObjPackage);
    OfKindKept(f, f1, f.caches, ObjCache);
    OfKindKept(f, f1, f.cpus, ObjCpu);
    if spare.kind == ObjCache {
      OfKindGrows(f, f1, f.caches, spare);
      OfKindNew(f, f.caches, spare);
      ListGrows(f.caches, spare);
    } else if spare.kind == ObjPackage {
      OfKindGrows(f, f1, f.packages, spare);
      OfKindNew(f, f.packages, spare);
      ListGrows(f.packages, spare);
    }
  }

  lemma OfKindNew(f: Forest, list: seq<TopoObj>, spare: TopoObj)
    requires OfKind(f, list, spare.kind) && spare !in f.children
    ensures NoDup(list) && spare !in list
  {
  }

  lemma JoinedComplete(f: Forest, spare: TopoObj, f1: Forest)
    requires Complete(f) && Joined(f, spare, f1)
    ensures Complete(f1)
  {
    hide FindMask;
  }

  /** The links are those of f; `spare`, if new, has none. */
  ghost predicate Unlinked(f: Forest, f1: Forest, spare: TopoObj) {
    && spare !in f.children && spare !in f.parent && spare in f1.children && spare in f1.parent
    && f1.children[spare] == [] && f1.parent[spare] == null
    && (forall o | o in f1.children && o != spare :: o in f.children && f1.children[o] == f.children[o])
    && (forall o | o in f1.parent && o != spare :: o in f.parent && f1.parent[o] == f.parent[o])
    && (forall o | o in f.children :: o in f1.children)
    && (forall o | o in f.parent :: o in f1.parent)
  }

  lemma JoinedUnlinked(f: Forest, spare: TopoObj, f1: Forest)
    requires Joined(f, spare, f1)
    ensures Unlinked(f, f1, spare) && spare.kind != ObjNode
  {
    hide FindMask;
  }

  lemma UnlinkedKids(f: Forest, f1: Forest, spare: TopoObj)
    requires Kids(f) && Unlinked(f, f1, spare)
    ensures Kids(f1)
  {
  }

  lemma UnlinkedDown(f: Forest, f1: Forest, spare: TopoObj, kind: Kind)
    requires Kids(f) && ChildrenOf(f, kind) && Unlinked(f, f1, spare)
    ensures ChildrenOf(f1, kind)
  {
    forall o, x | o in f1.children && o.kind == kind && x in f1.children[o]
      ensures x in f1.parent && f1.parent[x] == o
    {
      assert o != spare && x in f.children[o] && x != spare;
    }
  }

  lemma UnlinkedParented(f: Forest, f1: Forest, spare: TopoObj, kind: Kind)
    requires Kids(f) && Parented(f, kind) && Unlinked(f, f1, spare)
    ensures Parented(f1, kind)
  {
    forall o, x | o in f1.children && o.kind == kind && x in f1.children[o]
      ensures x in f1.parent && f1.parent[x] != null
    {
      assert o != spare && x in f.children[o] && x != spare;
    }
  }

  lemma UnlinkedUp(f: Forest, f1: Forest, spare: TopoObj, kind: Kind)
    requires Unlinked(f, f1, spare) && ParentsHave(f, kind)
    ensures ParentsHave(f1, kind)
  {
  }

  lemma JoinedLinks(f: Forest, spare: TopoObj, f1: Forest)
    requires Kids(f) && Links(f) && Joined(f, spare, f1)
    ensures Kids(f1) && Links(f1)
  {
    hide Kids, Joined, Unlinked, ChildrenOf, ParentsHave, Parented;
    JoinedUnlinked(f, spare, f1);
    UnlinkedKids(f, f1, spare);
    UnlinkedDown(f, f1, spare, ObjCache);
    UnlinkedDown(f, f1, spare, ObjNode);
    UnlinkedParented(f, f1, spare, ObjPackage);
    UnlinkedUp(f, f1, spare, ObjCpu);
    UnlinkedUp(f, f1, spare, ObjCache);
    UnlinkedUp(f, f1, spare, ObjPackage);
    UnlinkedUp(f, f1, spare, ObjNode);
  }

  lemma JoinedGrown(f: Forest, spare: TopoObj, f1: Forest)
    requires Grown(f) && Joined(f, spare, f1)
    ensures Grown(f1)
  {
    hide Listed, Complete, Kids, Links, Joined;
    JoinedListed(f, spare, f1);
    JoinedComplete(f, spare, f1);
    JoinedLinks(f, spare, f1);
  }

  lemma AdoptIs(f: Forest, p: TopoObj, c: TopoObj)
    requires Complete(f) && p in f.children && c in f.children && c.kind.Depth() == p.kind.Depth() + 1
    ensures c in f.children[p] ==> Adopt(f, p, c) == f
    ensures c !in f.children[p] ==>
      var f1 := Adopt(f, p, c);
      Adopted(f, f1, p, c) && c in f.parent && f1 == f.(children := f1.children, parent := f1.parent)
  {
  }

  /** c is adopted by p, if it is not a child of p already. */
  lemma AdoptGrown(f: Forest, p: TopoObj, c: TopoObj)
    requires Grown(f) && p in f.children && c in f.children && c.kind.Depth() == p.kind.Depth() + 1
    requires c in f.parent && (p.kind != ObjPackage ==> f.parent[c] == null)
    ensures Grown(Adopt(f, p, c))
  {
    hide Listed, Complete, Kids, Links, Adopt, Adopted;
    AdoptIs(f, p, c);
    if c !in f.children[p] {
      AdoptedLinks(f, Adopt(f, p, c), p, c);
      AdoptedKeys(f, Adopt(f, p, c), p, c);
      AdoptListed(f, Adopt(f, p, c));
    }
  }

  lemma AdoptedKeys(f: Forest, f1: Forest, p: TopoObj, c: TopoObj)
    requires Adopted(f, f1, p, c)
    ensures f1.children.Keys == f.children.Keys && f1.parent.Keys == f.parent.Keys
  {
  }

  lemma AdoptListed(f: Forest, f1: Forest)
    requires Listed(f) && Complete(f) && f1 == f.(children := f1.children, parent := f1.parent)
    requires f1.children.Keys == f.children.Keys && f1.parent.Keys == f.parent.Keys
    ensures Listed(f1) && Complete(f1)
  {
    hide DistinctMasks;
    OfKindKept(f, f1, f.nodes, ObjNode);
    OfKindKept(f, f1, f.packages, ObjPackage);
    OfKindKept(f, f1, f.caches, ObjCache);
    OfKindKept(f, f1, f.cpus, ObjCpu);
  }

  /** f1 is f with c a new child of p. */
  ghost predicate Adopted(f: Forest, f1: Forest, p: TopoObj, c: TopoObj) {
    && p in f.children && c in f.children && c in f.parent && p != c && c !in f.children[p]
    && c.kind.Depth() == p.kind.Depth() + 1
    && f1.children.Keys == f.children.Keys && f1.parent.Keys == f.parent.Keys
    && (forall o | o in f.children && o != p :: f1.children[o] == f.children[o])
    && (forall o | o in f.parent && o != c :: f1.parent[o] == f.parent[o])
    && f1.children[p] == f.children[p] + [c] && f1.parent[c] == p
  }

  lemma AdoptedKids(f: Forest, f1: Forest, p: TopoObj, c: TopoObj)
    requires Kids(f) && Adopted(f, f1, p, c)
    ensures Kids(f1)
  {
    ListGrows(f.children[p], c);
  }

  lemma AdoptedDown(f: Forest, f1: Forest, p: TopoObj, c: TopoObj, kind: Kind)
    requires Kids(f) && ChildrenOf(f, kind) && Adopted(f, f1, p, c) && (p.kind == kind ==> f.parent[c] == null)
    ensures ChildrenOf(f1, kind)
  {
    forall o, x | o in f1.children && o.kind == kind && x in f1.children[o]
      ensures x in f1.parent && f1.parent[x] == o
    {
      if o != p {
        assert x in f.children[o] && f.parent[x] == o;
        assert x.kind.Depth() == o.kind.Depth() + 1;
        assert p.kind.Depth() == o.kind.Depth() ==> p.kind == o.kind;
      }
    }
  }

  lemma AdoptedParented(f: Forest, f1: Forest, p: TopoObj, c: TopoObj, kind: Kind)
    requires Parented(f, kind) && Adopted(f, f1, p, c)
    ensures Parented(f1, kind)
  {
    forall o, x | o in f1.children && o.kind == kind && x in f1.children[o]
      ensures x in f1.parent && f1.parent[x] != null
    {
      assert x == c || x in f.children[o];
    }
  }

  lemma AdoptedUp(f: Forest, f1: Forest, p: TopoObj, c: TopoObj, kind: Kind)
    requires ParentsHave(f, kind) && Adopted(f, f1, p, c)
    ensures ParentsHave(f1, kind)
  {
    forall x | x in f1.parent && x.kind == kind && f1.parent[x] != null
      ensures f1.parent[x] in f1.children && f1.parent[x].kind.Depth() + 1 == kind.Depth() && x in f1.children[f1.parent[x]]
    {
      if x != c {
        assert f1.parent[x] == f.parent[x] && x in f.children[f.parent[x]];
      }
    }
  }

  lemma AdoptedLinks(f: Forest, f1: Forest, p: TopoObj, c: TopoObj)
    requires Kids(f) && Links(f) && Adopted(f, f1, p, c)
    requires c in f.parent && (p.kind != ObjPackage ==> f.parent[c] == null)
    ensures Kids(f1) && Links(f1)
  {
    hide Kids, Adopted, ChildrenOf, ParentsHave, Parented;
    AdoptedKids(f, f1, p, c);
    AdoptedDown(f, f1, p, c, ObjCache);
    AdoptedDown(f, f1, p, c, ObjNode);
    AdoptedParented(f, f1, p, c, ObjPackage);
    AdoptedUp(f, f1, p, c, ObjCpu);
    AdoptedUp(f, f1, p, c, ObjCache);
    AdoptedUp(f, f1, p, c, ObjPackage);
    AdoptedUp(f, f1, p, c, ObjNode);
  }

  lemma NodeIs(f: Forest, p: TopoObj, node: TopoObj)
    requires Complete(f) && Links(f) && p in f.children && p.kind == ObjPackage && node in f.children && node.kind == ObjNode
    ensures p in f.parent
    ensures f.parent[p] == null ==>
      var f1 := AddPackageToNode(f, p, node);
      Adopted(f, f1, node, p) && f1 == f.(children := f1.children, parent := f1.parent)
  {
  }

  lemma NodeGrown(f: Forest, p: TopoObj, node: TopoObj?)
    requires Grown(f) && p in f.children && p in f.parent && p.kind == ObjPackage
    requires node != null ==> node in f.children && node.kind == ObjNode
    ensures Grown(AddPackageToNode(f, p, node))
  {
    hide Listed, Complete, Kids, Links, Adopted;
    if node != null && f.parent[p] == null {
      NodeIs(f, p, node);
      AdoptedLinks(f, AddPackageToNode(f, p, node), node, p);
      AdoptedKeys(f, AddPackageToNode(f, p, node), node, p);
      AdoptListed(f, AddPackageToNode(f, p, node));
    }
  }

  // ---- adding one CPU ----

  /** What do_one_cpu has read of an online, unbanned CPU; masks without banned CPUs. */
  datatype Desc = Desc(cpu: TopoObj, cacheMask: set<nat>, packageMask: set<nat>, node: TopoObj?)

  /** The objects made for a CPU; the cache and the package only if needed. */
  datatype Spares = Spares(cache: TopoObj, package: TopoObj)

  /** The spare cache is new, if it is needed. */
  ghost predicate SpareCache(f: Forest, d: Desc, s: Spares) {
    FindMask(f.caches, d.cacheMask) == |f.caches| ==>
      s.cache !in f.children && s.cache !in f.parent && s.cache.kind == ObjCache && s.cache.mask == d.cacheMask
  }

  ghost predicate SparePackage(f: Forest, d: Desc, s: Spares) {
    FindMask(f.packages, d.packageMask) == |f.packages| ==>
      s.package !in f.children && s.package !in f.parent && s.package.kind == ObjPackage && s.package.mask == d.packageMask
  }

  ghost predicate NewCpu(f: Forest, d: Desc) {
    d.cpu !in f.children && d.cpu !in f.parent && d.cpu.kind == ObjCpu
  }

  ghost predicate Usable(f: Forest, d: Desc, s: Spares) {
    && NewCpu(f, d) && SpareCache(f, d, s) && SparePackage(f, d, s)
    && (d.node != null ==> d.node in f.children && d.node.kind == ObjNode)
  }

  /** add_cpu_to_cache_domain */
  function AddCpuToCache(f: Forest, cpu: TopoObj, mask: set<nat>, spare: TopoObj): (Forest, TopoObj) {
    var (f1, cache) := CacheFor(f, mask, spare);
    (Adopt(f1, cache, cpu), cache)
  }

  /** add_cache_domain_to_package */
  function AddCacheToPackage(f: Forest, cache: TopoObj, mask: set<nat>, spare: TopoObj): (Forest, TopoObj) {
    var (f1, package) := PackageFor(f, mask, spare);
    (Adopt(f1, package, cache), package)
  }

  /** The part of do_one_cpu that builds the tree */
  function AddCpu(f: Forest, d: Desc, s: Spares): Forest {
    var f0 := NewObject(f, d.cpu);
    var (f1, cache) := AddCpuToCache(f0, d.cpu, d.cacheMask, s.cache);
    var (f2, package) := AddCacheToPackage(f1, cache, d.packageMask, s.package);
    var f3 := AddPackageToNode(f2, package, d.node);
    f3.(cpus := f3.cpus + [d.cpu])
  }

  lemma CpuJoins(f: Forest, cpu: TopoObj)
    requires cpu !in f.children && cpu !in f.parent && cpu.kind == ObjCpu
    ensures Joined(f, cpu, NewObject(f, cpu))
  {
  }

  lemma CacheJoins(f: Forest, mask: set<nat>, spare: TopoObj)
    requires FindMask(f.caches, mask) == |f.caches| ==> spare !in f.children && spare !in f.parent && spare.kind == ObjCache && spare.mask == mask
    ensures var (f1, cache) := CacheFor(f, mask, spare);
      && cache.mask == mask && cache in f1.caches
      && if FindMask(f.caches, mask) < |f.caches| then f1 == f && cache in f.caches else Joined(f, spare, f1) && cache == spare
  {
    assert FindMask(f.caches, mask) < |f.caches| ==> f.caches[FindMask(f.caches, mask)] in f.caches;
  }

  lemma PackageJoins(f: Forest, mask: set<nat>, spare: TopoObj)
    requires FindMask(f.packages, mask) == |f.packages| ==> spare !in f.children && spare !in f.parent && spare.kind == ObjPackage && spare.mask == mask
    ensures var (f1, package) := PackageFor(f, mask, spare);
      && package.mask == mask && package in f1.packages
      && if FindMask(f.packages, mask) < |f.packages| then f1 == f && package in f.packages else Joined(f, spare, f1) && package == spare
  {
    assert FindMask(f.packages, mask) < |f.packages| ==> f.packages[FindMask(f.packages, mask)] in f.packages;
  }

  lemma ListedHas(f: Forest, o: TopoObj)
    requires Listed(f)
    ensures o in f.caches ==> o in f.children && o in f.parent && o.kind == ObjCache
    ensures o in f.packages ==> o in f.children && o in f.parent && o.kind == ObjPackage
  {
  }

  lemma JoinedHas(f: Forest, spare: TopoObj, f1: Forest)
    requires Joined(f, spare, f1)
    ensures forall o | o in f.children :: o in f1.children && f1.children[o] == f.children[o]
    ensures forall o | o in f.parent :: o in f1.parent && f1.parent[o] == f.parent[o]
    ensures forall o | o in f1.children :: o in f.children || o == spare
    ensures forall o | o in f1.parent :: o in f.parent || o == spare
    ensures spare in f1.children && f1.children[spare] == [] && spare in f1.parent && f1.parent[spare] == null
    ensures f1.cpus == f.cpus && f1.nodes == f.nodes
    ensures forall o | o in f.caches :: o in f1.caches
    ensures forall o | o in f.packages :: o in f1.packages
    ensures forall o | o in f1.caches :: o in f.caches || o == spare
    ensures forall o | o in f1.packages :: o in f.packages || o == spare
  {
    hide FindMask;
  }

  // ---- what the CPUs added so far say ----

  ghost predicate Paired(f: Forest, cacheMask: set<nat>, packageMask: set<nat>) {
    exists c, p :: c in f.caches && p in f.packages && c.mask == cacheMask && p.mask == packageMask
                   && p in f.children && c in f.children[p]
  }

  /** The CPU is below a cache with its cache mask, and that below a package with its package mask. */
  ghost predicate Placed(f: Forest, d: Desc) {
    && d.cpu in f.parent && d.cpu.kind == ObjCpu
    && f.parent[d.cpu] != null && f.parent[d.cpu] in f.caches && f.parent[d.cpu].mask == d.cacheMask
    && Paired(f, d.cacheMask, d.packageMask)
  }

  ghost predicate Witnessed(seen: seq<Desc>, cacheMask: set<nat>, packageMask: set<nat>) {
    exists i :: 0 <= i < |seen| && seen[i].cacheMask == cacheMask && seen[i].packageMask == packageMask
  }

  ghost predicate CpusAre(f: Forest, seen: seq<Desc>) {
    && |f.cpus| == |seen| && (forall i | 0 <= i < |seen| :: f.cpus[i] == seen[i].cpu)
    && forall o | o in f.children && o.kind == ObjCpu :: o in f.cpus
  }

  ghost predicate CachesParented(f: Forest) {
    forall c | c in f.caches && c in f.parent :: f.parent[c] != null
  }

  ghost predicate PackagesParented(f: Forest) {
    forall p | p in f.packages && p in f.parent :: f.parent[p] != null
  }

  ghost predicate PairsSeen(f: Forest, seen: seq<Desc>) {
    forall p, c | p in f.packages && p in f.children && c in f.children[p] :: Witnessed(seen, c.mask, p.mask)
  }

  ghost predicate AllPlaced(f: Forest, seen: seq<Desc>) {
    forall i | 0 <= i < |seen| :: Placed(f, seen[i])
  }

  /** The tree holds exactly the CPUs added, each where its masks say. */
  ghost predicate Records(f: Forest, seen: seq<Desc>) {
    CpusAre(f, seen) && CachesParented(f) && PairsSeen(f, seen) && AllPlaced(f, seen)
  }

  /** Equal cache masks came with equal package masks. */
  ghost predicate Consistent(seen: seq<Desc>) {
    forall i, j | 0 <= i < |seen| && 0 <= j < |seen| ::
      seen[i].cacheMask == seen[j].cacheMask ==> seen[i].packageMask == seen[j].packageMask
  }

  /** Children of packages have that package as their parent. */
  ghost predicate IsForest(f: Forest) {
    ChildrenOf(f, ObjPackage)
  }

  lemma ForestIfConsistent(f: Forest, seen: seq<Desc>)
    requires Grown(f) && Records(f, seen) && Consistent(seen)
    ensures IsForest(f)
  {
    hide Grown, Records, Consistent;
    forall p, c | p in f.children && p.kind == ObjPackage && c in f.children[p]
      ensures c in f.parent && f.parent[c] == p
    {
      KidIsCache(f, p, c);
      OneParent(f, seen, p, f.parent[c], c);
    }
  }

  lemma OneParent(f: Forest, seen: seq<Desc>, p: TopoObj, q: TopoObj, c: TopoObj)
    requires Grown(f) && Records(f, seen) && Consistent(seen)
    requires p in f.children && p.kind == ObjPackage && c in f.children[p]
    requires q in f.children && q.kind == ObjPackage && c in f.children[q]
    ensures p == q
  {
    hide Kids, Links, OfKind;
    assert p in f.packages && q in f.packages;
    assert Witnessed(seen, c.mask, p.mask) && Witnessed(seen, c.mask, q.mask);
    SameMask(f.packages, p, q);
  }

  lemma KidIsCache(f: Forest, p: TopoObj, c: TopoObj)
    requires Grown(f) && p in f.children && p.kind == ObjPackage && c in f.children[p]
    ensures c in f.parent && c in f.children && c.kind == ObjCache && f.parent[c] != null
    ensures f.parent[c] in f.children && f.parent[c].kind == ObjPackage && c in f.children[f.parent[c]]
  {
    assert c.kind.Depth() == p.kind.Depth() + 1;
  }

  lemma ConsistentIfForest(f: Forest, seen: seq<Desc>)
    requires Grown(f) && Records(f, seen) && IsForest(f)
    ensures Consistent(seen)
  {
    forall i, j | 0 <= i < |seen| && 0 <= j < |seen| && seen[i].cacheMask == seen[j].cacheMask
      ensures seen[i].packageMask == seen[j].packageMask
    {
      assert Placed(f, seen[i]) && Placed(f, seen[j]);
      OnePackage(f, seen[i].cacheMask, seen[i].packageMask, seen[j].packageMask);
    }
  }

  lemma OnePackage(f: Forest, cm: set<nat>, pm: set<nat>, pm': set<nat>)
    requires Listed(f) && IsForest(f) && Paired(f, cm, pm) && Paired(f, cm, pm')
    ensures pm == pm'
  {
    var c, p :| c in f.caches && p in f.packages && c.mask == cm && p.mask == pm && p in f.children && c in f.children[p];
    var c', p' :| c' in f.caches && p' in f.packages && c'.mask == cm && p'.mask == pm' && p' in f.children && c' in f.children[p'];
    SameMask(f.caches, c, c');
    assert f.parent[c] == p && f.parent[c] == p';
  }

  /** The tree is a forest exactly when CPUs with equal cache masks had equal package masks. */
  lemma ForestIff(f: Forest, seen: seq<Desc>)
    requires Grown(f) && Records(f, seen)
    ensures IsForest(f) <==> Consistent(seen)
  {
    if Consistent(seen) {
      ForestIfConsistent(f, seen);
    }
    if IsForest(f) {
      ConsistentIfForest(f, seen);
    }
  }

  // ---- the records over a step ----

  /** The tree grew: links stayed, and packages gained only children told by these masks. */
  ghost predicate Extends(f: Forest, f1: Forest, cm: set<nat>, pm: set<nat>) {
    && (forall o | o in f.caches :: o in f1.caches) && (forall o | o in f.packages :: o in f1.packages)
    && (forall o | o in f.children :: o in f1.children) && (forall o | o in f.parent :: o in f1.parent)
    && (forall o, x | o in f.children && x in f.children[o] :: x in f1.children[o])
    && (forall x | x in f.parent && x.kind == ObjCpu && f.parent[x] != null :: f1.parent[x] == f.parent[x])
    && (forall x | x in f.parent && f.parent[x] != null :: f1.parent[x] != null)
    && (forall p, c | p in f1.packages && p in f1.children && c in f1.children[p] ::
          (p in f.packages && p in f.children && c in f.children[p]) || (c.mask == cm && p.mask == pm))
  }

  lemma ExtendsBoth(f: Forest, f1: Forest, f2: Forest, cm: set<nat>, pm: set<nat>)
    requires Extends(f, f1, cm, pm) && Extends(f1, f2, cm, pm)
    ensures Extends(f, f2, cm, pm)
  {
    assert forall o, x | o in f.children && x in f.children[o] :: x in f1.children[o] && x in f2.children[o];
    assert forall x | x in f.parent && x.kind == ObjCpu && f.parent[x] != null :: f1.parent[x] != null && f2.parent[x] == f1.parent[x];
    forall p, c | p in f2.packages && p in f2.children && c in f2.children[p]
      ensures (p in f.packages && p in f.children && c in f.children[p]) || (c.mask == cm && p.mask == pm)
    {
      if !(c.mask == cm && p.mask == pm) {
        assert p in f1.packages && p in f1.children && c in f1.children[p];
      }
    }
  }

  lemma JoinedExtends(f: Forest, spare: TopoObj, f1: Forest, cm: set<nat>, pm: set<nat>)
    requires Listed(f) && Joined(f, spare, f1)
    ensures Extends(f, f1, cm, pm)
  {
    hide Joined, OfKind, DistinctMasks;
    JoinedHas(f, spare, f1);
  }

  lemma AdoptedExtends(f: Forest, f1: Forest, p: TopoObj, c: TopoObj, cm: set<nat>, pm: set<nat>)
    requires Adopted(f, f1, p, c) && f1.caches == f.caches && f1.packages == f.packages
    requires c in f.parent && (p.kind != ObjPackage ==> f.parent[c] == null) && Listed(f)
    requires p.kind == ObjPackage ==> c.kind == ObjCache && c.mask == cm && p.mask == pm
    ensures Extends(f, f1, cm, pm)
  {
    forall q, x | q in f1.packages && q in f1.children && x in f1.children[q]
      ensures (q in f.packages && q in f.children && x in f.children[q]) || (x.mask == cm && q.mask == pm)
    {
      if q == p {
        ListedHas(f, p);
      }
    }
  }

  lemma ExtendsPlaced(f: Forest, f1: Forest, cm: set<nat>, pm: set<nat>, d: Desc)
    requires Extends(f, f1, cm, pm) && Placed(f, d)
    ensures Placed(f1, d)
  {
    var c, p :| c in f.caches && p in f.packages && c.mask == d.cacheMask && p.mask == d.packageMask && p in f.children && c in f.children[p];
    assert c in f1.caches && p in f1.packages && p in f1.children && c in f1.children[p];
  }

  lemma ExtendsPairs(f: Forest, f1: Forest, d: Desc, seen: seq<Desc>)
    requires Extends(f, f1, d.cacheMask, d.packageMask) && PairsSeen(f, seen)
    ensures PairsSeen(f1, seen + [d])
  {
    WitnessedMore(seen, d);
  }

  lemma WitnessedMore(seen: seq<Desc>, d: Desc)
    ensures forall cm, pm :: Witnessed(seen, cm, pm) ==> Witnessed(seen + [d], cm, pm)
    ensures Witnessed(seen + [d], d.cacheMask, d.packageMask)
  {
    forall cm, pm | Witnessed(seen, cm, pm)
      ensures Witnessed(seen + [d], cm, pm)
    {
      var i :| 0 <= i < |seen| && seen[i].cacheMask == cm && seen[i].packageMask == pm;
      assert (seen + [d])[i] == seen[i];
    }
    assert (seen + [d])[|seen|] == d;
  }

  // ---- one CPU ----

  /** A step of do_one_cpu, and what it leaves of the spare objects. */
  ghost predicate Stepped(f: Forest, f1: Forest, d: Desc) {
    Grown(f1) && Extends(f, f1, d.cacheMask, d.packageMask) && f1.cpus == f.cpus && f1.nodes == f.nodes
  }

  lemma SteppedBoth(f: Forest, f1: Forest, f2: Forest, d: Desc)
    requires Stepped(f, f1, d) && Stepped(f1, f2, d)
    ensures Stepped(f, f2, d)
  {
    ExtendsBoth(f, f1, f2, d.cacheMask, d.packageMask);
  }

  lemma GrownParts(f: Forest)
    requires Grown(f)
    ensures Listed(f) && Complete(f) && Kids(f) && Links(f) && f.children.Keys == f.parent.Keys
  {
  }

  lemma JoinSteps(f: Forest, spare: TopoObj, f1: Forest, d: Desc)
    requires Grown(f) && Joined(f, spare, f1)
    ensures Stepped(f, f1, d)
  {
    hide Listed, Complete, Kids, Links, Joined, Extends;
    JoinedGrown(f, spare, f1);
    JoinedExtends(f, spare, f1, d.cacheMask, d.packageMask);
    JoinedHas(f, spare, f1);
  }

  lemma StaySteps(f: Forest, d: Desc)
    requires Grown(f)
    ensures Stepped(f, f, d)
  {
    hide Listed, Complete, Kids, Links;
  }

  lemma AdoptSteps(f: Forest, p: TopoObj, c: TopoObj, d: Desc)
    requires Grown(f) && p in f.children && c in f.children && c.kind.Depth() == p.kind.Depth() + 1 && c in f.parent
    requires p.kind != ObjPackage ==> f.parent[c] == null
    requires p.kind == ObjPackage ==> c.mask == d.cacheMask && p.mask == d.packageMask
    ensures Stepped(f, Adopt(f, p, c), d)
    ensures var f1 := Adopt(f, p, c);
      && p in f1.children && c in f1.children[p] && f1.caches == f.caches && f1.packages == f.packages
      && f1.children.Keys == f.children.Keys && f1.parent.Keys == f.parent.Keys
      && f1.parent[c] != null && (p.kind != ObjPackage ==> f1.parent[c] == p)
      && (forall x | x in f.parent && x != c :: f1.parent[x] == f.parent[x])
  {
    hide Listed, Complete, Kids, Links, Extends;
    GrownParts(f);
    AdoptIs(f, p, c);
    AdoptGrown(f, p, c);
    var f1 := Adopt(f, p, c);
    if c !in f.children[p] {
      KindBelow(c.kind, p.kind);
      AdoptedExtends(f, f1, p, c, d.cacheMask, d.packageMask);
      AdoptedKeys(f, f1, p, c);
    } else {
      StaySteps(f, d);
      ParentedKid(f, p, c);
    }
  }

  lemma KindBelow(c: Kind, p: Kind)
    requires c.Depth() == p.Depth() + 1
    ensures p == ObjPackage ==> c == ObjCache
  {
  }

  lemma ParentedKid(f: Forest, p: TopoObj, c: TopoObj)
    requires Kids(f) && Links(f) && p in f.children && c in f.children[p]
    ensures c in f.parent && f.parent[c] != null && (p.kind != ObjPackage ==> f.parent[c] == p)
  {
    assert c.kind.Depth() == p.kind.Depth() + 1;
  }

  lemma CacheSteps(f: Forest, d: Desc, s: Spares) returns (f1: Forest, cache: TopoObj)
    requires Grown(f) && SpareCache(f, d, s)
    ensures (f1, cache) == CacheFor(f, d.cacheMask, s.cache) && Stepped(f, f1, d)
    ensures cache in f1.caches && cache in f1.children && cache in f1.parent && cache.kind == ObjCache && cache.mask == d.cacheMask
    ensures forall o | o in f1.children :: o in f.children || o.kind == ObjCache
    ensures f1.packages == f.packages
    ensures forall o | o in f.children :: o in f1.children
    ensures forall o | o in f.parent :: o in f1.parent && f1.parent[o] == f.parent[o]
    ensures forall o | o in f1.parent :: o in f.parent || o.kind == ObjCache
    ensures forall o | o in f1.caches :: o in f.caches || o == cache
  {
    hide Listed, Complete, Kids, Links, Extends, Joined, FindMask, NewObject;
    f1, cache := CacheFor(f, d.cacheMask, s.cache).0, CacheFor(f, d.cacheMask, s.cache).1;
    CacheJoins(f, d.cacheMask, s.cache);
    if FindMask(f.caches, d.cacheMask) < |f.caches| {
      StaySteps(f, d);
    } else {
      JoinSteps(f, s.cache, f1, d);
      JoinedHas(f, s.cache, f1);
    }
    GrownParts(f1);
    ListedHas(f1, cache);
  }

  lemma PackageSteps(f: Forest, d: Desc, s: Spares) returns (f1: Forest, package: TopoObj)
    requires Grown(f) && SparePackage(f, d, s)
    ensures (f1, package) == PackageFor(f, d.packageMask, s.package) && Stepped(f, f1, d)
    ensures package in f1.packages && package in f1.children && package in f1.parent && package.kind == ObjPackage && package.mask == d.packageMask
    ensures forall o | o in f.children :: o in f1.children
    ensures forall o | o in f.parent :: o in f1.parent && f1.parent[o] == f.parent[o]
    ensures forall o | o in f1.children :: o in f.children || o.kind == ObjPackage
    ensures forall o | o in f1.packages :: o in f.packages || o == package
    ensures f1.caches == f.caches
  {
    hide Listed, Complete, Kids, Links, Extends, Joined, FindMask, NewObject;
    f1, package := PackageFor(f, d.packageMask, s.package).0, PackageFor(f, d.packageMask, s.package).1;
    PackageJoins(f, d.packageMask, s.package);
    if FindMask(f.packages, d.packageMask) < |f.packages| {
      StaySteps(f, d);
    } else {
      JoinSteps(f, s.package, f1, d);
      JoinedHas(f, s.package, f1);
    }
    GrownParts(f1);
    ListedHas(f1, package);
  }

  lemma NodeSteps(f: Forest, p: TopoObj, d: Desc)
    requires Grown(f) && p in f.children && p in f.parent && p.kind == ObjPackage
    requires d.node != null ==> d.node in f.children && d.node.kind == ObjNode
    ensures Stepped(f, AddPackageToNode(f, p, d.node), d)
    ensures var f1 := AddPackageToNode(f, p, d.node);
      && f1.caches == f.caches && f1.packages == f.packages
      && f1.children.Keys == f.children.Keys && f1.parent.Keys == f.parent.Keys
      && (forall c | c in f.parent && f.parent[c] != null :: f1.parent[c] == f.parent[c])
      && (d.node != null ==> f1.parent[p] != null)
  {
    hide Listed, Complete, Kids, Links, Extends, Adopted;
    GrownParts(f);
    NodeGrown(f, p, d.node);
    var f1 := AddPackageToNode(f, p, d.node);
    if d.node != null && f.parent[p] == null {
      NodeIs(f, p, d.node);
      AdoptedExtends(f, f1, d.node, p, d.cacheMask, d.packageMask);
      AdoptedKeys(f, f1, d.node, p);
    } else {
      StaySteps(f, d);
    }
  }

  /** Where the steps of AddCpu lead. */
  ghost predicate Arrived(f: Forest, f3: Forest, d: Desc, s: Spares, cache: TopoObj, package: TopoObj) {
    && Stepped(f, f3, d)
    && d.cpu in f3.parent && f3.parent[d.cpu] == cache
    && cache in f3.caches && cache.mask == d.cacheMask && cache in f3.parent && f3.parent[cache] != null
    && package in f3.packages && package.mask == d.packageMask && package in f3.children && cache in f3.children[package]
    && package in f3.parent && (d.node != null ==> f3.parent[package] != null)
    && (forall o | o in f3.children :: o in f.children || o == d.cpu || o.kind == ObjCache || o.kind == ObjPackage)
    && (forall o | o in f3.caches :: o in f.caches || o == cache)
    && (forall o | o in f3.packages :: o in f.packages || o == package)
  }

  lemma CpuStep(f: Forest, d: Desc, s: Spares, f0: Forest)
    requires Grown(f) && NewCpu(f, d) && SpareCache(f, d, s) && f0 == NewObject(f, d.cpu)
    ensures Stepped(f, f0, d) && d.cpu in f0.children && d.cpu in f0.parent && f0.parent[d.cpu] == null
    ensures SpareCache(f0, d, s) && (SparePackage(f, d, s) ==> SparePackage(f0, d, s))
    ensures forall o | o in f0.children :: o in f.children || o == d.cpu
    ensures forall o | o in f.children :: o in f0.children
    ensures f0.caches == f.caches && f0.packages == f.packages
  {
    hide Grown, Stepped, FindMask;
    CpuJoins(f, d.cpu);
    JoinSteps(f, d.cpu, f0, d);
    JoinedHas(f, d.cpu, f0);
  }

  /** The cache half: the CPU is below the cache with its mask. */
  lemma CacheHalf(f: Forest, d: Desc, s: Spares, f1: Forest, cache: TopoObj)
    requires Grown(f) && NewCpu(f, d) && SpareCache(f, d, s) && (f1, cache) == AddCpuToCache(NewObject(f, d.cpu), d.cpu, d.cacheMask, s.cache)
    ensures Stepped(f, f1, d) && d.cpu in f1.parent && f1.parent[d.cpu] == cache
    ensures cache in f1.caches && cache in f1.children && cache in f1.parent && cache.kind == ObjCache && cache.mask == d.cacheMask
    ensures (SparePackage(f, d, s) ==> SparePackage(f1, d, s)) && f1.packages == f.packages
    ensures forall o | o in f1.children :: o in f.children || o == d.cpu || o.kind == ObjCache
    ensures forall o | o in f1.caches :: o in f.caches || o == cache
    ensures forall o | o in f.children :: o in f1.children
  {
    hide Grown, Extends, Adopt, CacheFor, NewObject, FindMask;
    var f0 := NewObject(f, d.cpu);
    CpuStep(f, d, s, f0);
    var fa, c := CacheSteps(f0, d, s);
    AdoptSteps(fa, c, d.cpu, d);
    SteppedBoth(f, f0, fa, d);
    SteppedBoth(f, fa, f1, d);
  }

  /** The package half: the cache is below the package with its mask, and that below its node. */
  lemma PackageHalf(f: Forest, cache: TopoObj, d: Desc, s: Spares, f2: Forest, package: TopoObj, f3: Forest)
    requires Grown(f) && cache in f.children && cache in f.parent && cache.kind == ObjCache && cache.mask == d.cacheMask
    requires SparePackage(f, d, s)
    requires d.node != null ==> d.node in f.children && d.node.kind == ObjNode
    requires d.cpu in f.parent && d.cpu.kind == ObjCpu && f.parent[d.cpu] == cache && cache in f.caches
    requires (f2, package) == AddCacheToPackage(f, cache, d.packageMask, s.package) && f3 == AddPackageToNode(f2, package, d.node)
    ensures Stepped(f, f3, d) && d.cpu in f3.parent && f3.parent[d.cpu] == cache
    ensures cache in f3.caches && cache in f3.parent && f3.parent[cache] != null
    ensures package in f3.packages && package.mask == d.packageMask && package in f3.children && cache in f3.children[package]
    ensures package in f3.parent && (d.node != null ==> f3.parent[package] != null)
    ensures forall o | o in f3.children :: o in f.children || o.kind == ObjPackage
    ensures f3.caches == f.caches && forall o | o in f3.packages :: o in f.packages || o == package
  {
    hide Grown, Adopt, PackageFor, AddPackageToNode, Extends;
    var fa, p := PackageSteps(f, d, s);
    AdoptSteps(fa, p, cache, d);
    NodeSteps(f2, p, d);
    SteppedBoth(f, fa, f2, d);
    SteppedBoth(f, f2, f3, d);
    KidStays(f2, f3, p, cache, d);
  }

  lemma KidStays(f: Forest, f1: Forest, p: TopoObj, c: TopoObj, d: Desc)
    requires Extends(f, f1, d.cacheMask, d.packageMask) && p in f.children && c in f.children[p]
    ensures p in f1.children && c in f1.children[p]
  {
  }

  lemma AddCpuArrives(f: Forest, d: Desc, s: Spares) returns (f3: Forest, cache: TopoObj, package: TopoObj)
    requires Grown(f) && Usable(f, d, s)
    ensures AddCpu(f, d, s) == f3.(cpus := f3.cpus + [d.cpu])
    ensures Arrived(f, f3, d, s, cache, package)
  {
    hide Grown, AddCpuToCache, AddCacheToPackage, AddPackageToNode, NewObject, Extends;
    var f0 := NewObject(f, d.cpu);
    var f1 := AddCpuToCache(f0, d.cpu, d.cacheMask, s.cache).0;
    cache := AddCpuToCache(f0, d.cpu, d.cacheMask, s.cache).1;
    var f2 := AddCacheToPackage(f1, cache, d.packageMask, s.package).0;
    package := AddCacheToPackage(f1, cache, d.packageMask, s.package).1;
    f3 := AddPackageToNode(f2, package, d.node);
    CacheHalf(f, d, s, f1, cache);
    PackageHalf(f1, cache, d, s, f2, package, f3);
    SteppedBoth(f, f1, f3, d);
  }

  lemma ArrivedRecords(f: Forest, seen: seq<Desc>, d: Desc, s: Spares, f3: Forest, cache: TopoObj, package: TopoObj, f': Forest)
    requires Listed(f) && Records(f, seen) && Usable(f, d, s) && Arrived(f, f3, d, s, cache, package)
    requires f' == f3.(cpus := f3.cpus + [d.cpu])
    ensures Records(f', seen + [d])
  {
    hide Grown, Usable;
    ExtendsPairs(f, f3, d, seen);
    assert PairsSeen(f', seen + [d]);
    forall i | 0 <= i < |seen + [d]|
      ensures Placed(f', (seen + [d])[i])
    {
      if i < |seen| {
        assert Placed(f, seen[i]);
        ExtendsPlaced(f, f3, d.cacheMask, d.packageMask, seen[i]);
        SamePlaced(f3, f', seen[i]);
      } else {
        NewPlaced(f, f3, d, s, cache, package);
        SamePlaced(f3, f', d);
      }
    }
    ArrivedCpus(f, seen, d, s, f3, cache, package, f');
    hide Placed, PairsSeen;
    assert CachesParented(f') by { ArrivedParented(f, d, s, f3, cache, package); }
  }

  lemma ArrivedParented(f: Forest, d: Desc, s: Spares, f3: Forest, cache: TopoObj, package: TopoObj)
    requires Listed(f) && CachesParented(f) && Arrived(f, f3, d, s, cache, package)
    ensures CachesParented(f3)
  {
    hide Grown, Listed;
    forall c | c in f3.caches && c in f3.parent
      ensures f3.parent[c] != null
    {
      ListedHas(f, c);
    }
  }

  lemma SamePlaced(f: Forest, f1: Forest, d: Desc)
    requires Placed(f, d) && f1 == f.(cpus := f1.cpus)
    ensures Placed(f1, d)
  {
    var c, p :| c in f.caches && p in f.packages && c.mask == d.cacheMask && p.mask == d.packageMask && p in f.children && c in f.children[p];
    assert c in f1.caches && p in f1.packages && p in f1.children && c in f1.children[p];
  }

  lemma NewPlaced(f: Forest, f3: Forest, d: Desc, s: Spares, cache: TopoObj, package: TopoObj)
    requires Usable(f, d, s) && Arrived(f, f3, d, s, cache, package)
    ensures Placed(f3, d)
  {
    hide Grown, Extends;
    assert cache in f3.caches && package in f3.packages && package in f3.children && cache in f3.children[package];
  }

  lemma ArrivedCpus(f: Forest, seen: seq<Desc>, d: Desc, s: Spares, f3: Forest, cache: TopoObj, package: TopoObj, f': Forest)
    requires CpusAre(f, seen) && Usable(f, d, s) && Arrived(f, f3, d, s, cache, package) && f' == f3.(cpus := f3.cpus + [d.cpu])
    ensures CpusAre(f', seen + [d])
  {
    hide Grown, Extends;
  }

  lemma CpuListed(f: Forest, f3: Forest, cpu: TopoObj, f': Forest)
    requires Grown(f3) && f' == f3.(cpus := f3.cpus + [cpu]) && cpu in f3.children && cpu in f3.parent && cpu.kind == ObjCpu && cpu !in f3.cpus
    ensures Grown(f')
  {
    hide Listed, Kids, Links, Complete;
    SameLinks(f3, f');
    SameKids(f3, f');
    SameComplete(f3, f');
    CpuInList(f3, cpu, f');
  }

  lemma SameKids(f: Forest, f1: Forest)
    requires Kids(f) && f1.children == f.children && f1.parent == f.parent
    ensures Kids(f1)
  {
  }

  lemma SameComplete(f: Forest, f1: Forest)
    requires Complete(f) && f1 == f.(cpus := f1.cpus)
    ensures Complete(f1)
  {
  }

  lemma CpuInList(f: Forest, cpu: TopoObj, f1: Forest)
    requires Listed(f) && f1 == f.(cpus := f.cpus + [cpu]) && cpu in f.children && cpu in f.parent && cpu.kind == ObjCpu && cpu !in f.cpus
    ensures Listed(f1)
  {
    hide DistinctMasks;
    ListGrows(f.cpus, cpu);
  }

  lemma SameLinks(f: Forest, f1: Forest)
    requires Links(f) && f1.children == f.children && f1.parent == f.parent
    ensures Links(f1)
  {
    hide ChildrenOf, ParentsHave, Parented;
    SameDown(f, f1, ObjCache);
    SameDown(f, f1, ObjNode);
    SameDown(f, f1, ObjPackage);
    SameUp(f, f1, ObjCpu);
    SameUp(f, f1, ObjCache);
    SameUp(f, f1, ObjPackage);
    SameUp(f, f1, ObjNode);
  }

  lemma SameDown(f: Forest, f1: Forest, kind: Kind)
    requires f1.children == f.children && f1.parent == f.parent
    ensures (ChildrenOf(f, kind) ==> ChildrenOf(f1, kind)) && (Parented(f, kind) ==> Parented(f1, kind))
  {
  }

  lemma SameUp(f: Forest, f1: Forest, kind: Kind)
    requires f1.children == f.children && f1.parent == f.parent && ParentsHave(f, kind)
    ensures ParentsHave(f1, kind)
  {
  }

  /** Adding a CPU keeps the tree's links, places the CPU where its masks say,
      and adds no other link between caches and packages. */
  lemma AddCpuDoes(f: Forest, seen: seq<Desc>, d: Desc, s: Spares)
    requires Grown(f) && Records(f, seen) && Usable(f, d, s)
    ensures Grown(AddCpu(f, d, s)) && Records(AddCpu(f, d, s), seen + [d])
  {
    hide Listed, Complete, Kids, Links, Records, Arrived, AddCpu, Usable;
    var f3, cache, package := AddCpuArrives(f, d, s);
    ArrivedRecords(f, seen, d, s, f3, cache, package, AddCpu(f, d, s));
    ArrivedNew(f, d, s, f3, cache, package);
    CpuListed(f, f3, d.cpu, AddCpu(f, d, s));
  }

  lemma ArrivedNew(f: Forest, d: Desc, s: Spares, f3: Forest, cache: TopoObj, package: TopoObj)
    requires Grown(f) && Usable(f, d, s) && Arrived(f, f3, d, s, cache, package)
    ensures Grown(f3) && d.cpu in f3.children && d.cpu in f3.parent && d.cpu.kind == ObjCpu && d.cpu !in f3.cpus
  {
    hide Kids, Links, DistinctMasks, Extends;
    GrownParts(f3);
  }

  /** When node ids are known, every package gets a node. */
  lemma AddCpuParents(f: Forest, d: Desc, s: Spares)
    requires Grown(f) && PackagesParented(f) && Usable(f, d, s) && d.node != null
    ensures PackagesParented(AddCpu(f, d, s))
  {
    hide Listed, Complete, Kids, Links, AddCpu;
    var f3, cache, package := AddCpuArrives(f, d, s);
    hide Stepped;
    forall p | p in f3.packages && p in f3.parent
      ensures f3.parent[p] != null
    {
      if p in f.packages {
        ListedHas(f, p);
        ParentStays(f, f3, p, d);
      }
    }
  }

  lemma ParentStays(f: Forest, f1: Forest, p: TopoObj, d: Desc)
    requires Stepped(f, f1, d) && p in f.parent && f.parent[p] != null
    ensures p in f1.parent && f1.parent[p] != null
  {
    hide Grown;
  }

  // ---- what the balancer gets ----

  /** The configuration the balancer works on. */
  ghost predicate ConfigOf(f: Forest, cfg: Config) {
    && cfg.nodes == f.nodes && cfg.packages == f.packages && cfg.caches == f.caches && cfg.cpus == f.cpus
    && cfg.children == f.children && cfg.parent == f.parent
    && forall o | o in f.children && o.kind != ObjNode :: o.mask !! cfg.banned
  }

  /** If equal cache masks came with equal package masks, and every CPU with a known
      node, the tree is what the balancer relies on. */
  lemma TreeIsOk(f: Forest, seen: seq<Desc>, cfg: Config)
    requires Grown(f) && Records(f, seen) && Consistent(seen) && PackagesParented(f) && ConfigOf(f, cfg)
    ensures TreeOk(cfg, f.children.Keys)
  {
    hide Listed, Complete, Kids, Links, Records, Consistent, PackagesParented, LayersOk, LinksOk, IsForest;
    ForestIff(f, seen);
    TreeLayers(f, seen, cfg);
    TreeLinks(f, seen, cfg);
  }

  lemma TreeLayers(f: Forest, seen: seq<Desc>, cfg: Config)
    requires Grown(f) && Records(f, seen) && ConfigOf(f, cfg)
    ensures LayersOk(cfg, f.children.Keys)
  {
    hide Kids, Links, CachesParented, PairsSeen, AllPlaced, DistinctMasks;
    forall kind: Kind
      ensures NoDup(Layer(cfg, kind))
      ensures forall i | 0 <= i < |Layer(cfg, kind)| :: Layer(cfg, kind)[i] in f.children && Layer(cfg, kind)[i].kind == kind
    {
      assert OfKind(f, Layer(cfg, kind), kind);
    }
    forall o | o in f.children
      ensures o in Layer(cfg, o.kind)
    {
      match o.kind
      case ObjNode => assert o in f.nodes;
      case ObjPackage => assert o in f.packages;
      case ObjCache => assert o in f.caches;
      case ObjCpu => assert o in f.cpus;
    }
  }

  lemma TreeLinks(f: Forest, seen: seq<Desc>, cfg: Config)
    requires Grown(f) && Records(f, seen) && IsForest(f) && PackagesParented(f) && ConfigOf(f, cfg)
    ensures LinksOk(cfg, f.children.Keys)
  {
    hide Records, Grown, IsForest, PackagesParented;
    KeysAndKids(f);
    forall o, i | o in f.children && 0 <= i < |f.children[o]|
      ensures var c := f.children[o][i]; c in f.children && c.kind.Depth() == o.kind.Depth() + 1 && f.parent[c] == o
    {
      DownAll(f, o, f.children[o][i]);
    }
    forall o | o in f.children && o.kind != ObjNode
      ensures f.parent[o] != null
    {
      HasParent(f, seen, o);
    }
    forall o | o in f.children && f.parent[o] != null
      ensures f.parent[o] in f.children && o in f.children[f.parent[o]]
    {
      UpAll(f, o);
    }
  }

  lemma KeysAndKids(f: Forest)
    requires Grown(f)
    ensures f.children.Keys == f.parent.Keys && forall o | o in f.children :: NoDup(f.children[o])
  {
    hide Listed, Links;
  }

  lemma DownAll(f: Forest, o: TopoObj, c: TopoObj)
    requires Grown(f) && IsForest(f) && o in f.children && c in f.children[o]
    ensures c in f.children && c in f.parent && c.kind.Depth() == o.kind.Depth() + 1 && f.parent[c] == o
  {
    hide Listed;
    assert c.kind.Depth() == o.kind.Depth() + 1;
  }

  lemma UpAll(f: Forest, o: TopoObj)
    requires Grown(f) && o in f.parent && f.parent[o] != null
    ensures f.parent[o] in f.children && o in f.children[f.parent[o]]
  {
    hide Listed, Complete, Kids;
    match o.kind
    case ObjNode =>
    case ObjPackage =>
    case ObjCache =>
    case ObjCpu =>
  }

  lemma HasParent(f: Forest, seen: seq<Desc>, o: TopoObj)
    requires Grown(f) && Records(f, seen) && PackagesParented(f) && o in f.children && o.kind != ObjNode
    ensures o in f.parent && f.parent[o] != null
  {
    hide Kids, Links, Listed, PairsSeen;
    match o.kind
    case ObjPackage =>
      assert o in f.packages;
    case ObjCache =>
      assert o in f.caches;
    case ObjCpu =>
      assert o in f.cpus;
      var i :| 0 <= i < |f.cpus| && f.cpus[i] == o;
      assert Placed(f, seen[i]);
  }

  // ---- a tree that is no forest ----

  lemma NodesOnly(f: Forest)
    requires f.packages == [] && f.caches == [] && f.cpus == [] && NoDup(f.nodes)
    requires f.children.Keys == f.parent.Keys && (forall o | o in f.children :: o in f.nodes) && (forall o | o in f.nodes :: o in f.children)
    requires forall o | o in f.children :: o.kind == ObjNode && f.children[o] == [] && f.parent[o] == null
    ensures Grown(f) && Records(f, [])
  {
    assert Listed(f) && Complete(f);
    assert Kids(f) && Links(f);
    assert Records(f, []);
  }

  lemma AddCpuKeys(f: Forest, d: Desc, s: Spares)
    ensures AddCpu(f, d, s).children.Keys <= f.children.Keys + {d.cpu, s.cache, s.package}
  {
    var f0 := NewObject(f, d.cpu);
    var (f1, cache) := AddCpuToCache(f0, d.cpu, d.cacheMask, s.cache);
    assert f1.children.Keys <= f.children.Keys + {d.cpu, s.cache};
    var (f2, package) := AddCacheToPackage(f1, cache, d.packageMask, s.package);
    assert f2.children.Keys <= f.children.Keys + {d.cpu, s.cache, s.package};
  }

  /** A cache that CPUs were put in is found by its mask. */
  lemma CacheFound(f: Forest, seen: seq<Desc>, i: nat)
    requires Records(f, seen) && i < |seen|
    ensures FindMask(f.caches, seen[i].cacheMask) < |f.caches|
  {
    hide Placed;
    assert Placed(f, seen[i]);
    PlacedCache(f, seen[i]);
  }

  lemma PlacedCache(f: Forest, d: Desc)
    requires Placed(f, d)
    ensures FindMask(f.caches, d.cacheMask) < |f.caches|
  {
    var i :| 0 <= i < |f.caches| && f.caches[i] == f.parent[d.cpu];
  }

  /** For instance, two CPUs said to share a cache but not a package: the cache ends up a
      child of both packages. */
  lemma SharedCacheNoForest(node: TopoObj, cpu0: TopoObj, cpu1: TopoObj, cache: TopoObj, package0: TopoObj, package1: TopoObj)
    requires node.kind == ObjNode && cache.kind == ObjCache && cache.mask == {0, 1}
    requires cpu0.kind == ObjCpu && cpu1.kind == ObjCpu && cpu0 != cpu1
    requires package0.kind == ObjPackage && package0.mask == {0} && package1.kind == ObjPackage && package1.mask == {1}
    ensures var f1 := AddCpu(Forest([node], [], [], [], map[node := []], map[node := null]), Desc(cpu0, {0, 1}, {0}, node), Spares(cache, package0));
      var f2 := AddCpu(f1, Desc(cpu1, {0, 1}, {1}, node), Spares(cache, package1));
      Grown(f2) && !IsForest(f2)
  {
    hide AddCpu, Grown, Records, IsForest;
    var f0 := Forest([node], [], [], [], map[node := []], map[node := null]);
    var d0, d1 := Desc(cpu0, {0, 1}, {0}, node), Desc(cpu1, {0, 1}, {1}, node);
    var s0, s1 := Spares(cache, package0), Spares(cache, package1);
    assert f0.nodes[0] == node && f0.children.Keys == {node} && f0.parent.Keys == {node};
    NodesOnly(f0);
    AddCpuDoes(f0, [], d0, s0);
    var f1 := AddCpu(f0, d0, s0);
    assert [] + [d0] == [d0] && [d0][0] == d0;
    CacheFound(f1, [d0], 0);
    AddCpuKeys(f0, d0, s0);
    KeysAgree(f1);
    NodeThere(f0, d0, s0, node);
    assert 0 in package0.mask && 0 !in package1.mask;
    assert Usable(f1, d1, s1);
    AddCpuDoes(f1, [d0], d1, s1);
    var f2 := AddCpu(f1, d1, s1);
    var seen := [d0] + [d1];
    assert seen[0] == d0 && seen[1] == d1 && 0 in d0.packageMask && 0 !in d1.packageMask;
    assert !Consistent(seen);
    ForestIff(f2, seen);
  }

  lemma KeysAgree(f: Forest)
    requires Grown(f)
    ensures f.children.Keys == f.parent.Keys
  {
    hide Listed, Kids, Links;
  }

  lemma NodeThere(f: Forest, d: Desc, s: Spares, node: TopoObj)
    requires node in f.children
    ensures node in AddCpu(f, d, s).children
  {
  }
}
