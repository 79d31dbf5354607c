/** Doubly linked lists of glib/glist.c: nodes on the heap whose `next` and
    `prev` pointers are rewired in place.  A list is described by the ghost
    sequence of its nodes. */
module GList {
  import opened MergeSort

  class Node<T> {
    const data: T
    var next: Node?<T>
    var prev: Node?<T>

    constructor (data: T)
      ensures this.data == data && next == null && prev == null
    {
      this.data := data;
      next, prev := null, null;
    }
  }

  /** Node number `i`, or NULL off either end. */
  function At<T>(nodes: seq<Node<T>>, i: int): Node?<T> {
    if 0 <= i < |nodes| then nodes[i] else null
  }

  /** The pointer by which a list is passed around. */
  function Head<T>(nodes: seq<Node<T>>): Node?<T> {
    At(nodes, 0)
  }

  /** `next` pointers run through `nodes` in order and end in NULL. */
  ghost predicate Forward<T>(nodes: seq<Node<T>>)
    reads nodes
  {
    forall i {:trigger nodes[i].next} | 0 <= i < |nodes| :: nodes[i].next == At(nodes, i + 1)
  }

  /** `prev` pointers are right everywhere but possibly at the head. */
  ghost predicate Backward<T>(nodes: seq<Node<T>>)
    reads nodes
  {
    forall i {:trigger nodes[i].prev} | 1 <= i < |nodes| :: nodes[i].prev == At(nodes, i - 1)
  }

  /** A well formed list. */
  ghost predicate Linked<T>(nodes: seq<Node<T>>)
    reads nodes
  {
    NoDup(nodes) && Forward(nodes) && Backward(nodes) && (nodes != [] ==> nodes[0].prev == null)
  }

  method Last<T>(list: Node?<T>, ghost nodes: seq<Node<T>>) returns (last: Node?<T>)
    requires Linked(nodes) && list == Head(nodes)
    ensures last == if nodes == [] then null else nodes[|nodes| - 1]
  {
    last := list;
    if list != null {
      ghost var i := 0;
      while last.next != null
        invariant 0 <= i < |nodes| && last == nodes[i]
        decreases |nodes| - i
      {
        last := last.next;
        i := i + 1;
      }
    }
  }

  /** Walks back from any node to the head. */
  method First<T>(list: Node?<T>, ghost nodes: seq<Node<T>>, ghost at: nat) returns (first: Node?<T>)
    requires Linked(nodes)
    requires if list == null then nodes == [] else at < |nodes| && list == nodes[at]
    ensures first == Head(nodes)
  {
    first := list;
    if list != null {
      ghost var i := at;
      while first.prev != null
        invariant 0 <= i < |nodes| && first == nodes[i]
        decreases i
      {
        first := first.prev;
        i := i - 1;
      }
    }
  }

  method Length<T>(list: Node?<T>, ghost nodes: seq<Node<T>>) returns (length: nat)
    requires Linked(nodes) && list == Head(nodes)
    ensures length == |nodes|
  {
    length := 0;
    var l := list;
    while l != null
      invariant length <= |nodes| && l == At(nodes, length)
      decreases |nodes| - length
    {
      length := length + 1;
      l := l.next;
    }
  }

  /** The first node whose element `func` maps to 0, or NULL. */
  method FindCustom<T>(list: Node?<T>, func: T -> int, ghost nodes: seq<Node<T>>)
    returns (found: Node?<T>, ghost at: nat)
    requires Linked(nodes) && list == Head(nodes)
    ensures at <= |nodes| && found == At(nodes, at)
    ensures forall i | 0 <= i < at :: func(nodes[i].data) != 0
    ensures at < |nodes| ==> func(nodes[at].data) == 0
  {
    found, at := list, 0;
    while found != null
      invariant at <= |nodes| && found == At(nodes, at)
      invariant forall i | 0 <= i < at :: func(nodes[i].data) != 0
      decreases |nodes| - at
    {
      if func(found.data) == 0 {
        return;
      }
      found := found.next;
      at := at + 1;
    }
  }

  method Append<T>(list: Node?<T>, data: T, ghost nodes: seq<Node<T>>)
    returns (head: Node<T>, ghost nodes': seq<Node<T>>)
    requires Linked(nodes) && list == Head(nodes)
    modifies nodes
    ensures |nodes'| == |nodes| + 1 && nodes'[..|nodes|] == nodes
    ensures fresh(nodes'[|nodes|]) && nodes'[|nodes|].data == data
    ensures Linked(nodes') && head == Head(nodes')
  {
    var newList := new Node(data);
    nodes' := nodes + [newList];
    if list != null {
      var last := Last(list, nodes);
      last.next := newList;
      newList.prev := last;
      head := list;
    } else {
      head := newList;
    }
  }

  /** Unlinks node number `at`. */
  method DeleteLink<T>(list: Node<T>, link: Node<T>, ghost nodes: seq<Node<T>>, ghost at: nat)
    returns (head: Node?<T>, ghost nodes': seq<Node<T>>)
    requires Linked(nodes) && list == Head(nodes) && at < |nodes| && link == nodes[at]
    modifies nodes
    ensures nodes' == nodes[..at] + nodes[at + 1..]
    ensures Linked(nodes') && head == Head(nodes')
    ensures link.next == null && link.prev == null
  {
    head := list;
    nodes' := nodes[..at] + nodes[at + 1..];
    if link.prev != null {
      link.prev.next := link.next;
    }
    if link.next != null {
      link.next.prev := link.prev;
    }
    if link == head {
      head := head.next;
    }
    link.next := null;
    link.prev := null;
  }

  ghost function Select<T>(nodes: seq<Node<T>>, keep: T -> bool): seq<Node<T>> {
    if nodes == [] then []
    else (if keep(nodes[0].data) then [nodes[0]] else []) + Select(nodes[1..], keep)
  }

  /** The iteration pattern of `for_each_irq`: the successor is saved before
      the callback runs, and the callback may delete the link it is called
      on.  Every element is visited exactly once, in order, and the list that
      remains is the elements that were kept. */
  method ForEachDeleting<T>(list: Node?<T>, keep: T -> bool, ghost nodes: seq<Node<T>>)
    returns (head: Node?<T>, visited: seq<T>, ghost nodes': seq<Node<T>>)
    requires Linked(nodes) && list == Head(nodes)
    modifies nodes
    ensures visited == Elements(nodes)
    ensures nodes' == Select(nodes, keep)
    ensures Linked(nodes') && head == Head(nodes')
  {
    hide Linked, Select, Elements;
    head, visited, nodes' := list, [], nodes;
    SelectNone(keep);
    var entry := list;
    ghost var done: seq<Node<T>>, rest := [], nodes;
    while entry != null
      invariant nodes' == done + rest && Members(nodes') <= Members(nodes)
      invariant Linked(nodes') && head == Head(nodes') && entry == Head(rest)
      invariant visited + Elements(rest) == Elements(nodes)
      invariant done + Select(rest, keep) == Select(nodes, keep)
      decreases |rest|
    {
      ElementsStep(rest);
      SelectStep(done, rest, keep);
      visited := visited + [entry.data];
      MembersFrame(nodes', nodes);
      head, entry, nodes', done := VisitLink(head, entry, keep, done, rest);
      rest := rest[1..];
    }
  }

  lemma SelectNone<T>(keep: T -> bool)
    ensures Select<T>([], keep) == [] && Elements<T>([]) == []
  {
  }

  lemma MembersFrame<T>(a: seq<Node<T>>, b: seq<Node<T>>)
    requires Members(a) <= Members(b)
    ensures forall k | 0 <= k < |a| :: a[k] in b
  {
    forall k | 0 <= k < |a|
      ensures a[k] in b
    {
      assert a[k] in Members(a);
    }
  }

  /** One round: save the successor, run the callback, go on to the saved successor. */
  method VisitLink<T>(head: Node?<T>, entry: Node<T>, keep: T -> bool, ghost done: seq<Node<T>>, ghost rest: seq<Node<T>>)
    returns (head': Node?<T>, next: Node?<T>, ghost nodes': seq<Node<T>>, ghost done': seq<Node<T>>)
    requires Linked(done + rest) && rest != [] && head == Head(done + rest) && entry == rest[0]
    modifies done + rest
    ensures done' == if keep(rest[0].data) then done + [rest[0]] else done
    ensures nodes' == done' + rest[1..] && Members(nodes') <= Members(done + rest)
    ensures Linked(nodes') && head' == Head(nodes') && next == Head(rest[1..])
  {
    ghost var nodes := done + rest;
    assert nodes[|done|] == entry && At(nodes, |done| + 1) == Head(rest[1..]);
    DropMiddle(done, rest);
    next := entry.next;
    head', nodes', done' := head, nodes, done + [entry];
    if !keep(entry.data) {
      head', nodes' := DeleteLink(head, entry, nodes, |done|);
      done' := done;
    }
  }

  lemma ElementsStep<T>(nodes: seq<Node<T>>)
    requires nodes != []
    ensures Elements(nodes) == [nodes[0].data] + Elements(nodes[1..])
  {
  }

  lemma SelectStep<T>(done: seq<Node<T>>, rest: seq<Node<T>>, keep: T -> bool)
    requires rest != []
    ensures done + Select(rest, keep)
         == (if keep(rest[0].data) then done + [rest[0]] else done) + Select(rest[1..], keep)
  {
  }

  lemma DropMiddle<T>(done: seq<T>, rest: seq<T>)
    requires rest != []
    ensures (done + rest)[..|done|] + (done + rest)[|done| + 1..] == done + rest[1..]
    ensures done + rest == (done + [rest[0]]) + rest[1..]
  {
  }

  ghost function Members<T>(nodes: seq<Node<T>>): set<Node<T>> {
    set n | n in nodes
  }

  ghost function Elements<T>(nodes: seq<Node<T>>): seq<T> {
    seq(|nodes|, i requires 0 <= i < |nodes| => nodes[i].data)
  }

  /** The comparison of nodes by their elements. */
  function ByData<T>(cmp: (T, T) -> int): (Node<T>, Node<T>) -> int {
    (a: Node<T>, b: Node<T>) => cmp(a.data, b.data)
  }

  ghost predicate Apart<T>(a: seq<Node<T>>, b: seq<Node<T>>) {
    forall i, j | 0 <= i < |a| && 0 <= j < |b| :: a[i] != b[j]
  }

  ghost predicate Avoids<T>(nodes: seq<Node<T>>, n: Node<T>) {
    forall i | 0 <= i < |nodes| :: nodes[i] != n
  }

  lemma ApartAvoids<T>(a: seq<Node<T>>, b: seq<Node<T>>, i: nat)
    requires Apart(a, b) && i < |a|
    ensures Avoids(b, a[i])
  {
  }

  /** A half list as the sort sees it: its head's `prev` may be stale. */
  ghost predicate Half<T>(nodes: seq<Node<T>>)
    reads nodes
  {
    NoDup(nodes) && Forward(nodes) && Backward(nodes)
  }

  /** The merged prefix: linked both ways, except that its last `next` is about to be overwritten. */
  ghost predicate Prefix<T>(merged: seq<Node<T>>)
    reads merged
  {
    && NoDup(merged)
    && (forall i {:trigger merged[i].next} | 0 <= i < |merged| - 1 :: merged[i].next == At(merged, i + 1))
    && (forall i {:trigger merged[i].prev} | 0 <= i < |merged| :: merged[i].prev == At(merged, i - 1))
  }

  lemma HalfTail<T>(nodes: seq<Node<T>>)
    requires Half(nodes) && nodes != []
    ensures Half(nodes[1..]) && nodes[0].next == Head(nodes[1..])
  {
    forall i | 0 <= i < |nodes| - 1
      ensures nodes[1..][i].next == At(nodes[1..], i + 1)
      ensures i > 0 ==> nodes[1..][i].prev == At(nodes[1..], i - 1)
    {
      assert nodes[i + 1].next == At(nodes, i + 2);
      assert i > 0 ==> nodes[i + 1].prev == At(nodes, i);
    }
  }

  /** The state of a merge: `l` is the last merged node (`dummy`, on the
      stack, before the first), the two remainders are half lists, and no
      node is shared. */
  ghost predicate Merging<T>(l: Node<T>, dummy: Node<T>, merged: seq<Node<T>>, rest: seq<Node<T>>, other: seq<Node<T>>)
    reads dummy, merged, rest, other
  {
    && Prefix(merged) && Half(rest) && Half(other)
    && Apart(merged, rest) && Apart(merged, other) && Apart(rest, other)
    && Avoids(merged, dummy) && Avoids(rest, dummy) && Avoids(other, dummy)
    && l == (if merged == [] then dummy else merged[|merged| - 1])
    && (merged != [] ==> dummy.next == merged[0])
  }

  lemma LastAvoids<T>(l: Node<T>, dummy: Node<T>, merged: seq<Node<T>>, rest: seq<Node<T>>, other: seq<Node<T>>)
    requires Merging(l, dummy, merged, rest, other)
    ensures Avoids(rest, l) && Avoids(other, l)
  {
    if merged != [] {
      ApartAvoids(merged, rest, |merged| - 1);
      ApartAvoids(merged, other, |merged| - 1);
    }
  }

  /** Moves the head of `rest` behind the merged prefix. */
  method Take<T>(l: Node<T>, lprev: Node?<T>, first: Node<T>, ghost dummy: Node<T>,
                 ghost merged: seq<Node<T>>, ghost rest: seq<Node<T>>, ghost other: seq<Node<T>>)
    returns (l': Node<T>, tail: Node?<T>)
    requires Merging(l, dummy, merged, rest, other) && rest != [] && first == rest[0]
    requires lprev == At(merged, |merged| - 1)
    modifies l`next, first`prev
    ensures l' == first && tail == Head(rest[1..])
    ensures Merging(l', dummy, merged + [first], rest[1..], other)
  {
    HalfTail(rest);
    ApartAvoids(rest, other, 0);
    LastAvoids(l, dummy, merged, rest, other);
    assert Avoids(rest[1..], first) && Avoids(rest[1..], l);
    l.next := first;
    tail := first.next;
    l' := l.next;
    l'.prev := lprev;
  }

  /** Hangs the unmerged remainder behind the merged prefix. */
  method Attach<T>(l: Node<T>, first: Node<T>, ghost dummy: Node<T>,
                   ghost merged: seq<Node<T>>, ghost rest: seq<Node<T>>, ghost other: seq<Node<T>>)
    requires Merging(l, dummy, merged, rest, other) && merged != []
    requires rest != [] && first == rest[0] && other == []
    modifies l`next, first`prev
    ensures Linked(merged + rest) && dummy.next == merged[0]
  {
    LastAvoids(l, dummy, merged, rest, other);
    l.next := first;
    l.next.prev := l;
  }

  lemma MergeStep<T>(done: seq<T>, a: seq<T>, b: seq<T>, cmp: (T, T) -> int)
    requires a != [] && b != []
    ensures cmp(a[0], b[0]) <= 0 ==> done + Merge(a, b, cmp) == (done + [a[0]]) + Merge(a[1..], b, cmp)
    ensures cmp(a[0], b[0]) > 0 ==> done + Merge(a, b, cmp) == (done + [b[0]]) + Merge(a, b[1..], cmp)
  {
  }

  /** One round of the merge loop: the smaller head, the left one on ties, is taken. */
  method TakeSmaller<T>(l: Node<T>, lprev: Node?<T>, l1: Node<T>, l2: Node<T>, cmp: (T, T) -> int, ghost dummy: Node<T>,
                        ghost merged: seq<Node<T>>, ghost rest1: seq<Node<T>>, ghost rest2: seq<Node<T>>)
    returns (l': Node<T>, l1': Node?<T>, l2': Node?<T>,
             ghost merged': seq<Node<T>>, ghost rest1': seq<Node<T>>, ghost rest2': seq<Node<T>>)
    requires Merging(l, dummy, merged, rest1, rest2)
    requires rest1 != [] && rest2 != [] && l1 == rest1[0] && l2 == rest2[0]
    requires lprev == At(merged, |merged| - 1)
    modifies l`next, l1`prev, l2`prev
    ensures Merging(l', dummy, merged', rest1', rest2')
    ensures merged' == merged + [l'] && (l' == l1 || l' == l2)
    ensures merged' + Merge(rest1', rest2', ByData(cmp)) == merged + Merge(rest1, rest2, ByData(cmp))
    ensures rest1' == (if l' == l1 then rest1[1..] else rest1) && l1' == Head(rest1')
    ensures rest2' == (if l' == l1 then rest2 else rest2[1..]) && l2' == Head(rest2')
  {
    MergeStep(merged, rest1, rest2, ByData(cmp));
    l1', l2', rest1', rest2' := l1, l2, rest1, rest2;
    if cmp(l1.data, l2.data) <= 0 {
      l', l1' := Take(l, lprev, l1, dummy, merged, rest1, rest2);
      rest1' := rest1[1..];
    } else {
      l', l2' := Take(l, lprev, l2, dummy, merged, rest2, rest1);
      rest2' := rest2[1..];
    }
    merged' := merged + [l'];
  }

  lemma MergingStart<T>(dummy: Node<T>, a: seq<Node<T>>, b: seq<Node<T>>)
    requires Half(a) && Half(b) && Apart(a, b) && Avoids(a, dummy) && Avoids(b, dummy)
    ensures Merging(dummy, dummy, [], a, b)
  {
  }

  lemma MergingSwap<T>(l: Node<T>, dummy: Node<T>, merged: seq<Node<T>>, rest: seq<Node<T>>, other: seq<Node<T>>)
    requires Merging(l, dummy, merged, rest, other)
    ensures Merging(l, dummy, merged, other, rest)
  {
  }

  lemma MergeOne<T>(a: seq<T>, b: seq<T>, cmp: (T, T) -> int)
    ensures (a == [] ==> Merge(a, b, cmp) == b) && (b == [] ==> Merge(a, b, cmp) == a)
  {
  }

  /** Merges two non-empty half lists by relinking their nodes. */
  method SortMerge<T>(list1: Node<T>, list2: Node<T>, cmp: (T, T) -> int,
                      ghost nodes1: seq<Node<T>>, ghost nodes2: seq<Node<T>>)
    returns (head: Node<T>)
    requires Half(nodes1) && Half(nodes2) && Apart(nodes1, nodes2)
    requires nodes1 != [] && nodes2 != [] && list1 == nodes1[0] && list2 == nodes2[0]
    modifies nodes1, nodes2
    ensures Linked(Merge(nodes1, nodes2, ByData(cmp)))
    ensures head == Head(Merge(nodes1, nodes2, ByData(cmp)))
  {
    hide Merging, Half, Apart, Linked, Merge;
    ghost var all := Members(nodes1) + Members(nodes2);
    ghost var target := Merge(nodes1, nodes2, ByData(cmp));
    var dummy := new Node(list1.data);
    var l, lprev: Node?<T> := dummy, null;
    var l1: Node?<T>, l2: Node?<T> := list1, list2;
    ghost var merged: seq<Node<T>>, rest1, rest2 := [], nodes1, nodes2;
    MergingStart(dummy, rest1, rest2);
    while l1 != null && l2 != null
      invariant target == merged + Merge(rest1, rest2, ByData(cmp))
      invariant merged == [] ==> rest1 != [] && rest2 != []
      invariant rest1 != [] || rest2 != []
      invariant Within(merged, all) && Within(rest1, all) && Within(rest2, all)
      invariant Merging(l, dummy, merged, rest1, rest2) && l == if merged == [] then dummy else merged[|merged| - 1]
      invariant l1 == Head(rest1) && l2 == Head(rest2)
      invariant lprev == At(merged, |merged| - 1)
      decreases |rest1| + |rest2|
    {
      assert l1 in all && l2 in all && (merged != [] ==> l in all);
      l, l1, l2, merged, rest1, rest2 := TakeSmaller(l, lprev, l1, l2, cmp, dummy, merged, rest1, rest2);
      lprev := l;
    }
    ghost var rest, other := if rest1 != [] then rest1 else rest2, if rest1 != [] then rest2 else rest1;
    MergingSwap(l, dummy, merged, rest1, rest2);
    MergeOne(rest1, rest2, ByData(cmp));
    assert target == merged + rest;
    assert rest[0] in all && l in all;
    Attach(l, if l1 != null then l1 else l2, dummy, merged, rest, other);
    head := dummy.next;
  }

  lemma SplitHalf<T>(nodes: seq<Node<T>>, m: nat)
    requires Half(nodes) && 0 < m < |nodes|
    ensures Half(nodes[m..]) && NoDup(nodes[..m]) && Apart(nodes[..m], nodes[m..])
  {
    forall i | 0 <= i < |nodes| - m
      ensures nodes[m..][i].next == At(nodes[m..], i + 1)
      ensures i > 0 ==> nodes[m..][i].prev == At(nodes[m..], i - 1)
    {
      assert nodes[m + i].next == At(nodes, m + i + 1);
      assert i > 0 ==> nodes[m + i].prev == At(nodes, m + i - 1);
    }
  }

  /** Sorting the halves keeps them apart and within the list. */
  lemma SortedHalves<T>(nodes: seq<Node<T>>, m: nat, cmp: (Node<T>, Node<T>) -> int)
    requires 0 < m < |nodes| && NoDup(nodes)
    ensures var sl, sr := Sort(nodes[..m], cmp), Sort(nodes[m..], cmp);
            && sl != [] && sr != [] && Apart(sl, sr) && Apart(sl, nodes[m..])
            && (forall i | 0 <= i < |sl| :: sl[i] in nodes)
            && (forall i | 0 <= i < |sr| :: sr[i] in nodes)
  {
    var left, right := nodes[..m], nodes[m..];
    SortPermutes(left, cmp);
    SortPermutes(right, cmp);
    SortWithin(left, Members(left), cmp);
    SortWithin(right, Members(right), cmp);
    assert forall n | n in Members(left) :: n !in Members(right);
    assert forall n | n in Members(left) || n in Members(right) :: n in nodes;
    assert forall i | 0 <= i < |right| :: right[i] in Members(right);
  }

  /** Finds the node before the middle: number |nodes| / 2 - 1. */
  method BeforeMiddle<T>(list: Node<T>, ghost nodes: seq<Node<T>>) returns (l1: Node<T>)
    requires Half(nodes) && |nodes| > 1 && list == nodes[0]
    ensures l1 == nodes[|nodes| / 2 - 1]
  {
    l1 := list;
    var l2 := list.next.next;
    ghost var k := 0;
    while l2 != null
      invariant 2 * k + 2 <= |nodes| && l1 == nodes[k] && l2 == At(nodes, 2 * k + 2)
      decreases |nodes| - k
    {
      l2 := l2.next;
      if l2 == null {
        break;
      }
      l1 := l1.next;
      l2 := l2.next;
      k := k + 1;
    }
  }

  /** Cuts the list in two; the second half's head keeps a stale `prev`. */
  method CutMiddle<T>(list: Node<T>, ghost nodes: seq<Node<T>>) returns (l2: Node<T>)
    requires Half(nodes) && |nodes| > 1 && list == nodes[0]
    modifies nodes
    ensures Half(nodes[..|nodes| / 2]) && Half(nodes[|nodes| / 2..]) && l2 == nodes[|nodes| / 2]
  {
    var l1 := BeforeMiddle(list, nodes);
    l2 := l1.next;
    SplitHalf(nodes, |nodes| / 2);
    l1.next := null;
  }

  lemma HalfEnds<T>(nodes: seq<Node<T>>, cmp: (Node<T>, Node<T>) -> int)
    requires Half(nodes)
    ensures NoDup(nodes) && (nodes != [] ==> (nodes[0].next == null <==> |nodes| == 1))
    ensures |nodes| <= 1 ==> Sort(nodes, cmp) == nodes
    ensures |nodes| > 1 ==> Sort(nodes, cmp) == Merge(Sort(nodes[..|nodes| / 2], cmp), Sort(nodes[|nodes| / 2..], cmp), cmp)
  {
  }

  lemma LinkedIsHalf<T>(nodes: seq<Node<T>>)
    requires Linked(nodes)
    ensures Half(nodes)
  {
  }

  lemma ApartFrom<T>(sl: seq<Node<T>>, right: seq<Node<T>>)
    requires Apart(sl, right)
    ensures forall n | n in sl :: n !in right
  {
  }

  /** Sorts in place.  The list may arrive with a stale `prev` in its head,
      which is how the recursive calls see the second half. */
  method SortReal<T>(list: Node?<T>, cmp: (T, T) -> int, ghost nodes: seq<Node<T>>) returns (head: Node?<T>)
    requires Half(nodes) && list == Head(nodes)
    modifies nodes
    ensures Half(Sort(nodes, ByData(cmp))) && head == Head(Sort(nodes, ByData(cmp)))
    ensures |nodes| > 1 ==> Linked(Sort(nodes, ByData(cmp)))
    ensures |nodes| == 1 ==> nodes[0].prev == old(nodes[0].prev)
    decreases |nodes|
  {
    hide Half, Linked, Apart, Merge, NoDup, Sort;
    head := list;
    HalfEnds(nodes, ByData(cmp));
    if list == null || list.next == null {
      return;
    }
    var l2 := CutMiddle(list, nodes);
    ghost var m := |nodes| / 2;
    ghost var left, right := nodes[..m], nodes[m..];
    ghost var sl, sr := Sort(left, ByData(cmp)), Sort(right, ByData(cmp));
    SortedHalves(nodes, m, ByData(cmp));
    var s1 := SortReal(list, cmp, left);
    ApartFrom(sl, right);
    var s2 := SortReal(l2, cmp, right);
    head := SortMerge(s1, s2, cmp, sl, sr);
    LinkedIsHalf(Sort(nodes, ByData(cmp)));
  }

  /** g_list_sort: rearranges the nodes of a well formed list as `Sort` does. */
  method SortList<T>(list: Node?<T>, cmp: (T, T) -> int, ghost nodes: seq<Node<T>>) returns (head: Node?<T>)
    requires Linked(nodes) && list == Head(nodes)
    modifies nodes
    ensures Linked(Sort(nodes, ByData(cmp))) && head == Head(Sort(nodes, ByData(cmp)))
    ensures Elements(Sort(nodes, ByData(cmp))) == Sort(Elements(nodes), cmp)
  {
    head := SortReal(list, cmp, nodes);
    SortElements(nodes, cmp);
  }

  lemma {:induction false} MergeElements<T>(a: seq<Node<T>>, b: seq<Node<T>>, cmp: (T, T) -> int)
    ensures Elements(Merge(a, b, ByData(cmp))) == Merge(Elements(a), Elements(b), cmp)
    decreases |a| + |b|
  {
    if a != [] && b != [] {
      ElementsStep(a);
      ElementsStep(b);
      ElementsStep(Merge(a, b, ByData(cmp)));
      MergeElements(a[1..], b, cmp);
      MergeElements(a, b[1..], cmp);
      if cmp(a[0].data, b[0].data) <= 0 {
        assert Merge(a, b, ByData(cmp))[1..] == Merge(a[1..], b, ByData(cmp));
      } else {
        assert Merge(a, b, ByData(cmp))[1..] == Merge(a, b[1..], ByData(cmp));
      }
    }
  }

  /** Sorting nodes by their elements and sorting the elements agree. */
  lemma {:induction false} SortElements<T>(nodes: seq<Node<T>>, cmp: (T, T) -> int)
    ensures Elements(Sort(nodes, ByData(cmp))) == Sort(Elements(nodes), cmp)
    decreases |nodes|
  {
    if |nodes| > 1 {
      var m := |nodes| / 2;
      SortElements(nodes[..m], cmp);
      SortElements(nodes[m..], cmp);
      MergeElements(Sort(nodes[..m], ByData(cmp)), Sort(nodes[m..], ByData(cmp)), cmp);
      assert Elements(nodes)[..m] == Elements(nodes[..m]);
      assert Elements(nodes)[m..] == Elements(nodes[m..]);
    }
  }
}
