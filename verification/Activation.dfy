/** activate.c: the CPU mask an IRQ is given, and that it respects hints and banned CPUs. */
module Activation {
  import opened Irqs
  import opened Ownership
  import opened Tree
  import opened PlacementProofs
  import opened LoadProofs

  datatype Mask = NoMask | Mask(cpus: set<nat>)

  predicate SubsetHinted(q: IrqInfo) {
    q.hintPolicy == HintSubset && q.affinityHint != {}
  }

  predicate ExactHinted(q: IrqInfo) {
    q.hintPolicy == HintExact && q.affinityHint != {}
  }

  /** The mask activate_mapping chooses for an IRQ with this assigned object. */
  function ChosenMask(banned: set<nat>, q: IrqInfo, owner: TopoObj?): Mask {
    if ExactHinted(q) then (if q.affinityHint * banned != {} then NoMask else Mask(q.affinityHint))
    else if owner == null then NoMask
    else if SubsetHinted(q) then
      (if owner.mask * q.affinityHint <= banned then NoMask else Mask(owner.mask * q.affinityHint))
    else Mask(owner.mask)
  }

  /** What the kernel says of the IRQs: whose affinity is already as wanted, and
      whose can be written. */
  datatype Kernel = Kernel(current: map<IrqInfo, set<nat>>, writable: set<IrqInfo>)

  /** check_affinity: also satisfied when the current mask cannot be read. */
  predicate AffinitySet(kernel: Kernel, q: IrqInfo, cpus: set<nat>) {
    q !in kernel.current || kernel.current[q] == cpus
  }

  /** The mask written for the IRQ, if any. */
  function Written(cfg: Config, st: State, kernel: Kernel, q: IrqInfo): Mask
    requires q in st.irqs
  {
    var mask := ChosenMask(cfg.banned, q, st.irqs[q].owner);
    if !st.irqs[q].moved || mask.NoMask? || AffinitySet(kernel, q, mask.cpus) || st.irqs[q].owner == null || q !in kernel.writable
    then NoMask else mask
  }

  /** activate_mapping */
  function Activate(cfg: Config, st: State, kernel: Kernel, q: IrqInfo): State
    requires q in st.irqs
  {
    if Written(cfg, st, kernel, q).Mask? then st.(irqs := st.irqs[q := st.irqs[q].(moved := false)]) else st
  }

  function ActivateAll(cfg: Config, st: State, kernel: Kernel, qs: seq<IrqInfo>): (r: State)
    requires forall q | q in qs :: q in st.irqs
    ensures r.objs == st.objs && r.rebalance == st.rebalance && r.irqs.Keys == st.irqs.Keys
    decreases |qs|
  {
    if qs == [] then st else ActivateAll(cfg, Activate(cfg, st, kernel, qs[0]), kernel, qs[1..])
  }

  /** What an IRQ's hint makes of its mask.  EXACT: the hint, if and only if it misses the banned
      CPUs, wherever the IRQ is.  SUBSET: what the hint and the object have in common, if that is
      not all banned.  Otherwise the object's mask. */
  ghost predicate FollowsHint(banned: set<nat>, q: IrqInfo, o: TopoObj?, mask: Mask) {
    if q.hintPolicy == HintExact && q.affinityHint != {} then
      mask == if q.affinityHint !! banned then Mask(q.affinityHint) else NoMask
    else if o == null then mask == NoMask
    else if q.hintPolicy == HintSubset && q.affinityHint != {} then
      mask == if o.mask * q.affinityHint <= banned then NoMask else Mask(o.mask * q.affinityHint)
    else mask == Mask(o.mask)
  }

  lemma ChosenFollowsHint(banned: set<nat>, q: IrqInfo, o: TopoObj?)
    ensures FollowsHint(banned, q, o, ChosenMask(banned, q, o))
  {
    assert forall cpu | cpu in q.affinityHint && cpu in banned :: cpu in q.affinityHint * banned;
    assert q.affinityHint * banned == {} <==> q.affinityHint !! banned;
  }

  /** Below the nodes every mask chosen avoids banned CPUs; and a SUBSET-hinted
      IRQ always gets one, just what its hint and its object have in common: its
      "subset empty" branch is never taken. */
  lemma MaskBelowNodes(cfg: Config, st: State, q: IrqInfo)
    requires Inv(cfg, st) && q in st.irqs && st.irqs[q].owner != null && st.irqs[q].owner.kind != ObjNode
    ensures var o := st.irqs[q].owner;
      var mask := ChosenMask(cfg.banned, q, o);
      && (mask.Mask? ==> mask.cpus !! cfg.banned)
      && FollowsHint(cfg.banned, q, o, mask)
      && (q.hintPolicy == HintSubset && q.affinityHint != {} ==> mask == Mask(o.mask * q.affinityHint) && mask.cpus != {})
  {
    hide Inv;
    PlaceFacts(cfg, st, q);
    MaskOfObject(cfg.banned, q, st.irqs[q].owner);
  }

  lemma MaskOfObject(banned: set<nat>, q: IrqInfo, o: TopoObj)
    requires o.mask !! banned && (SubsetHinted(q) ==> q.affinityHint * o.mask != {})
    ensures var mask := ChosenMask(banned, q, o);
      && (mask.Mask? ==> mask.cpus !! banned)
      && FollowsHint(banned, q, o, mask)
      && (q.hintPolicy == HintSubset && q.affinityHint != {} ==> mask == Mask(o.mask * q.affinityHint) && mask.cpus != {})
  {
    ChosenFollowsHint(banned, q, o);
    if q.hintPolicy == HintSubset && q.affinityHint != {} {
      var cpu :| cpu in q.affinityHint * o.mask;
      assert cpu in o.mask * q.affinityHint && cpu !in banned;
    }
  }

  lemma PlaceFacts(cfg: Config, st: State, q: IrqInfo)
    requires Inv(cfg, st) && q in st.irqs && st.irqs[q].owner != null && st.irqs[q].owner.kind != ObjNode
    ensures var o := st.irqs[q].owner; o.mask !! cfg.banned && (SubsetHinted(q) ==> q.affinityHint * o.mask != {})
  {
    hide Ready, Owned, TreeOk, OwnedIrq;
    InvParts(cfg, st);
    OwnerThere(st, q);
    MaskThere(cfg, st.objs.Keys, st.irqs[q].owner);
    assert Fitting(st, q);
  }

  lemma OwnerThere(st: State, q: IrqInfo)
    requires Owned(st) && q in st.irqs && st.irqs[q].owner != null
    ensures st.irqs[q].owner in st.objs
  {
    assert OwnedIrq(st, q);
  }

  lemma MaskThere(cfg: Config, objs: set<TopoObj>, o: TopoObj)
    requires TreeOk(cfg, objs) && o in objs && o.kind != ObjNode
    ensures o.mask !! cfg.banned
  {
    hide LayersOk, LinksOk;
  }

  /** A mask is written for an IRQ that has moved and has an object, if there is one for it, it
      can be compared with the current one and differs, and the kernel lets it be written. */
  ghost predicate MustWrite(mask: Mask, q: IrqInfo, info: IrqState, kernel: Kernel) {
    && info.moved && info.owner != null && mask.Mask?
    && q in kernel.current && kernel.current[q] != mask.cpus && q in kernel.writable
  }

  /** Exactly those are written, with the mask chosen for them, and only `moved` changes. */
  lemma {:induction false} ActivateAllDoes(cfg: Config, st: State, kernel: Kernel, qs: seq<IrqInfo>)
    requires (forall q | q in qs :: q in st.irqs)
    ensures SamePlaces(st, ActivateAll(cfg, st, kernel, qs))
    ensures forall q | q in st.irqs ::
      var mask := ChosenMask(cfg.banned, q, st.irqs[q].owner);
      && Written(cfg, st, kernel, q) == (if MustWrite(mask, q, st.irqs[q], kernel) then mask else NoMask)
      && ActivateAll(cfg, st, kernel, qs).irqs[q] ==
           if q in qs && MustWrite(mask, q, st.irqs[q], kernel) then st.irqs[q].(moved := false) else st.irqs[q]
    decreases |qs|
  {
    hide ChosenMask;
    if qs != [] {
      var st1 := Activate(cfg, st, kernel, qs[0]);
      ActivateAllDoes(cfg, st1, kernel, qs[1..]);
    }
  }
}
