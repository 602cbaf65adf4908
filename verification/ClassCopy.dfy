/** The generated deep copies of PVENodeClass, its spec, its status and its network settings. */
module ClassCopies {
  import opened Options
  import opened GoMemory

  type Spec = ClassSpec<Slice, Pointer>
  type ClassObject = Class<Slice, Pointer>
  type ClassValue = Class<Content, Content>

  predicate SpecFits(m: Blocks, s: Spec) {
    && Fits(m, s.instanceTypes, OfInstanceTypes) && Fits(m, s.placementTargets, OfTargets)
    && Points(m, s.network.vlanTag, OfNumber) && Fits(m, s.tags, OfTexts)
  }

  predicate ClassFits(m: Blocks, x: ClassObject) {
    Points(m, x.meta.labels, OfTable) && SpecFits(m, x.spec) && Fits(m, x.status.conditions, OfConditions)
  }

  function SpecAt(m: Blocks, s: Spec): ClassSpec<Content, Content>
    requires SpecFits(m, s)
  {
    ClassSpec(s.nodeImageRef, Elements(m, s.instanceTypes, OfInstanceTypes),
              Elements(m, s.placementTargets, OfTargets), s.storagePool,
              NetworkConfig(s.network.bridge, Target(m, s.network.vlanTag, OfNumber), s.network.firewall),
              Elements(m, s.tags, OfTexts))
  }

  function ClassAt(m: Blocks, x: ClassObject): ClassValue
    requires ClassFits(m, x)
  {
    Class(ObjectMeta(x.meta.name, Target(m, x.meta.labels, OfTable)), SpecAt(m, x.spec),
          ClassStatus(Elements(m, x.status.conditions, OfConditions)))
  }

  function SpecRefs(s: Spec): seq<Pointer> {
    [Base(s.instanceTypes), Base(s.placementTargets), s.network.vlanTag] + [Base(s.tags)]
  }

  function ClassRefs(x: ClassObject): seq<Pointer> {
    [x.meta.labels] + SpecRefs(x.spec) + [Base(x.status.conditions)]
  }

  lemma SpecKept(m: Blocks, m': Blocks, s: Spec)
    requires SpecFits(m, s) && Agree(m, m', SpecRefs(s))
    ensures SpecFits(m', s) && SpecAt(m', s) == SpecAt(m, s)
  {
    var r := SpecRefs(s);
    assert r[0] == Base(s.instanceTypes) && r[1] == Base(s.placementTargets) && r[2] == s.network.vlanTag
        && r[3] == Base(s.tags);
  }

  /** A class means the same in memories that agree on what it refers to. */
  lemma ClassKept(m: Blocks, m': Blocks, x: ClassObject)
    requires ClassFits(m, x) && Agree(m, m', ClassRefs(x))
    ensures ClassFits(m', x) && ClassAt(m', x) == ClassAt(m, x)
  {
    var last := [Base(x.status.conditions)];
    AgreeParts(m, m', [x.meta.labels] + SpecRefs(x.spec), last);
    AgreeParts(m, m', [x.meta.labels], SpecRefs(x.spec));
    assert [x.meta.labels][0] == x.meta.labels && last[0] == Base(x.status.conditions);
    SpecKept(m, m', x.spec);
  }

  method CopyNetwork(mem: Memory, n: NetworkConfig<Pointer>) returns (r: NetworkConfig<Pointer>)
    requires Points(mem.blocks, n.vlanTag, OfNumber)
    modifies mem
    ensures old(mem.blocks) <= mem.blocks
    ensures Points(mem.blocks, r.vlanTag, OfNumber) && r.bridge == n.bridge && r.firewall == n.firewall
    ensures Target(mem.blocks, r.vlanTag, OfNumber) == old(Target(mem.blocks, n.vlanTag, OfNumber))
    ensures Ascend([r.vlanTag], |old(mem.blocks)|, |mem.blocks|)
  {
    var vlan := mem.CopyTarget(n.vlanTag, OfNumber);
    r := n.(vlanTag := vlan);
  }

  method CopySpec(mem: Memory, s: Spec) returns (r: Spec)
    requires SpecFits(mem.blocks, s)
    modifies mem
    ensures old(mem.blocks) <= mem.blocks
    ensures SpecFits(mem.blocks, r) && SpecAt(mem.blocks, r) == old(SpecAt(mem.blocks, s))
    ensures Ascend(SpecRefs(r), |old(mem.blocks)|, |mem.blocks|)
  {
    ghost var m0 := mem.blocks;
    var types := mem.CopySlice(s.instanceTypes, OfInstanceTypes);
    ghost var m1 := mem.blocks;
    SliceKept(m0, m1, s.placementTargets, OfTargets);
    var targets := mem.CopySlice(s.placementTargets, OfTargets);
    ghost var m2 := mem.blocks;
    TargetKept(m0, m2, s.network.vlanTag, OfNumber);
    var network := CopyNetwork(mem, s.network);
    ghost var m3 := mem.blocks;
    SliceKept(m0, m3, s.tags, OfTexts);
    var tags := mem.CopySlice(s.tags, OfTexts);
    SliceKept(m1, mem.blocks, types, OfInstanceTypes);
    SliceKept(m2, mem.blocks, targets, OfTargets);
    TargetKept(m3, mem.blocks, network.vlanTag, OfNumber);
    AscendThree(Base(types), Base(targets), network.vlanTag, |m0|, |m1|, |m2|, |m3|);
    AscendAppend([Base(types), Base(targets), network.vlanTag], [Base(tags)], |m0|, |m3|, |mem.blocks|);
    r := s.(instanceTypes := types, placementTargets := targets, network := network, tags := tags);
  }

  method CopyClass(mem: Memory, x: ClassObject) returns (r: ClassObject)
    requires ClassFits(mem.blocks, x)
    modifies mem
    ensures old(mem.blocks) <= mem.blocks
    ensures ClassFits(mem.blocks, r) && ClassAt(mem.blocks, r) == old(ClassAt(mem.blocks, x))
    ensures Ascend(ClassRefs(r), |old(mem.blocks)|, |mem.blocks|)
  {
    ghost var m0 := mem.blocks;
    var labels := mem.CopyTarget(x.meta.labels, OfTable);
    ghost var m1 := mem.blocks;
    PrefixAgrees(m0, m1, SpecRefs(x.spec));
    SpecKept(m0, m1, x.spec);
    var spec := CopySpec(mem, x.spec);
    ghost var m2 := mem.blocks;
    SliceKept(m0, m2, x.status.conditions, OfConditions);
    var conditions := mem.CopyConditions(x.status.conditions);
    TargetKept(m1, mem.blocks, labels, OfTable);
    PrefixAgrees(m2, mem.blocks, SpecRefs(spec));
    SpecKept(m2, mem.blocks, spec);
    AscendAppend([labels], SpecRefs(spec), |m0|, |m1|, |m2|);
    AscendAppend([labels] + SpecRefs(spec), [Base(conditions)], |m0|, |m2|, |mem.blocks|);
    r := Class(x.meta.(labels := labels), spec, ClassStatus(conditions));
  }

  // ---------- Field by field ----------

  /** Every field is the same, and every field that is a reference refers to the same contents. */
  predicate SameClass(m: Blocks, x: ClassObject, m': Blocks, r: ClassObject)
    requires ClassFits(m, x) && ClassFits(m', r)
  {
    && r.meta.name == x.meta.name && SameTarget(m, x.meta.labels, m', r.meta.labels)
    && r.spec.nodeImageRef == x.spec.nodeImageRef
    && SameInstanceTypes(m, x.spec.instanceTypes, m', r.spec.instanceTypes)
    && SameTargets(m, x.spec.placementTargets, m', r.spec.placementTargets)
    && r.spec.storagePool == x.spec.storagePool && r.spec.network.bridge == x.spec.network.bridge
    && SameTarget(m, x.spec.network.vlanTag, m', r.spec.network.vlanTag)
    && r.spec.network.firewall == x.spec.network.firewall
    && SameTexts(m, x.spec.tags, m', r.spec.tags)
    && SameConditions(m, x.status.conditions, m', r.status.conditions)
  }

  lemma ClassMeans(m: Blocks, x: ClassObject, m': Blocks, r: ClassObject)
    requires ClassFits(m, x) && ClassFits(m', r)
    ensures ClassAt(m', r) == ClassAt(m, x) <==> SameClass(m, x, m', r)
  {
    ElementsMean(m, x.spec.instanceTypes, m', r.spec.instanceTypes, OfInstanceTypes);
    ElementsMean(m, x.spec.placementTargets, m', r.spec.placementTargets, OfTargets);
    ElementsMean(m, x.spec.tags, m', r.spec.tags, OfTexts);
    ElementsMean(m, x.status.conditions, m', r.status.conditions, OfConditions);
  }

  /** Every reference the object holds is to memory from `n` on. */
  predicate NewClass(n: nat, x: ClassObject) {
    && IsNew(n, x.meta.labels)
    && NewSlice(n, x.spec.instanceTypes) && NewSlice(n, x.spec.placementTargets)
    && IsNew(n, x.spec.network.vlanTag) && NewSlice(n, x.spec.tags)
    && NewSlice(n, x.status.conditions)
  }

  lemma ClassIsNew(n: nat, x: ClassObject)
    requires forall p :: p in ClassRefs(x) ==> IsNew(n, p)
    ensures NewClass(n, x)
  {
    var r := ClassRefs(x);
    assert r[0] in r && r[1] in r && r[2] in r && r[3] in r && r[4] in r && r[5] in r;
  }
}
