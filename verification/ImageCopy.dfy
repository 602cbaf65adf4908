/** The generated deep copies of PVENodeImage, its spec and its status. */
module ImageCopies {
  import opened Options
  import opened GoMemory

  type Spec = ImageSpec<Slice, Pointer>
  type Status = ImageStatus<Slice, Pointer>
  type ImageObject = Image<Slice, Pointer>
  type ImageValue = Image<Content, Content>

  // ---------- What an object in memory means ----------

  predicate SpecFits(m: Blocks, s: Spec) {
    && Fits(m, s.packages, OfTexts) && Fits(m, s.sshAuthorizedKeys, OfTexts)
    && Points(m, s.rebuildPolicy.interval, OfNumber)
  }

  predicate StatusFits(m: Blocks, s: Status) {
    Fits(m, s.conditions, OfConditions) && Points(m, s.templateVMID, OfNumber) && Points(m, s.lastBuildTime, OfNumber)
  }

  predicate ImageFits(m: Blocks, x: ImageObject) {
    Points(m, x.meta.labels, OfTable) && SpecFits(m, x.spec) && StatusFits(m, x.status)
  }

  function SpecAt(m: Blocks, s: Spec): ImageSpec<Content, Content>
    requires SpecFits(m, s)
  {
    ImageSpec(s.baseImage, s.distribution, Elements(m, s.packages, OfTexts), Elements(m, s.sshAuthorizedKeys, OfTexts),
              s.timezone, s.buildConfig,
              RebuildPolicy(s.rebuildPolicy.trigger, Target(m, s.rebuildPolicy.interval, OfNumber)))
  }

  function StatusAt(m: Blocks, s: Status): ImageStatus<Content, Content>
    requires StatusFits(m, s)
  {
    ImageStatus(Elements(m, s.conditions, OfConditions), Target(m, s.templateVMID, OfNumber), s.templateNode,
                s.observedSpecHash, Target(m, s.lastBuildTime, OfNumber))
  }

  function ImageAt(m: Blocks, x: ImageObject): ImageValue
    requires ImageFits(m, x)
  {
    Image(ObjectMeta(x.meta.name, Target(m, x.meta.labels, OfTable)), SpecAt(m, x.spec), StatusAt(m, x.status))
  }

  function SpecRefs(s: Spec): seq<Pointer> {
    [Base(s.packages), Base(s.sshAuthorizedKeys), s.rebuildPolicy.interval]
  }

  function StatusRefs(s: Status): seq<Pointer> {
    [Base(s.conditions), s.templateVMID, s.lastBuildTime]
  }

  function ImageRefs(x: ImageObject): seq<Pointer> {
    [x.meta.labels] + SpecRefs(x.spec) + StatusRefs(x.status)
  }

  lemma SpecKept(m: Blocks, m': Blocks, s: Spec)
    requires SpecFits(m, s) && Agree(m, m', SpecRefs(s))
    ensures SpecFits(m', s) && SpecAt(m', s) == SpecAt(m, s)
  {
    var r := SpecRefs(s);
    assert r[0] == Base(s.packages) && r[1] == Base(s.sshAuthorizedKeys) && r[2] == s.rebuildPolicy.interval;
  }

  lemma StatusKept(m: Blocks, m': Blocks, s: Status)
    requires StatusFits(m, s) && Agree(m, m', StatusRefs(s))
    ensures StatusFits(m', s) && StatusAt(m', s) == StatusAt(m, s)
  {
    var r := StatusRefs(s);
    assert r[0] == Base(s.conditions) && r[1] == s.templateVMID && r[2] == s.lastBuildTime;
  }

  /** An object means the same in memories that agree on what it refers to. */
  lemma ImageKept(m: Blocks, m': Blocks, x: ImageObject)
    requires ImageFits(m, x) && Agree(m, m', ImageRefs(x))
    ensures ImageFits(m', x) && ImageAt(m', x) == ImageAt(m, x)
  {
    AgreeParts(m, m', [x.meta.labels] + SpecRefs(x.spec), StatusRefs(x.status));
    AgreeParts(m, m', [x.meta.labels], SpecRefs(x.spec));
    assert [x.meta.labels][0] == x.meta.labels;
    SpecKept(m, m', x.spec);
    StatusKept(m, m', x.status);
  }

  // ---------- Copying one object ----------

  method CopySpec(mem: Memory, s: Spec) returns (r: Spec)
    requires SpecFits(mem.blocks, s)
    modifies mem
    ensures old(mem.blocks) <= mem.blocks
    ensures SpecFits(mem.blocks, r) && SpecAt(mem.blocks, r) == old(SpecAt(mem.blocks, s))
    ensures Ascend(SpecRefs(r), |old(mem.blocks)|, |mem.blocks|)
  {
    ghost var m0 := mem.blocks;
    var packages := mem.CopySlice(s.packages, OfTexts);
    ghost var m1 := mem.blocks;
    SliceKept(m0, m1, s.sshAuthorizedKeys, OfTexts);
    var keys := mem.CopySlice(s.sshAuthorizedKeys, OfTexts);
    ghost var m2 := mem.blocks;
    TargetKept(m0, m2, s.rebuildPolicy.interval, OfNumber);
    var interval := mem.CopyTarget(s.rebuildPolicy.interval, OfNumber);
    SliceKept(m1, mem.blocks, packages, OfTexts);
    SliceKept(m2, mem.blocks, keys, OfTexts);
    AscendThree(Base(packages), Base(keys), interval, |m0|, |m1|, |m2|, |mem.blocks|);
    r := s.(packages := packages, sshAuthorizedKeys := keys,
    rebuildPolicy := s.rebuildPolicy.(interval := interval));
  }

  method CopyStatus(mem: Memory, s: Status) returns (r: Status)
    requires StatusFits(mem.blocks, s)
    modifies mem
    ensures old(mem.blocks) <= mem.blocks
    ensures StatusFits(mem.blocks, r) && StatusAt(mem.blocks, r) == old(StatusAt(mem.blocks, s))
    ensures Ascend(StatusRefs(r), |old(mem.blocks)|, |mem.blocks|)
  {
    ghost var m0 := mem.blocks;
    var conditions := mem.CopyConditions(s.conditions);
    ghost var m1 := mem.blocks;
    TargetKept(m0, m1, s.templateVMID, OfNumber);
    var vmid := mem.CopyTarget(s.templateVMID, OfNumber);
    ghost var m2 := mem.blocks;
    TargetKept(m0, m2, s.lastBuildTime, OfNumber);
    var time := mem.CopyTarget(s.lastBuildTime, OfNumber);
    SliceKept(m1, mem.blocks, conditions, OfConditions);
    TargetKept(m2, mem.blocks, vmid, OfNumber);
    AscendThree(Base(conditions), vmid, time, |m0|, |m1|, |m2|, |mem.blocks|);
    r := s.(conditions := conditions, templateVMID := vmid, lastBuildTime := time);
  }

  method CopyImage(mem: Memory, x: ImageObject) returns (r: ImageObject)
    requires ImageFits(mem.blocks, x)
    modifies mem
    ensures old(mem.blocks) <= mem.blocks
    ensures ImageFits(mem.blocks, r) && ImageAt(mem.blocks, r) == old(ImageAt(mem.blocks, x))
    ensures Ascend(ImageRefs(r), |old(mem.blocks)|, |mem.blocks|)
  {
    ghost var m0 := mem.blocks;
    var labels := mem.CopyTarget(x.meta.labels, OfTable);
    ghost var m1 := mem.blocks;
    PrefixAgrees(m0, m1, SpecRefs(x.spec));
    SpecKept(m0, m1, x.spec);
    var spec := CopySpec(mem, x.spec);
    ghost var m2 := mem.blocks;
    PrefixAgrees(m0, m2, StatusRefs(x.status));
    StatusKept(m0, m2, x.status);
    var status := CopyStatus(mem, x.status);
    TargetKept(m1, mem.blocks, labels, OfTable);
    PrefixAgrees(m2, mem.blocks, SpecRefs(spec));
    SpecKept(m2, mem.blocks, spec);
    AscendAppend([labels], SpecRefs(spec), |m0|, |m1|, |m2|);
    AscendAppend([labels] + SpecRefs(spec), StatusRefs(status), |m0|, |m2|, |mem.blocks|);
    r := Image(x.meta.(labels := labels), spec, status);
  }

  // ---------- Field by field ----------

  /** Every field is the same, and every field that is a reference refers to the same contents. */
  predicate SameImage(m: Blocks, x: ImageObject, m': Blocks, r: ImageObject)
    requires ImageFits(m, x) && ImageFits(m', r)
  {
    && r.meta.name == x.meta.name && SameTarget(m, x.meta.labels, m', r.meta.labels)
    && r.spec.baseImage == x.spec.baseImage && r.spec.distribution == x.spec.distribution
    && SameTexts(m, x.spec.packages, m', r.spec.packages)
    && SameTexts(m, x.spec.sshAuthorizedKeys, m', r.spec.sshAuthorizedKeys)
    && r.spec.timezone == x.spec.timezone && r.spec.buildConfig == x.spec.buildConfig
    && r.spec.rebuildPolicy.trigger == x.spec.rebuildPolicy.trigger
    && SameTarget(m, x.spec.rebuildPolicy.interval, m', r.spec.rebuildPolicy.interval)
    && SameConditions(m, x.status.conditions, m', r.status.conditions)
    && SameTarget(m, x.status.templateVMID, m', r.status.templateVMID)
    && r.status.templateNode == x.status.templateNode && r.status.observedSpecHash == x.status.observedSpecHash
    && SameTarget(m, x.status.lastBuildTime, m', r.status.lastBuildTime)
  }

  lemma ImageMeans(m: Blocks, x: ImageObject, m': Blocks, r: ImageObject)
    requires ImageFits(m, x) && ImageFits(m', r)
    ensures ImageAt(m', r) == ImageAt(m, x) <==> SameImage(m, x, m', r)
  {
    ElementsMean(m, x.spec.packages, m', r.spec.packages, OfTexts);
    ElementsMean(m, x.spec.sshAuthorizedKeys, m', r.spec.sshAuthorizedKeys, OfTexts);
    ElementsMean(m, x.status.conditions, m', r.status.conditions, OfConditions);
  }

  /** Every reference the object holds is to memory from `n` on. */
  predicate NewImage(n: nat, x: ImageObject) {
    && IsNew(n, x.meta.labels)
    && NewSlice(n, x.spec.packages) && NewSlice(n, x.spec.sshAuthorizedKeys)
    && IsNew(n, x.spec.rebuildPolicy.interval)
    && NewSlice(n, x.status.conditions) && IsNew(n, x.status.templateVMID) && IsNew(n, x.status.lastBuildTime)
  }

  lemma ImageIsNew(n: nat, x: ImageObject)
    requires forall p :: p in ImageRefs(x) ==> IsNew(n, p)
    ensures NewImage(n, x)
  {
    var r := ImageRefs(x);
    assert r[0] in r && r[1] in r && r[2] in r && r[3] in r && r[4] in r && r[5] in r && r[6] in r;
  }
}
