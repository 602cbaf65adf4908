/** Memory of a Go program as the blocks allocated so far; an address is a block's number. */
module GoMemory {
  import opened Options
  import opened GoStrings
  import N = NodeImages

  type Pointer = Option<nat>

  /** A slice is nil or a window of a block; windows of one block may overlap. */
  datatype Slice = NilSlice | Slice(at: nat, off: nat, len: nat)

  // ---------- Structs ----------

  // A struct's slices are of type S and its pointers and maps of type P: addresses in memory, or the
  // contents found there.

  /** ObjectMeta, with its labels for all the references it holds. */
  datatype ObjectMeta<P> = ObjectMeta(name: string, labels: P)

  datatype ListMeta<P> = ListMeta(resourceVersion: string, remaining: P)

  datatype RebuildPolicy<P> = RebuildPolicy(trigger: GoString, interval: P)

  datatype ImageSpec<S, P> = ImageSpec(
    baseImage: N.BaseImage,
    distribution: N.Distribution,
    packages: S,
    sshAuthorizedKeys: S,
    timezone: GoString,
    buildConfig: N.BuildConfig,
    rebuildPolicy: RebuildPolicy<P>)

  datatype ImageStatus<S, P> = ImageStatus(
    conditions: S, templateVMID: P, templateNode: string, observedSpecHash: string, lastBuildTime: P)

  datatype Image<S, P> = Image(meta: ObjectMeta<P>, spec: ImageSpec<S, P>, status: ImageStatus<S, P>)

  datatype InstanceType = InstanceType(name: string, cpu: N.int32, memoryMiB: N.int32, diskGiB: N.int32)

  datatype PlacementTarget = PlacementTarget(node: string, zone: string)

  datatype NetworkConfig<P> = NetworkConfig(bridge: string, vlanTag: P, firewall: bool)

  datatype ClassSpec<S, P> = ClassSpec(
    nodeImageRef: string,
    instanceTypes: S,
    placementTargets: S,
    storagePool: string,
    network: NetworkConfig<P>,
    tags: S)

  datatype ClassStatus<S> = ClassStatus(conditions: S)

  datatype Class<S, P> = Class(meta: ObjectMeta<P>, spec: ClassSpec<S, P>, status: ClassStatus<S>)

  /** An element of a list: PVENodeImageList holds images, PVENodeClassList classes. */
  datatype Object<S, P> = AnImage(image: Image<S, P>) | AClass(class_: Class<S, P>)

  /** PVENodeImageList or PVENodeClassList. */
  datatype List = List(meta: ListMeta<Pointer>, items: Slice)

  // ---------- Blocks ----------

  datatype Kind = OfTexts | OfConditions | OfInstanceTypes | OfTargets | OfNumber | OfTable | OfObjects

  datatype Block =
    | Texts(texts: seq<GoString>)
    | Conditions(conditions: seq<N.Condition>)
    | InstanceTypes(instanceTypes: seq<InstanceType>)
    | Targets(targets: seq<PlacementTarget>)
    | Number(number: int)
    | Table(table: map<string, string>)
    | Objects(objects: seq<Object<Slice, Pointer>>)

  type Blocks = seq<Block>

  function Size(b: Block): nat {
    match b
    case Texts(s) => |s|
    case Conditions(s) => |s|
    case InstanceTypes(s) => |s|
    case Targets(s) => |s|
    case Objects(s) => |s|
    case _ => 1
  }

  function KindOf(b: Block): Kind {
    match b
    case Texts(_) => OfTexts
    case Conditions(_) => OfConditions
    case InstanceTypes(_) => OfInstanceTypes
    case Targets(_) => OfTargets
    case Number(_) => OfNumber
    case Table(_) => OfTable
    case Objects(_) => OfObjects
  }

  /** The slice is nil, or a window of a block of that kind. */
  predicate Fits(m: Blocks, s: Slice, kind: Kind) {
    s.Slice? ==> s.at < |m| && KindOf(m[s.at]) == kind && s.off + s.len <= Size(m[s.at])
  }

  predicate Points(m: Blocks, p: Pointer, kind: Kind) {
    p.Some? ==> p.value < |m| && KindOf(m[p.value]) == kind
  }

  function Window(b: Block, off: nat, len: nat): (r: Block)
    requires off + len <= Size(b)
    ensures KindOf(r) == KindOf(b)
    ensures b.Number? || b.Table? || Size(r) == len
  {
    match b
    case Texts(s) => Texts(s[off..off + len])
    case Conditions(s) => Conditions(s[off..off + len])
    case InstanceTypes(s) => InstanceTypes(s[off..off + len])
    case Targets(s) => Targets(s[off..off + len])
    case Objects(s) => Objects(s[off..off + len])
    case _ => b
  }

  type Content = Option<Block>

  /** What a slice holds; nil is not the same as empty. */
  function Elements(m: Blocks, s: Slice, kind: Kind): Content
    requires Fits(m, s, kind)
  {
    if s.NilSlice? then None else Some(Window(m[s.at], s.off, s.len))
  }

  function Target(m: Blocks, p: Pointer, kind: Kind): Content
    requires Points(m, p, kind)
  {
    if p.None? then None else Some(m[p.value])
  }

  // ---------- References ----------

  function Base(s: Slice): Pointer {
    if s.NilSlice? then None else Some(s.at)
  }

  /** The references, nil aside, ascend from lo to below hi. */
  predicate Ascend(refs: seq<Pointer>, lo: nat, hi: nat)
    decreases |refs|
  {
    if refs == [] then lo <= hi
    else if refs[0].None? then Ascend(refs[1..], lo, hi)
    else lo <= refs[0].value && Ascend(refs[1..], refs[0].value + 1, hi)
  }

  /** Ascending references lie in their range, and no two are the same. */
  lemma {:induction false} AscendApart(refs: seq<Pointer>, lo: nat, hi: nat)
    requires Ascend(refs, lo, hi)
    ensures lo <= hi && forall i :: 0 <= i < |refs| && refs[i].Some? ==> lo <= refs[i].value < hi
    ensures forall i, j :: 0 <= i < j < |refs| && refs[i].Some? ==> refs[i] != refs[j]
    decreases |refs|
  {
    if refs != [] {
      var next := if refs[0].Some? then refs[0].value + 1 else lo;
      AscendApart(refs[1..], next, hi);
      assert forall i :: 0 < i < |refs| ==> refs[i] == refs[1..][i - 1];
    }
  }

  lemma {:induction false} AscendAppend(a: seq<Pointer>, b: seq<Pointer>, lo: nat, mid: nat, hi: nat)
    requires Ascend(a, lo, mid) && Ascend(b, mid, hi)
    ensures Ascend(a + b, lo, hi)
    decreases |a|
  {
    if a == [] {
      assert a + b == b;
      AscendFrom(b, lo, mid, hi);
    } else {
      AscendAppend(a[1..], b, if a[0].Some? then a[0].value + 1 else lo, mid, hi);
      assert (a + b)[1..] == a[1..] + b;
    }
  }

  lemma {:induction false} AscendFrom(a: seq<Pointer>, lo: nat, mid: nat, hi: nat)
    requires lo <= mid && Ascend(a, mid, hi)
    ensures Ascend(a, lo, hi)
    decreases |a|
  {
    if a != [] && a[0].None? {
      AscendFrom(a[1..], lo, mid, hi);
    }
  }

  lemma AscendThree(a: Pointer, b: Pointer, c: Pointer, n0: nat, n1: nat, n2: nat, n3: nat)
    requires Ascend([a], n0, n1) && Ascend([b], n1, n2) && Ascend([c], n2, n3)
    ensures Ascend([a, b, c], n0, n3)
  {
    AscendAppend([b], [c], n1, n2, n3);
    AscendAppend([a], [b] + [c], n0, n1, n3);
    assert [a] + ([b] + [c]) == [a, b, c];
  }

  /** Every block that is referred to is the same in both memories. */
  predicate Agree(m: Blocks, m': Blocks, refs: seq<Pointer>) {
    forall i :: 0 <= i < |refs| && refs[i].Some? && refs[i].value < |m| ==>
                  refs[i].value < |m'| && m'[refs[i].value] == m[refs[i].value]
  }

  lemma AgreeParts(m: Blocks, m': Blocks, a: seq<Pointer>, b: seq<Pointer>)
    ensures Agree(m, m', a + b) <==> Agree(m, m', a) && Agree(m, m', b)
  {
    assert forall i :: 0 <= i < |a| ==> (a + b)[i] == a[i];
    assert forall i :: 0 <= i < |b| ==> (a + b)[|a| + i] == b[i];
  }

  lemma PrefixAgrees(m: Blocks, m': Blocks, refs: seq<Pointer>)
    requires m <= m'
    ensures Agree(m, m', refs)
  {
  }

  lemma SliceKept(m: Blocks, m': Blocks, s: Slice, kind: Kind)
    requires Fits(m, s, kind) && m <= m'
    ensures Fits(m', s, kind) && Elements(m', s, kind) == Elements(m, s, kind)
  {
  }

  lemma TargetKept(m: Blocks, m': Blocks, p: Pointer, kind: Kind)
    requires Points(m, p, kind) && m <= m'
    ensures Points(m', p, kind) && Target(m', p, kind) == Target(m, p, kind)
  {
  }

  // ---------- Allocation ----------

  /** What a new block of conditions holds before they are copied. */
  const ZERO_CONDITION := N.Condition("", N.IsUnknown, "", "", 0, 0)

  /** What a new block of list elements holds before they are copied. */
  const ZERO_OBJECT: Object<Slice, Pointer> := AClass(
    Class(ObjectMeta("", None),
          ClassSpec("", NilSlice, NilSlice, "", NetworkConfig("", None, false), NilSlice),
          ClassStatus(NilSlice)))

  class Memory {
    var blocks: Blocks

    constructor (blocks: Blocks)
      ensures this.blocks == blocks
    {
      this.blocks := blocks;
    }

    method Allocate(b: Block) returns (at: nat)
      modifies this
      ensures at == |old(blocks)| && blocks == old(blocks) + [b]
    {
      at := |blocks|;
      blocks := blocks + [b];
    }

    method Store(at: nat, b: Block)
      requires at < |blocks|
      modifies this
      ensures blocks == old(blocks)[at := b]
    {
      blocks := blocks[at := b];
    }

    /** A new block with the slice's elements; nil stays nil. */
    method CopySlice(s: Slice, kind: Kind) returns (r: Slice)
      requires Fits(blocks, s, kind) && kind != OfNumber && kind != OfTable
      modifies this
      ensures old(blocks) <= blocks
      ensures Fits(blocks, r, kind) && Elements(blocks, r, kind) == old(Elements(blocks, s, kind))
      ensures Ascend([Base(r)], |old(blocks)|, |blocks|)
    {
      if s.NilSlice? {
        assert [Base(NilSlice)][1..] == [];
        return NilSlice;
      }
      var at := Allocate(Window(blocks[s.at], s.off, s.len));
      r := Slice(at, 0, s.len);
      WholeWindow(blocks[at]);
      assert [Base(r)][1..] == [];
    }

    /** The same for conditions, which are copied one by one. */
    method CopyConditions(s: Slice) returns (r: Slice)
      requires Fits(blocks, s, OfConditions)
      modifies this
      ensures old(blocks) <= blocks
      ensures Fits(blocks, r, OfConditions)
      ensures Elements(blocks, r, OfConditions) == old(Elements(blocks, s, OfConditions))
      ensures Ascend([Base(r)], |old(blocks)|, |blocks|)
    {
      if s.NilSlice? {
        assert [Base(NilSlice)][1..] == [];
        return NilSlice;
      }
      var from := blocks[s.at].conditions;
      var at := Allocate(Conditions(seq(s.len, _ => ZERO_CONDITION)));
      for i := 0 to s.len
        invariant |blocks| == at + 1 && blocks[..at] == old(blocks)
        invariant blocks[at].Conditions? && |blocks[at].conditions| == s.len
        invariant forall k :: 0 <= k < i ==> blocks[at].conditions[k] == from[s.off + k]
      {
        Store(at, Conditions(blocks[at].conditions[i := from[s.off + i]]));
      }
      assert blocks[at].conditions == from[s.off..s.off + s.len];
      r := Slice(at, 0, s.len);
      WholeWindow(blocks[at]);
      assert [Base(r)][1..] == [];
    }

    /** A new target with the same value; nil stays nil. */
    method CopyTarget(p: Pointer, kind: Kind) returns (r: Pointer)
      requires Points(blocks, p, kind)
      modifies this
      ensures old(blocks) <= blocks
      ensures Points(blocks, r, kind) && Target(blocks, r, kind) == old(Target(blocks, p, kind))
      ensures Ascend([r], |old(blocks)|, |blocks|)
    {
      if p.None? {
        assert [p][1..] == [];
        return None;
      }
      var at := Allocate(blocks[p.value]);
      r := Some(at);
      assert [r][1..] == [];
    }
  }

  lemma WholeWindow(b: Block)
    ensures Window(b, 0, Size(b)) == b
  {
  }

  // ---------- The same, field by field ----------

  /** Both are nil, or both point to the same value. */
  predicate SameTarget(m: Blocks, p: Pointer, m': Blocks, q: Pointer)
    requires (p.Some? ==> p.value < |m|) && (q.Some? ==> q.value < |m'|)
  {
    p.Some? == q.Some? && (p.Some? ==> m'[q.value] == m[p.value])
  }

  predicate SameTexts(m: Blocks, s: Slice, m': Blocks, r: Slice)
    requires Fits(m, s, OfTexts) && Fits(m', r, OfTexts)
  {
    && s.Slice? == r.Slice?
    && (s.Slice? ==> m'[r.at].texts[r.off..r.off + r.len] == m[s.at].texts[s.off..s.off + s.len])
  }

  predicate SameConditions(m: Blocks, s: Slice, m': Blocks, r: Slice)
    requires Fits(m, s, OfConditions) && Fits(m', r, OfConditions)
  {
    && s.Slice? == r.Slice?
    && (s.Slice? ==> m'[r.at].conditions[r.off..r.off + r.len] == m[s.at].conditions[s.off..s.off + s.len])
  }

  predicate SameInstanceTypes(m: Blocks, s: Slice, m': Blocks, r: Slice)
    requires Fits(m, s, OfInstanceTypes) && Fits(m', r, OfInstanceTypes)
  {
    && s.Slice? == r.Slice?
    && (s.Slice? ==> m'[r.at].instanceTypes[r.off..r.off + r.len] == m[s.at].instanceTypes[s.off..s.off + s.len])
  }

  predicate SameTargets(m: Blocks, s: Slice, m': Blocks, r: Slice)
    requires Fits(m, s, OfTargets) && Fits(m', r, OfTargets)
  {
    && s.Slice? == r.Slice?
    && (s.Slice? ==> m'[r.at].targets[r.off..r.off + r.len] == m[s.at].targets[s.off..s.off + s.len])
  }

  lemma ElementsMean(m: Blocks, s: Slice, m': Blocks, r: Slice, kind: Kind)
    requires Fits(m, s, kind) && Fits(m', r, kind)
    ensures kind == OfTexts ==> (Elements(m', r, kind) == Elements(m, s, kind) <==> SameTexts(m, s, m', r))
    ensures kind == OfConditions ==> (Elements(m', r, kind) == Elements(m, s, kind) <==> SameConditions(m, s, m', r))
    ensures kind == OfInstanceTypes ==>
              (Elements(m', r, kind) == Elements(m, s, kind) <==> SameInstanceTypes(m, s, m', r))
    ensures kind == OfTargets ==> (Elements(m', r, kind) == Elements(m, s, kind) <==> SameTargets(m, s, m', r))
  {
  }

  /** The reference is nil, or to memory from `n` on. */
  predicate IsNew(n: nat, p: Pointer) {
    p.Some? ==> p.value >= n
  }

  predicate NewSlice(n: nat, s: Slice) {
    s.Slice? ==> s.at >= n
  }
}
