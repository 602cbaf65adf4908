/** The generated deep copies of PVENodeImageList and PVENodeClassList. */
module ListCopies {
  import opened Options
  import opened GoMemory
  import opened ImageCopies
  import opened ClassCopies

  type Item = Object<Slice, Pointer>
  type Value = Object<Content, Content>

  predicate ObjectFits(m: Blocks, x: Item) {
    match x
    case AnImage(i) => ImageFits(m, i)
    case AClass(c) => ClassFits(m, c)
  }

  function ObjectAt(m: Blocks, x: Item): Value
    requires ObjectFits(m, x)
  {
    match x
    case AnImage(i) => AnImage(ImageAt(m, i))
    case AClass(c) => AClass(ClassAt(m, c))
  }

  function Refs(x: Item): seq<Pointer> {
    match x
    case AnImage(i) => ImageRefs(i)
    case AClass(c) => ClassRefs(c)
  }

  lemma ObjectKept(m: Blocks, m': Blocks, x: Item)
    requires ObjectFits(m, x) && Agree(m, m', Refs(x))
    ensures ObjectFits(m', x) && ObjectAt(m', x) == ObjectAt(m, x)
  {
    match x
    case AnImage(i) => ImageKept(m, m', i);
    case AClass(c) => ClassKept(m, m', c);
  }

  /** DeepCopyInto of an element, whichever list it is in. */
  method CopyObject(mem: Memory, x: Item) returns (r: Item)
    requires ObjectFits(mem.blocks, x)
    modifies mem
    ensures old(mem.blocks) <= mem.blocks
    ensures ObjectFits(mem.blocks, r) && ObjectAt(mem.blocks, r) == old(ObjectAt(mem.blocks, x))
    ensures Ascend(Refs(r), |old(mem.blocks)|, |mem.blocks|)
  {
    match x {
      case AnImage(i) =>
        var c := CopyImage(mem, i);
        r := AnImage(c);
      case AClass(k) =>
        var c := CopyClass(mem, k);
        r := AClass(c);
    }
  }

  // ---------- Lists ----------

  datatype ListValue = ListValue(meta: ListMeta<Content>, items: Option<seq<Value>>)

  predicate AllFit(m: Blocks, xs: seq<Item>) {
    xs == [] || (AllFit(m, xs[..|xs| - 1]) && ObjectFits(m, xs[|xs| - 1]))
  }

  function AllAt(m: Blocks, xs: seq<Item>): seq<Value>
    requires AllFit(m, xs)
  {
    if xs == [] then [] else AllAt(m, xs[..|xs| - 1]) + [ObjectAt(m, xs[|xs| - 1])]
  }

  /** Both element by element. */
  lemma {:induction false} AllAtEach(m: Blocks, xs: seq<Item>, i: nat)
    requires AllFit(m, xs) && i < |xs|
    ensures ObjectFits(m, xs[i]) && |AllAt(m, xs)| == |xs| && AllAt(m, xs)[i] == ObjectAt(m, xs[i])
    decreases |xs|
  {
    if |xs| > 1 {
      AllAtEach(m, xs[..|xs| - 1], if i < |xs| - 1 then i else 0);
    }
  }

  /** The references of a list's elements, in order. */
  function AllRefs(xs: seq<Item>): seq<Pointer> {
    if xs == [] then [] else AllRefs(xs[..|xs| - 1]) + Refs(xs[|xs| - 1])
  }

  function Items(m: Blocks, s: Slice): seq<Item>
    requires Fits(m, s, OfObjects)
  {
    if s.NilSlice? then [] else m[s.at].objects[s.off..s.off + s.len]
  }

  predicate ListFits(m: Blocks, l: List) {
    Points(m, l.meta.remaining, OfNumber) && Fits(m, l.items, OfObjects) && AllFit(m, Items(m, l.items))
  }

  function ListAt(m: Blocks, l: List): ListValue
    requires ListFits(m, l)
  {
    ListValue(ListMeta(l.meta.resourceVersion, Target(m, l.meta.remaining, OfNumber)),
              if l.items.NilSlice? then None else Some(AllAt(m, Items(m, l.items))))
  }

  /** Every reference of a list: those of its own struct, then those of its elements. */
  function ListRefs(m: Blocks, l: List): seq<Pointer>
    requires Fits(m, l.items, OfObjects)
  {
    [l.meta.remaining, Base(l.items)] + AllRefs(Items(m, l.items))
  }

  lemma {:induction false} AllKept(m: Blocks, m': Blocks, xs: seq<Item>)
    requires AllFit(m, xs) && Agree(m, m', AllRefs(xs))
    ensures AllFit(m', xs) && AllAt(m', xs) == AllAt(m, xs)
    decreases |xs|
  {
    if xs != [] {
      var most, last := xs[..|xs| - 1], xs[|xs| - 1];
      AgreeParts(m, m', AllRefs(most), Refs(last));
      AllKept(m, m', most);
      ObjectKept(m, m', last);
    }
  }

  /** A list means the same in memories that agree on all it refers to. */
  lemma ListKept(m: Blocks, m': Blocks, l: List)
    requires ListFits(m, l) && Agree(m, m', ListRefs(m, l))
    ensures ListFits(m', l) && ListAt(m', l) == ListAt(m, l) && ListRefs(m', l) == ListRefs(m, l)
  {
    var own := [l.meta.remaining, Base(l.items)];
    AgreeParts(m, m', own, AllRefs(Items(m, l.items)));
    assert own[0] == l.meta.remaining && own[1] == Base(l.items);
    AllKept(m, m', Items(m, l.items));
  }

  /** `r` is a deep copy of `l`: all that was in memory is still there, it means the same, and its
      references ascend through the memory allocated since. */
  predicate IsCopy(m: Blocks, l: List, m': Blocks, r: List) {
    && m <= m'
    && ListFits(m, l) && ListFits(m', r) && ListAt(m', r) == ListAt(m, l)
    && Ascend(ListRefs(m', r), |m|, |m'|)
  }

  lemma AllRefsSnoc(xs: seq<Item>, x: Item)
    ensures AllRefs(xs + [x]) == AllRefs(xs) + Refs(x)
  {
    assert (xs + [x])[..|xs + [x]| - 1] == xs;
  }

  lemma AllAtSnoc(m: Blocks, xs: seq<Item>, x: Item)
    requires AllFit(m, xs) && ObjectFits(m, x)
    ensures AllFit(m, xs + [x]) && AllAt(m, xs + [x]) == AllAt(m, xs) + [ObjectAt(m, x)]
  {
    assert (xs + [x])[..|xs + [x]| - 1] == xs;
  }

  lemma AboveAgrees(m: Blocks, m': Blocks, at: nat, b: Block, refs: seq<Pointer>, lo: nat, hi: nat)
    requires m <= m' && at < lo && at < |m| && Ascend(refs, lo, hi)
    ensures Agree(m, m'[at := b], refs)
  {
    AscendApart(refs, lo, hi);
  }

  /** One more element was copied, and stored in the list's block. */
  lemma NextCopied(m: Blocks, m': Blocks, at: nat, b: Block, xs: seq<Item>, x: Item)
    requires m <= m' && at < |m|
    requires AllFit(m, xs) && Ascend(AllRefs(xs), at + 1, |m|)
    requires ObjectFits(m', x) && Ascend(Refs(x), |m|, |m'|)
    ensures AllFit(m'[at := b], xs + [x])
    ensures AllAt(m'[at := b], xs + [x]) == AllAt(m, xs) + [ObjectAt(m', x)]
    ensures Ascend(AllRefs(xs + [x]), at + 1, |m'|)
  {
    var later := m'[at := b];
    AboveAgrees(m, m', at, b, AllRefs(xs), at + 1, |m|);
    AboveAgrees(m', m', at, b, Refs(x), |m|, |m'|);
    AllKept(m, later, xs);
    ObjectKept(m', later, x);
    AllAtSnoc(later, xs, x);
    AllRefsSnoc(xs, x);
    AscendAppend(AllRefs(xs), Refs(x), at + 1, |m|, |m'|);
  }

  /** `done` mean `values`, and are in memory above `at`. */
  predicate AreCopies(values: seq<Value>, m: Blocks, done: seq<Item>, at: nat) {
    AllFit(m, done) && AllAt(m, done) == values && Ascend(AllRefs(done), at + 1, |m|)
  }

  lemma OneMoreCopy(values: seq<Value>, m: Blocks, m': Blocks, at: nat, b: Block, done: seq<Item>, x: Item)
    requires m <= m' && at < |m| && AreCopies(values, m, done, at)
    requires ObjectFits(m', x) && Ascend(Refs(x), |m|, |m'|)
    ensures AreCopies(values + [ObjectAt(m', x)], m'[at := b], done + [x], at)
  {
    NextCopied(m, m', at, b, done, x);
  }

  lemma Filled<T>(s: seq<T>, done: seq<T>, x: T)
    requires |done| < |s| && done == s[..|done|]
    ensures done + [x] == s[|done| := x][..|done| + 1] && done + [s[|done|]] == s[..|done| + 1]
  {
  }

  /** The block at `at` is being filled: its first elements are `done`, copies that mean `v`, the first
      of `values`. */
  predicate Filling(values: seq<Value>, m: Blocks, at: nat, out: seq<Item>, v: seq<Value>, done: seq<Item>) {
    && at < |m| && m[at] == Objects(out) && |out| == |values| && |v| == |done| <= |out|
    && v == values[..|v|] && done == out[..|done|] && AreCopies(v, m, done, at)
  }

  lemma FillNext(
    values: seq<Value>, m: Blocks, m': Blocks, at: nat, out: seq<Item>, v: seq<Value>, done: seq<Item>, x: Item)
    requires Filling(values, m, at, out, v, done) && |done| < |out| && m <= m'
    requires ObjectFits(m', x) && Ascend(Refs(x), |m|, |m'|) && ObjectAt(m', x) == values[|done|]
    ensures var out' := out[|done| := x];
            Filling(values, m'[at := Objects(out')], at, out', v + [values[|done|]], done + [x])
  {
    OneMoreCopy(v, m, m', at, Objects(out[|done| := x]), done, x);
    Filled(values, v, values[|v|]);
    Filled(out, done, x);
  }

  lemma FillStart(values: seq<Value>, m: Blocks, at: nat, out: seq<Item>)
    requires at + 1 == |m| && m[at] == Objects(out) && |out| == |values|
    ensures Filling(values, m, at, out, [], [])
  {
  }

  /** The loop over the items. */
  method FillItems(mem: Memory, ghost m0: Blocks, items: seq<Item>, at: nat, zeros: seq<Item>)
    returns (out: seq<Item>)
    requires m0 <= mem.blocks && AllFit(m0, items) && |items| == |zeros| == |AllAt(m0, items)| && at >= |m0|
    requires Filling(AllAt(m0, items), mem.blocks, at, zeros, [], [])
    modifies mem
    ensures m0 <= mem.blocks && |out| == |items| && at < |mem.blocks| && mem.blocks[at] == Objects(out)
    ensures AreCopies(AllAt(m0, items), mem.blocks, out, at)
  {
    out := zeros;
    ghost var values := AllAt(m0, items);
    ghost var done: seq<Item>, v: seq<Value> := [], [];
    for i := 0 to |items|
      invariant m0 <= mem.blocks && |done| == i && Filling(values, mem.blocks, at, out, v, done)
    {
      ghost var m := mem.blocks;
      StillThere(m0, m, items, i);
      var x := CopyObject(mem, items[i]);
      FillNext(values, m, mem.blocks, at, out, v, done, x);
      out := out[i := x];
      mem.Store(at, Objects(out));
      done, v := done + [x], v + [values[i]];
    }
    FilledUp(values, mem.blocks, at, out, v, done);
  }

  /** The copy of a list's items: a new block, filled one by one. */
  method CopyItems(mem: Memory, s: Slice) returns (r: Slice)
    requires Fits(mem.blocks, s, OfObjects) && s.Slice?
    requires AllFit(mem.blocks, Items(mem.blocks, s))
    modifies mem
    ensures old(mem.blocks) <= mem.blocks
    ensures r == Slice(|old(mem.blocks)|, 0, s.len)
    ensures r.at < |mem.blocks| && mem.blocks[r.at].Objects? && |mem.blocks[r.at].objects| == s.len
    ensures AreCopies(old(AllAt(mem.blocks, Items(mem.blocks, s))), mem.blocks, mem.blocks[r.at].objects, r.at)
  {
    ghost var m0 := mem.blocks;
    var items := Items(mem.blocks, s);
    var zeros := seq(s.len, _ => ZERO_OBJECT);
    var at := mem.Allocate(Objects(zeros));
    AllAtLength(m0, items);
    FillStart(AllAt(m0, items), mem.blocks, at, zeros);
    var out := FillItems(mem, m0, items, at, zeros);
    r := Slice(at, 0, s.len);
  }

  lemma FilledUp(values: seq<Value>, m: Blocks, at: nat, out: seq<Item>, v: seq<Value>, done: seq<Item>)
    requires Filling(values, m, at, out, v, done) && |done| == |out|
    ensures m[at].Objects? && m[at].objects == out && AreCopies(values, m, out, at)
  {
    assert v == values && done == out;
  }

  lemma AllAtLength(m: Blocks, xs: seq<Item>)
    requires AllFit(m, xs)
    ensures |AllAt(m, xs)| == |xs|
  {
    if xs != [] {
      AllAtEach(m, xs, 0);
    }
  }

  lemma StillThere(m0: Blocks, m: Blocks, items: seq<Item>, i: nat)
    requires m0 <= m && AllFit(m0, items) && i < |items| == |AllAt(m0, items)|
    ensures ObjectFits(m, items[i]) && ObjectAt(m, items[i]) == AllAt(m0, items)[i]
  {
    AllAtEach(m0, items, i);
    PrefixAgrees(m0, m, Refs(items[i]));
    ObjectKept(m0, m, items[i]);
  }

  /** DeepCopyInto of a list. */
  method CopyList(mem: Memory, l: List) returns (r: List)
    requires ListFits(mem.blocks, l)
    modifies mem
    ensures IsCopy(old(mem.blocks), l, mem.blocks, r)
  {
    ghost var m0 := mem.blocks;
    var remaining := mem.CopyTarget(l.meta.remaining, OfNumber);
    ghost var m1 := mem.blocks;
    SliceKept(m0, m1, l.items, OfObjects);
    AllGrown(m0, m1, Items(m0, l.items));
    assert Items(m1, l.items) == Items(m0, l.items);
    if l.items.NilSlice? {
      r := List(l.meta.(remaining := remaining), NilSlice);
      NilCopied(m0, m1, l, r);
      return;
    }
    var items := CopyItems(mem, l.items);
    r := List(l.meta.(remaining := remaining), items);
    ListCopied(|m0|, m1, mem.blocks, r, AllAt(m0, Items(m0, l.items)), mem.blocks[items.at].objects);
  }

  lemma AllGrown(m0: Blocks, m1: Blocks, xs: seq<Item>)
    requires m0 <= m1 && AllFit(m0, xs)
    ensures AllFit(m1, xs) && AllAt(m1, xs) == AllAt(m0, xs)
  {
    PrefixAgrees(m0, m1, AllRefs(xs));
    AllKept(m0, m1, xs);
  }

  lemma NilCopied(m0: Blocks, m1: Blocks, l: List, r: List)
    requires m0 <= m1 && ListFits(m0, l) && l.items.NilSlice?
    requires r == List(l.meta.(remaining := r.meta.remaining), NilSlice)
    requires Points(m1, r.meta.remaining, OfNumber) && Ascend([r.meta.remaining], |m0|, |m1|)
    requires Target(m1, r.meta.remaining, OfNumber) == Target(m0, l.meta.remaining, OfNumber)
    ensures IsCopy(m0, l, m1, r)
  {
    OwnRefs(r.meta.remaining, NilSlice, [], |m0|, |m1|, |m1|);
  }

  lemma ListIs(m: Blocks, r: List, out: seq<Item>)
    requires r.items.Slice? && r.items.at < |m| && m[r.items.at] == Objects(out) && AllFit(m, out)
    requires r.items.off == 0 && r.items.len == |out| && Points(m, r.meta.remaining, OfNumber)
    ensures ListFits(m, r) && ListRefs(m, r) == [r.meta.remaining, Base(r.items)] + AllRefs(out)
    ensures ListAt(m, r) == ListValue(ListMeta(r.meta.resourceVersion, Target(m, r.meta.remaining, OfNumber)),
                                      Some(AllAt(m, out)))
  {
    assert out[0..|out|] == out;
  }

  lemma ListCopied(n0: nat, m1: Blocks, m2: Blocks, r: List, v: seq<Value>, out: seq<Item>)
    requires m1 <= m2 && |m1| < |m2| && m2[|m1|] == Objects(out) && AreCopies(v, m2, out, |m1|)
    requires r.items == Slice(|m1|, 0, |out|)
    requires Points(m1, r.meta.remaining, OfNumber) && Ascend([r.meta.remaining], n0, |m1|)
    ensures ListFits(m2, r) && Ascend(ListRefs(m2, r), n0, |m2|)
    ensures ListAt(m2, r)
         == ListValue(ListMeta(r.meta.resourceVersion, Target(m1, r.meta.remaining, OfNumber)), Some(v))
  {
    ListMeans(m1, m2, r, v, out);
    ListOrdered(r.meta.remaining, AllRefs(out), n0, |m1|, |m2|);
  }

  lemma ListMeans(m1: Blocks, m2: Blocks, r: List, v: seq<Value>, out: seq<Item>)
    requires m1 <= m2 && |m1| < |m2| && m2[|m1|] == Objects(out)
    requires AllFit(m2, out) && AllAt(m2, out) == v
    requires r.items == Slice(|m1|, 0, |out|) && Points(m1, r.meta.remaining, OfNumber)
    ensures ListFits(m2, r) && ListRefs(m2, r) == [r.meta.remaining, Some(|m1|)] + AllRefs(out)
    ensures ListAt(m2, r)
         == ListValue(ListMeta(r.meta.resourceVersion, Target(m1, r.meta.remaining, OfNumber)), Some(v))
  {
    TargetKept(m1, m2, r.meta.remaining, OfNumber);
    ListIs(m2, r, out);
  }

  lemma ListOrdered(remaining: Pointer, rest: seq<Pointer>, n0: nat, n1: nat, n2: nat)
    requires Ascend([remaining], n0, n1) && Ascend(rest, n1 + 1, n2)
    ensures Ascend([remaining, Some(n1)] + rest, n0, n2)
  {
    OwnRefs(remaining, Slice(n1, 0, 0), rest, n0, n1, n2);
  }

  lemma OwnRefs(remaining: Pointer, items: Slice, rest: seq<Pointer>, n0: nat, n1: nat, n2: nat)
    requires Ascend([remaining], n0, n1)
    requires if items.NilSlice? then Ascend(rest, n1, n2) else items.at == n1 && Ascend(rest, n1 + 1, n2)
    ensures Ascend([remaining, Base(items)] + rest, n0, n2)
  {
    var more := [Base(items)] + rest;
    assert more[1..] == rest;
    AscendAppend([remaining], more, n0, n1, n2);
    assert [remaining] + more == [remaining, Base(items)] + rest;
  }

  /** Memory changed at most in what the references do not reach. */
  predicate Spares(refs: seq<Pointer>, m: Blocks, later: Blocks) {
    forall a :: 0 <= a < |m| && Some(a) in refs ==> a < |later| && later[a] == m[a]
  }

  /** Memory changed at most in what the references reach, and what is new. */
  predicate Within(refs: seq<Pointer>, m: Blocks, later: Blocks) {
    forall a :: 0 <= a < |m| && Some(a) !in refs ==> a < |later| && later[a] == m[a]
  }

  /** Deep copies are apart.  All references of the copy are new, and no two are the same.  Whatever is
      written through the copy, the original means what it meant; whatever is written elsewhere, the
      copy still means that. */
  lemma CopyIsApart(m: Blocks, l: List, m': Blocks, r: List, later: Blocks)
    requires IsCopy(m, l, m', r)
    ensures var refs := ListRefs(m', r);
            && (forall i :: 0 <= i < |refs| && refs[i].Some? ==> refs[i].value >= |m|)
            && (forall i, j :: 0 <= i < j < |refs| && refs[i].Some? ==> refs[i] != refs[j])
    ensures Within(ListRefs(m', r), m', later) ==> ListFits(later, l) && ListAt(later, l) == ListAt(m, l)
    ensures Spares(ListRefs(m', r), m', later) ==> ListFits(later, r) && ListAt(later, r) == ListAt(m, l)
  {
    var refs := ListRefs(m', r);
    AscendApart(refs, |m|, |m'|);
    if Within(refs, m', later) {
      WithinAgrees(m, m', later, refs, ListRefs(m, l));
      ListKept(m, later, l);
    }
    if Spares(refs, m', later) {
      SparesAgrees(m', later, refs);
      ListKept(m', later, r);
    }
  }

  lemma WithinAgrees(m: Blocks, m': Blocks, later: Blocks, refs: seq<Pointer>, other: seq<Pointer>)
    requires m <= m' && Ascend(refs, |m|, |m'|) && Within(refs, m', later)
    ensures Agree(m, later, other)
  {
    AscendApart(refs, |m|, |m'|);
    forall a | 0 <= a < |m|
      ensures a < |later| && later[a] == m[a]
    {
      assert Some(a) !in refs;
    }
  }

  lemma SparesAgrees(m: Blocks, later: Blocks, refs: seq<Pointer>)
    requires Spares(refs, m, later)
    ensures Agree(m, later, refs)
  {
    forall i | 0 <= i < |refs| && refs[i].Some? && refs[i].value < |m|
      ensures refs[i].value < |later| && later[refs[i].value] == m[refs[i].value]
    {
      assert refs[i] == Some(refs[i].value) && refs[i] in refs;
    }
  }

  // ---------- Sequences of writes ----------

  datatype Write = Put(at: nat, block: Block) | New(block: Block)

  function After(m: Blocks, ws: seq<Write>): Blocks
    decreases |ws|
  {
    if ws == [] then m
    else
      match ws[0]
      case Put(at, b) => After(if at < |m| then m[at := b] else m, ws[1..])
      case New(b) => After(m + [b], ws[1..])
  }

  /** Every block written is one that the references reach, or one allocated since. */
  predicate Through(refs: seq<Pointer>, m: Blocks, ws: seq<Write>) {
    forall i :: 0 <= i < |ws| && ws[i].Put? ==> Some(ws[i].at) in refs || ws[i].at >= |m|
  }

  /** No block written is one that the references reach. */
  predicate Past(refs: seq<Pointer>, ws: seq<Write>) {
    forall i :: 0 <= i < |ws| && ws[i].Put? ==> Some(ws[i].at) !in refs
  }

  lemma {:induction false} Untouched(m: Blocks, ws: seq<Write>, a: nat)
    requires a < |m| && forall i :: 0 <= i < |ws| && ws[i].Put? ==> ws[i].at != a
    ensures a < |After(m, ws)| && After(m, ws)[a] == m[a]
    decreases |ws|
  {
    if ws != [] {
      match ws[0]
      case Put(at, b) => Untouched(if at < |m| then m[at := b] else m, ws[1..], a);
      case New(b) => Untouched(m + [b], ws[1..], a);
    }
  }

  /** No run of writes through the copy, of any length, reaches the original, and none elsewhere the copy. */
  lemma WritesStayApart(m: Blocks, l: List, m': Blocks, r: List, ws: seq<Write>)
    requires IsCopy(m, l, m', r)
    ensures Through(ListRefs(m', r), m', ws) ==>
              ListFits(After(m', ws), l) && ListAt(After(m', ws), l) == ListAt(m, l)
    ensures Past(ListRefs(m', r), ws) ==>
              ListFits(After(m', ws), r) && ListAt(After(m', ws), r) == ListAt(m, l)
  {
    var refs := ListRefs(m', r);
    var later := After(m', ws);
    if Through(refs, m', ws) {
      forall a | 0 <= a < |m'| && Some(a) !in refs
        ensures a < |later| && later[a] == m'[a]
      {
        Untouched(m', ws, a);
      }
    }
    if Past(refs, ws) {
      forall a | 0 <= a < |m'| && Some(a) in refs
        ensures a < |later| && later[a] == m'[a]
      {
        Untouched(m', ws, a);
      }
    }
    CopyIsApart(m, l, m', r, later);
  }

  // ---------- Field by field ----------

  predicate SameObject(m: Blocks, x: Item, m': Blocks, r: Item)
    requires ObjectFits(m, x) && ObjectFits(m', r)
  {
    && x.AnImage? == r.AnImage?
    && (x.AnImage? ==> SameImage(m, x.image, m', r.image))
    && (x.AClass? ==> SameClass(m, x.class_, m', r.class_))
  }

  lemma ObjectMeans(m: Blocks, x: Item, m': Blocks, r: Item)
    requires ObjectFits(m, x) && ObjectFits(m', r)
    ensures ObjectAt(m', r) == ObjectAt(m, x) <==> SameObject(m, x, m', r)
  {
    if x.AnImage? && r.AnImage? {
      ImageMeans(m, x.image, m', r.image);
    } else if x.AClass? && r.AClass? {
      ClassMeans(m, x.class_, m', r.class_);
    }
  }

  predicate NewObject(n: nat, x: Item) {
    match x
    case AnImage(i) => NewImage(n, i)
    case AClass(c) => NewClass(n, c)
  }

  lemma {:induction false} RefsInside(xs: seq<Item>, i: nat)
    requires i < |xs|
    ensures forall p :: p in Refs(xs[i]) ==> p in AllRefs(xs)
    decreases |xs|
  {
    if i < |xs| - 1 {
      RefsInside(xs[..|xs| - 1], i);
    }
  }

  predicate AllNew(n: nat, refs: seq<Pointer>) {
    forall p :: p in refs ==> IsNew(n, p)
  }

  lemma AscendIsNew(refs: seq<Pointer>, n: nat, hi: nat)
    requires Ascend(refs, n, hi)
    ensures AllNew(n, refs)
  {
    AscendApart(refs, n, hi);
  }

  lemma ObjectIsNew(n: nat, x: Item)
    requires AllNew(n, Refs(x))
    ensures NewObject(n, x)
  {
    match x
    case AnImage(i) => ImageIsNew(n, i);
    case AClass(c) => ClassIsNew(n, c);
  }

  /** One element of a list and the one copied from it. */
  predicate IsElementCopy(n: nat, m: Blocks, x: Item, m': Blocks, y: Item) {
    ObjectFits(m, x) && ObjectFits(m', y) && SameObject(m, x, m', y) && NewObject(n, y)
  }

  lemma ElementFieldwise(n: nat, m: Blocks, xs: seq<Item>, m': Blocks, ys: seq<Item>, i: nat)
    requires AllFit(m, xs) && AllFit(m', ys) && AllAt(m', ys) == AllAt(m, xs) && i < |xs| == |ys|
    requires AllNew(n, AllRefs(ys))
    ensures IsElementCopy(n, m, xs[i], m', ys[i])
  {
    AllAtEach(m, xs, i);
    AllAtEach(m', ys, i);
    ObjectMeans(m, xs[i], m', ys[i]);
    RefsInside(ys, i);
    ObjectIsNew(n, ys[i]);
  }

  lemma RefsParts(m: Blocks, r: List, n: nat)
    requires Fits(m, r.items, OfObjects) && AllNew(n, ListRefs(m, r))
    ensures IsNew(n, r.meta.remaining) && NewSlice(n, r.items) && AllNew(n, AllRefs(Items(m, r.items)))
  {
    var refs := ListRefs(m, r);
    assert refs[0] in refs && refs[1] in refs;
  }

  predicate AreElementCopies(n: nat, m: Blocks, xs: seq<Item>, m': Blocks, ys: seq<Item>) {
    |ys| == |xs| && forall i :: 0 <= i < |xs| ==> IsElementCopy(n, m, xs[i], m', ys[i])
  }

  lemma ElementsFieldwise(n: nat, m: Blocks, xs: seq<Item>, m': Blocks, ys: seq<Item>)
    requires AllFit(m, xs) && AllFit(m', ys) && AllAt(m', ys) == AllAt(m, xs) && AllNew(n, AllRefs(ys))
    ensures AreElementCopies(n, m, xs, m', ys)
  {
    AllAtLength(m, xs);
    AllAtLength(m', ys);
    forall i | 0 <= i < |xs|
      ensures IsElementCopy(n, m, xs[i], m', ys[i])
    {
      ElementFieldwise(n, m, xs, m', ys, i);
    }
  }

  /** The windows of two slices, nil being a window of nothing. */
  predicate AreItemCopies(n: nat, m: Blocks, s: Slice, m': Blocks, t: Slice)
    requires Fits(m, s, OfObjects) && Fits(m', t, OfObjects)
  {
    && s.Slice? == t.Slice?
    && (s.Slice? ==>
          && NewSlice(n, t)
          && AreElementCopies(n, m, m[s.at].objects[s.off..s.off + s.len],
                              m', m'[t.at].objects[t.off..t.off + t.len]))
  }

  lemma ItemsFieldwise(n: nat, m: Blocks, s: Slice, m': Blocks, t: Slice)
    requires Fits(m, s, OfObjects) && Fits(m', t, OfObjects)
    requires s.Slice? == t.Slice? && NewSlice(n, t)
    requires AreElementCopies(n, m, Items(m, s), m', Items(m', t))
    ensures AreItemCopies(n, m, s, m', t)
  {
  }

  /** What it is for two lists to mean the same. */
  lemma SameMeaning(m: Blocks, l: List, m': Blocks, r: List)
    requires ListFits(m, l) && ListFits(m', r) && ListAt(m', r) == ListAt(m, l)
    ensures r.meta.resourceVersion == l.meta.resourceVersion
    ensures SameTarget(m, l.meta.remaining, m', r.meta.remaining)
    ensures r.items.Slice? == l.items.Slice?
    ensures AllAt(m', Items(m', r.items)) == AllAt(m, Items(m, l.items))
  {
  }

  /** Element by element and field by field: the copy holds what the list holds, in its own memory. */
  lemma CopyFieldwise(m: Blocks, l: List, m': Blocks, r: List)
    requires IsCopy(m, l, m', r)
    ensures r.meta.resourceVersion == l.meta.resourceVersion
    ensures SameTarget(m, l.meta.remaining, m', r.meta.remaining) && IsNew(|m|, r.meta.remaining)
    ensures AreItemCopies(|m|, m, l.items, m', r.items)
  {
    AscendIsNew(ListRefs(m', r), |m|, |m'|);
    RefsParts(m', r, |m|);
    SameMeaning(m, l, m', r);
    ElementsFieldwise(|m|, m, Items(m, l.items), m', Items(m', r.items));
    ItemsFieldwise(|m|, m, l.items, m', r.items);
  }
}
