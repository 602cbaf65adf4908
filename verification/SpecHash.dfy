/** hashSpec, pkrvarsFromImage, and what the first says about the second. */
module SpecHash {
  import opened Options
  import opened GoStrings
  import opened NodeImages
  import opened Utf8
  import opened Quoting
  import opened Pkrvars

  // ---------- Marshalling ----------

  /** The names of the fields, as in the json tags of the types. */
  datatype Name =
    | BaseImageName | UrlName | ChecksumName | IsoFileName
    | DistributionName | TypeName | VersionName
    | PackagesName | SshAuthorizedKeysName | TimezoneName
    | BuildConfigName | NodeName | StoragePoolName | IsoStoragePoolName | BridgeName
    | RebuildPolicyName | TriggerName | IntervalName

  /** The tree that is marshalled.  A duration is a leaf. */
  datatype Json = Str(s: GoString) | Nanos(n: int) | Arr(items: seq<Json>) | Obj(fields: map<Name, Json>)

  const REPLACEMENT: GoString := "\U{00EF}\U{00BF}\U{00BD}"

  /** JSON strings hold Unicode: every byte that starts no rune becomes U+FFFD. */
  function Coerce(s: GoString): GoString
    decreases |s|
  {
    if s == "" then ""
    else (if Head(s).BadByte? then REPLACEMENT else s[..Head(s).Size()]) + Coerce(Rest(s))
  }

  /** Coercion goes unit by unit, and gives U+FFFD in UTF-8 for a byte that starts no rune. */
  lemma CoerceMeans(s: GoString)
    requires s != ""
    ensures Head(s).BadByte? ==> Coerce(s) == "\U{00EF}\U{00BF}\U{00BD}" + Coerce(s[1..])
    ensures Head(s).Rune? ==> Coerce(s) == s[..Head(s).size] + Coerce(s[Head(s).size..])
  {
  }

  function CoerceAll(l: seq<GoString>): (r: seq<GoString>)
    ensures |r| == |l| && forall i :: 0 <= i < |l| ==> r[i] == Coerce(l[i])
  {
    if l == [] then [] else [Coerce(l[0])] + CoerceAll(l[1..])
  }

  function CoerceSpec(spec: Spec): Spec {
    Spec(
      BaseImage(Coerce(spec.baseImage.url), Coerce(spec.baseImage.checksum), Coerce(spec.baseImage.isoFile)),
      Distribution(Coerce(spec.distribution.family), Coerce(spec.distribution.version)),
      if spec.packages.Some? then Some(CoerceAll(spec.packages.value)) else None,
      if spec.sshAuthorizedKeys.Some? then Some(CoerceAll(spec.sshAuthorizedKeys.value)) else None,
      Coerce(spec.timezone),
      BuildConfig(Coerce(spec.buildConfig.node), Coerce(spec.buildConfig.storagePool),
                  Coerce(spec.buildConfig.isoStoragePool), Coerce(spec.buildConfig.bridge)),
      RebuildPolicy(Coerce(spec.rebuildPolicy.trigger), spec.rebuildPolicy.interval))
  }

  type Object = map<Name, Json>

  /** A required string. */
  function Put(m: Object, key: Name, s: GoString): Object {
    m[key := Str(Coerce(s))]
  }

  /** A string that is left out when it is empty. */
  function PutUnlessEmpty(m: Object, key: Name, s: GoString): Object {
    if s == "" then m else Put(m, key, s)
  }

  function Strings(l: seq<GoString>): (r: seq<Json>)
    ensures |r| == |l| && forall i :: 0 <= i < |l| ==> r[i] == Str(Coerce(l[i]))
  {
    if l == [] then [] else [Str(Coerce(l[0]))] + Strings(l[1..])
  }

  /** A list that is left out when it is nil, though not when it is empty. */
  function PutUnlessNil(m: Object, key: Name, l: Option<seq<GoString>>): Object {
    if l.None? then m else m[key := Arr(Strings(l.value))]
  }

  function MarshalPolicy(p: RebuildPolicy): Object {
    var m := PutUnlessEmpty(map[], TriggerName, p.trigger);
    if p.interval.None? then m else m[IntervalName := Nanos(p.interval.value)]
  }

  function MarshalBase(b: BaseImage): Object {
    var m := PutUnlessEmpty(PutUnlessEmpty(map[], UrlName, b.url), ChecksumName, b.checksum);
    PutUnlessEmpty(m, IsoFileName, b.isoFile)
  }

  function MarshalDistribution(d: Distribution): Object {
    Put(Put(map[], TypeName, d.family), VersionName, d.version)
  }

  function MarshalBuild(b: BuildConfig): Object {
    Put(PutUnlessEmpty(Put(Put(map[], NodeName, b.node), StoragePoolName, b.storagePool),
                       IsoStoragePoolName, b.isoStoragePool), BridgeName, b.bridge)
  }

  /** The whole from its parts; `policy` is left out if there is none. */
  function Assemble(
    base: Object, dist: Object, build: Object, packages: Option<seq<GoString>>, keys: Option<seq<GoString>>,
    timezone: GoString, policy: Option<Object>): Object
  {
    var required := map[BaseImageName := Obj(base), DistributionName := Obj(dist), BuildConfigName := Obj(build)];
    var lists := PutUnlessNil(PutUnlessNil(required, PackagesName, packages), SshAuthorizedKeysName, keys);
    var m := PutUnlessEmpty(lists, TimezoneName, timezone);
    if policy.None? then m else m[RebuildPolicyName := Obj(policy.value)]
  }

  /** The rebuild policy is left out when it is zero. */
  function OptionalPolicy(p: RebuildPolicy): Option<Object> {
    if p == RebuildPolicy("", None) then None else Some(MarshalPolicy(p))
  }

  function Marshal(spec: Spec): Json {
    Obj(Assemble(MarshalBase(spec.baseImage), MarshalDistribution(spec.distribution), MarshalBuild(spec.buildConfig),
                 spec.packages, spec.sshAuthorizedKeys, spec.timezone, OptionalPolicy(spec.rebuildPolicy)))
  }

  // ---------- Which fields are written ----------

  /** A field of the tree: it is there exactly if it is wanted, and then holds the coerced string. */
  predicate Holds(m: Object, key: Name, wanted: bool, s: GoString) {
    (key in m <==> wanted) && (wanted ==> m[key] == Str(Coerce(s)))
  }

  /** The same for a list. */
  predicate HoldsList(m: Object, key: Name, l: Option<seq<GoString>>) {
    && (key in m <==> l.Some?)
    && (l.Some? ==>
          && m[key].Arr? && |m[key].items| == |l.value|
          && forall i :: 0 <= i < |l.value| ==> m[key].items[i] == Str(Coerce(l.value[i])))
  }

  predicate HasObject(m: Object, key: Name) {
    key in m && m[key].Obj?
  }

  lemma BaseFields(b: BaseImage)
    ensures var m := MarshalBase(b);
            && m.Keys <= {UrlName, ChecksumName, IsoFileName}
            && Holds(m, UrlName, b.url != "", b.url) && Holds(m, ChecksumName, b.checksum != "", b.checksum)
            && Holds(m, IsoFileName, b.isoFile != "", b.isoFile)
  {
  }

  lemma DistributionFields(d: Distribution)
    ensures var m := MarshalDistribution(d);
            && m.Keys == {TypeName, VersionName}
            && Holds(m, TypeName, true, d.family) && Holds(m, VersionName, true, d.version)
  {
  }

  lemma BuildFields(b: BuildConfig)
    ensures var m := MarshalBuild(b);
            && m.Keys <= {NodeName, StoragePoolName, IsoStoragePoolName, BridgeName}
            && Holds(m, NodeName, true, b.node) && Holds(m, StoragePoolName, true, b.storagePool)
            && Holds(m, IsoStoragePoolName, b.isoStoragePool != "", b.isoStoragePool)
            && Holds(m, BridgeName, true, b.bridge)
  {
  }

  lemma PolicyFields(p: RebuildPolicy)
    ensures var m := MarshalPolicy(p);
            && m.Keys <= {TriggerName, IntervalName}
            && Holds(m, TriggerName, p.trigger != "", p.trigger)
            && (IntervalName in m <==> p.interval.Some?)
            && (p.interval.Some? ==> m[IntervalName] == Nanos(p.interval.value))
  {
  }

  lemma TopObjects(
    base: Object, dist: Object, build: Object, packages: Option<seq<GoString>>, keys: Option<seq<GoString>>,
    timezone: GoString, policy: Option<Object>)
    ensures var m := Assemble(base, dist, build, packages, keys, timezone, policy);
            && HasObject(m, BaseImageName) && m[BaseImageName].fields == base
            && HasObject(m, DistributionName) && m[DistributionName].fields == dist
  {
  }

  lemma TopPolicy(
    base: Object, dist: Object, build: Object, packages: Option<seq<GoString>>, keys: Option<seq<GoString>>,
    timezone: GoString, policy: Option<Object>)
    ensures var m := Assemble(base, dist, build, packages, keys, timezone, policy);
            && HasObject(m, BuildConfigName) && m[BuildConfigName].fields == build
            && (RebuildPolicyName in m <==> policy.Some?)
            && (policy.Some? ==> m[RebuildPolicyName] == Obj(policy.value))
  {
  }

  lemma TopFields(
    base: Object, dist: Object, build: Object, packages: Option<seq<GoString>>, keys: Option<seq<GoString>>,
    timezone: GoString, policy: Option<Object>)
    ensures var m := Assemble(base, dist, build, packages, keys, timezone, policy);
            && m.Keys <= {BaseImageName, DistributionName, BuildConfigName, PackagesName, SshAuthorizedKeysName,
                          TimezoneName, RebuildPolicyName}
            && HoldsList(m, PackagesName, packages) && HoldsList(m, SshAuthorizedKeysName, keys)
            && Holds(m, TimezoneName, timezone != "", timezone)
  {
  }

  /** The tree's fields: a list is left out when it is nil, an optional string when it is empty, the
      interval when there is none and the policy when it is zero; all others are there. */
  lemma TreeMeans(spec: Spec)
    ensures var j := Marshal(spec);
            && j.Obj?
            && HasObject(j.fields, BaseImageName) && HasObject(j.fields, DistributionName)
            && HasObject(j.fields, BuildConfigName)
            && (RebuildPolicyName in j.fields <==>
                  spec.rebuildPolicy.trigger != "" || spec.rebuildPolicy.interval.Some?)
            && HoldsList(j.fields, PackagesName, spec.packages)
            && HoldsList(j.fields, SshAuthorizedKeysName, spec.sshAuthorizedKeys)
            && Holds(j.fields, TimezoneName, spec.timezone != "", spec.timezone)
    ensures var m := Marshal(spec).fields[BaseImageName].fields;
            && Holds(m, UrlName, spec.baseImage.url != "", spec.baseImage.url)
            && Holds(m, ChecksumName, spec.baseImage.checksum != "", spec.baseImage.checksum)
            && Holds(m, IsoFileName, spec.baseImage.isoFile != "", spec.baseImage.isoFile)
    ensures var m := Marshal(spec).fields[BuildConfigName].fields;
            Holds(m, IsoStoragePoolName, spec.buildConfig.isoStoragePool != "", spec.buildConfig.isoStoragePool)
  {
    var base, dist := MarshalBase(spec.baseImage), MarshalDistribution(spec.distribution);
    var build, policy := MarshalBuild(spec.buildConfig), OptionalPolicy(spec.rebuildPolicy);
    TopObjects(base, dist, build, spec.packages, spec.sshAuthorizedKeys, spec.timezone, policy);
    TopPolicy(base, dist, build, spec.packages, spec.sshAuthorizedKeys, spec.timezone, policy);
    TopFields(base, dist, build, spec.packages, spec.sshAuthorizedKeys, spec.timezone, policy);
    BaseFields(spec.baseImage);
    BuildFields(spec.buildConfig);
  }

  // ---------- Unmarshalling ----------

  function Text(j: Json): GoString {
    if j.Str? then j.s else ""
  }

  function Fields(j: Json): map<Name, Json> {
    if j.Obj? then j.fields else map[]
  }

  function GetText(m: map<Name, Json>, key: Name): GoString {
    if key in m then Text(m[key]) else ""
  }

  function GetFields(m: map<Name, Json>, key: Name): map<Name, Json> {
    if key in m then Fields(m[key]) else map[]
  }

  function Texts(l: seq<Json>): (r: seq<GoString>)
    ensures |r| == |l| && forall i :: 0 <= i < |l| ==> r[i] == Text(l[i])
  {
    if l == [] then [] else [Text(l[0])] + Texts(l[1..])
  }

  function GetTexts(m: map<Name, Json>, key: Name): Option<seq<GoString>> {
    if key in m && m[key].Arr? then Some(Texts(m[key].items)) else None
  }

  function GetNanos(m: map<Name, Json>, key: Name): Option<int> {
    if key in m && m[key].Nanos? then Some(m[key].n) else None
  }

  function Unmarshal(j: Json): Spec {
    var m := Fields(j);
    var base, dist := GetFields(m, BaseImageName), GetFields(m, DistributionName);
    var build, policy := GetFields(m, BuildConfigName), GetFields(m, RebuildPolicyName);
    Spec(
      BaseImage(GetText(base, UrlName), GetText(base, ChecksumName), GetText(base, IsoFileName)),
      Distribution(GetText(dist, TypeName), GetText(dist, VersionName)),
      GetTexts(m, PackagesName),
      GetTexts(m, SshAuthorizedKeysName),
      GetText(m, TimezoneName),
      BuildConfig(GetText(build, NodeName), GetText(build, StoragePoolName), GetText(build, IsoStoragePoolName),
                  GetText(build, BridgeName)),
      RebuildPolicy(GetText(policy, TriggerName), GetNanos(policy, IntervalName)))
  }

  // ---------- Nothing is lost but bad UTF-8 ----------

  lemma BaseReturns(b: BaseImage)
    ensures var m := MarshalBase(b);
            && GetText(m, UrlName) == Coerce(b.url) && GetText(m, ChecksumName) == Coerce(b.checksum)
            && GetText(m, IsoFileName) == Coerce(b.isoFile)
  {
  }

  lemma DistributionReturns(d: Distribution)
    ensures var m := MarshalDistribution(d);
            GetText(m, TypeName) == Coerce(d.family) && GetText(m, VersionName) == Coerce(d.version)
  {
  }

  lemma BuildReturns(b: BuildConfig)
    ensures var m := MarshalBuild(b);
            && GetText(m, NodeName) == Coerce(b.node) && GetText(m, StoragePoolName) == Coerce(b.storagePool)
            && GetText(m, IsoStoragePoolName) == Coerce(b.isoStoragePool) && GetText(m, BridgeName) == Coerce(b.bridge)
  {
  }

  lemma PolicyReturns(p: RebuildPolicy)
    ensures var m := MarshalPolicy(p);
            GetText(m, TriggerName) == Coerce(p.trigger) && GetNanos(m, IntervalName) == p.interval
  {
  }

  lemma TextsReturn(l: seq<GoString>)
    ensures Texts(Strings(l)) == CoerceAll(l)
  {
  }

  lemma AssembledObjects(
    base: Object, dist: Object, build: Object, packages: Option<seq<GoString>>, keys: Option<seq<GoString>>,
    timezone: GoString, policy: Option<Object>)
    ensures var m := Assemble(base, dist, build, packages, keys, timezone, policy);
            GetFields(m, BaseImageName) == base && GetFields(m, DistributionName) == dist
  {
    TopObjects(base, dist, build, packages, keys, timezone, policy);
  }

  lemma AssembledRest(
    base: Object, dist: Object, build: Object, packages: Option<seq<GoString>>, keys: Option<seq<GoString>>,
    timezone: GoString, policy: Option<Object>)
    ensures var m := Assemble(base, dist, build, packages, keys, timezone, policy);
            && GetFields(m, BuildConfigName) == build
            && GetFields(m, RebuildPolicyName) == if policy.Some? then policy.value else map[]
  {
    TopPolicy(base, dist, build, packages, keys, timezone, policy);
  }

  lemma AssembledTimezone(
    base: Object, dist: Object, build: Object, packages: Option<seq<GoString>>, keys: Option<seq<GoString>>,
    timezone: GoString, policy: Option<Object>)
    ensures GetText(Assemble(base, dist, build, packages, keys, timezone, policy), TimezoneName) == Coerce(timezone)
  {
  }

  lemma AssembledLists(
    base: Object, dist: Object, build: Object, packages: Option<seq<GoString>>, keys: Option<seq<GoString>>,
    timezone: GoString, policy: Option<Object>)
    ensures var m := Assemble(base, dist, build, packages, keys, timezone, policy);
            && GetTexts(m, PackagesName) == (if packages.Some? then Some(Texts(Strings(packages.value))) else None)
            && GetTexts(m, SshAuthorizedKeysName) == (if keys.Some? then Some(Texts(Strings(keys.value))) else None)
  {
  }

  lemma PolicyIsOptional(p: RebuildPolicy)
    ensures (if OptionalPolicy(p).Some? then OptionalPolicy(p).value else map[]) == MarshalPolicy(p)
  {
  }

  lemma ListReturns(l: Option<seq<GoString>>)
    ensures (if l.Some? then Some(Texts(Strings(l.value))) else None)
              == (if l.Some? then Some(CoerceAll(l.value)) else None)
  {
    if l.Some? {
      TextsReturn(l.value);
    }
  }

  /** Unmarshalling undoes marshalling, up to the replacement of bad bytes; omitted fields, nil lists
      and empty lists all come back as what they were. */
  lemma MarshalReturns(spec: Spec)
    ensures Unmarshal(Marshal(spec)) == CoerceSpec(spec)
  {
    var base, dist := MarshalBase(spec.baseImage), MarshalDistribution(spec.distribution);
    var build, policy := MarshalBuild(spec.buildConfig), OptionalPolicy(spec.rebuildPolicy);
    AssembledObjects(base, dist, build, spec.packages, spec.sshAuthorizedKeys, spec.timezone, policy);
    AssembledRest(base, dist, build, spec.packages, spec.sshAuthorizedKeys, spec.timezone, policy);
    AssembledTimezone(base, dist, build, spec.packages, spec.sshAuthorizedKeys, spec.timezone, policy);
    AssembledLists(base, dist, build, spec.packages, spec.sshAuthorizedKeys, spec.timezone, policy);
    PolicyIsOptional(spec.rebuildPolicy);
    ListReturns(spec.packages);
    ListReturns(spec.sshAuthorizedKeys);
    BaseReturns(spec.baseImage);
    DistributionReturns(spec.distribution);
    BuildReturns(spec.buildConfig);
    PolicyReturns(spec.rebuildPolicy);
  }

  // ---------- Coercion settles at once ----------

  /** The first unit depends on its own bytes only. */
  lemma HeadLocal(s: GoString, more: GoString)
    requires s != "" && Head(s).Rune?
    ensures Head(s[..Head(s).size] + more) == Head(s) && Rest(s[..Head(s).size] + more) == more
  {
    var u := s[..Head(s).size] + more;
    assert forall i :: 0 <= i < Head(s).size ==> u[i] == s[i];
  }

  lemma ReplacementIsRune(more: GoString)
    ensures Head(REPLACEMENT + more) == Rune(0xFFFD, 3) && Rest(REPLACEMENT + more) == more
  {
    var u := REPLACEMENT + more;
    assert u[0] as int == 0xEF && u[1] as int == 0xBF && u[2] as int == 0xBD;
    assert u[3..] == more;
  }

  lemma {:induction false} CoerceValid(s: GoString)
    ensures ValidUtf8(Coerce(s))
    decreases |s|
  {
    if s != "" {
      var more := Coerce(Rest(s));
      CoerceValid(Rest(s));
      if Head(s).BadByte? {
        ReplacementIsRune(more);
      } else {
        HeadLocal(s, more);
      }
    }
  }

  lemma {:induction false} ValidFixed(s: GoString)
    requires ValidUtf8(s)
    ensures Coerce(s) == s
    decreases |s|
  {
    if s != "" {
      ValidFixed(Rest(s));
      FirstKept(s);
    }
  }

  lemma FirstKept(s: GoString)
    requires s != "" && Head(s).Rune? && Coerce(Rest(s)) == Rest(s)
    ensures Coerce(s) == s
  {
    SplitAt(s, Head(s).Size());
  }

  lemma SplitAt(s: string, n: nat)
    requires n <= |s|
    ensures s[..n] + s[n..] == s
  {
  }

  /** Coercing once is enough, and leaves exactly the valid strings alone. */
  lemma CoerceSettles(s: GoString)
    ensures Coerce(Coerce(s)) == Coerce(s)
    ensures Coerce(s) == s <==> ValidUtf8(s)
    ensures Coerce(s) == "" <==> s == ""
  {
    CoerceValid(s);
    ValidFixed(Coerce(s));
    if ValidUtf8(s) {
      ValidFixed(s);
    }
  }

  lemma StringsSettle(l: seq<GoString>)
    ensures Strings(CoerceAll(l)) == Strings(l)
  {
    forall i | 0 <= i < |l|
      ensures Strings(CoerceAll(l))[i] == Strings(l)[i]
    {
      CoerceSettles(l[i]);
    }
  }

  lemma PutCoerced(m: Object, key: Name, s: GoString)
    ensures PutUnlessEmpty(m, key, Coerce(s)) == PutUnlessEmpty(m, key, s) && Put(m, key, Coerce(s)) == Put(m, key, s)
  {
    CoerceSettles(s);
  }

  lemma ListCoerced(m: Object, key: Name, l: Option<seq<GoString>>)
    ensures PutUnlessNil(m, key, if l.Some? then Some(CoerceAll(l.value)) else None) == PutUnlessNil(m, key, l)
  {
    if l.Some? {
      StringsSettle(l.value);
    }
  }

  lemma BaseCoerced(b: BaseImage)
    ensures MarshalBase(BaseImage(Coerce(b.url), Coerce(b.checksum), Coerce(b.isoFile))) == MarshalBase(b)
  {
    var m := PutUnlessEmpty(map[], UrlName, b.url);
    PutCoerced(map[], UrlName, b.url);
    PutCoerced(m, ChecksumName, b.checksum);
    PutCoerced(PutUnlessEmpty(m, ChecksumName, b.checksum), IsoFileName, b.isoFile);
  }

  lemma BuildCoerced(b: BuildConfig)
    ensures MarshalBuild(BuildConfig(Coerce(b.node), Coerce(b.storagePool), Coerce(b.isoStoragePool), Coerce(b.bridge)))
              == MarshalBuild(b)
  {
    CoerceSettles(b.node);
    CoerceSettles(b.storagePool);
    CoerceSettles(b.isoStoragePool);
    CoerceSettles(b.bridge);
  }

  lemma DistributionCoerced(d: Distribution)
    ensures MarshalDistribution(Distribution(Coerce(d.family), Coerce(d.version))) == MarshalDistribution(d)
  {
    CoerceSettles(d.family);
    CoerceSettles(d.version);
  }

  lemma PolicyCoerced(p: RebuildPolicy)
    ensures OptionalPolicy(RebuildPolicy(Coerce(p.trigger), p.interval)) == OptionalPolicy(p)
  {
    CoerceSettles(p.trigger);
  }

  lemma ListsCoerced(
    base: Object, dist: Object, build: Object, packages: Option<seq<GoString>>, keys: Option<seq<GoString>>,
    timezone: GoString, policy: Option<Object>)
    ensures Assemble(base, dist, build,
                     if packages.Some? then Some(CoerceAll(packages.value)) else None,
                     if keys.Some? then Some(CoerceAll(keys.value)) else None,
                     Coerce(timezone), policy)
              == Assemble(base, dist, build, packages, keys, timezone, policy)
  {
    var required := map[BaseImageName := Obj(base), DistributionName := Obj(dist), BuildConfigName := Obj(build)];
    ListCoerced(required, PackagesName, packages);
    var m := PutUnlessNil(required, PackagesName, packages);
    ListCoerced(m, SshAuthorizedKeysName, keys);
    PutCoerced(PutUnlessNil(m, SshAuthorizedKeysName, keys), TimezoneName, timezone);
  }

  /** Marshalling sees only the coerced spec. */
  lemma MarshalCoerced(spec: Spec)
    ensures Marshal(CoerceSpec(spec)) == Marshal(spec)
  {
    BaseCoerced(spec.baseImage);
    DistributionCoerced(spec.distribution);
    BuildCoerced(spec.buildConfig);
    PolicyCoerced(spec.rebuildPolicy);
    ListsCoerced(MarshalBase(spec.baseImage), MarshalDistribution(spec.distribution), MarshalBuild(spec.buildConfig),
                 spec.packages, spec.sshAuthorizedKeys, spec.timezone, OptionalPolicy(spec.rebuildPolicy));
  }

  // ---------- The hash ----------

  /** The text that YAML makes of the marshalled tree, and the digest of that text. */
  datatype Hashing = Hashing(text: Json -> string, sum: string -> string)

  ghost predicate CollisionFree(h: Hashing) {
    forall a, b :: h.sum(a) == h.sum(b) ==> a == b
  }

  /** No two trees have the same text. */
  ghost predicate Faithful(h: Hashing) {
    forall x, y :: h.text(x) == h.text(y) ==> x == y
  }

  function HashSpec(h: Hashing, spec: Spec): string {
    h.sum(h.text(Marshal(spec)))
  }

  /** Two specs have the same hash exactly when their trees have the same text; if that tells trees
      apart, exactly when the specs differ in bad UTF-8 at most. */
  lemma HashTells(h: Hashing, a: Spec, b: Spec)
    requires CollisionFree(h)
    ensures HashSpec(h, a) == HashSpec(h, b) <==> h.text(Marshal(a)) == h.text(Marshal(b))
    ensures Faithful(h) ==> (HashSpec(h, a) == HashSpec(h, b) <==> CoerceSpec(a) == CoerceSpec(b))
  {
    MarshalTells(a, b);
  }

  /** The trees of two specs are the same exactly when the specs differ in bad UTF-8 at most. */
  lemma MarshalTells(a: Spec, b: Spec)
    ensures Marshal(a) == Marshal(b) <==> CoerceSpec(a) == CoerceSpec(b)
  {
    MarshalReturns(a);
    MarshalReturns(b);
    MarshalCoerced(a);
    MarshalCoerced(b);
  }

  predicate AllValid(l: Option<seq<GoString>>) {
    l.Some? ==> forall i :: 0 <= i < |l.value| ==> ValidUtf8(l.value[i])
  }

  predicate ValidSpec(spec: Spec) {
    && ValidUtf8(spec.baseImage.url) && ValidUtf8(spec.baseImage.checksum) && ValidUtf8(spec.baseImage.isoFile)
    && ValidUtf8(spec.distribution.family) && ValidUtf8(spec.distribution.version)
    && AllValid(spec.packages) && AllValid(spec.sshAuthorizedKeys)
    && ValidUtf8(spec.timezone)
    && ValidUtf8(spec.buildConfig.node) && ValidUtf8(spec.buildConfig.storagePool)
    && ValidUtf8(spec.buildConfig.isoStoragePool) && ValidUtf8(spec.buildConfig.bridge)
    && ValidUtf8(spec.rebuildPolicy.trigger)
  }

  lemma ValidListStays(l: seq<GoString>)
    requires AllValid(Some(l))
    ensures CoerceAll(l) == l
  {
    forall i | 0 <= i < |l|
      ensures CoerceAll(l)[i] == l[i]
    {
      CoerceSettles(l[i]);
    }
  }

  lemma ValidStays(spec: Spec)
    requires ValidSpec(spec)
    ensures CoerceSpec(spec) == spec
  {
    CoerceSettles(spec.baseImage.url);
    CoerceSettles(spec.baseImage.checksum);
    CoerceSettles(spec.baseImage.isoFile);
    CoerceSettles(spec.distribution.family);
    CoerceSettles(spec.distribution.version);
    CoerceSettles(spec.timezone);
    CoerceSettles(spec.buildConfig.node);
    CoerceSettles(spec.buildConfig.storagePool);
    CoerceSettles(spec.buildConfig.isoStoragePool);
    CoerceSettles(spec.buildConfig.bridge);
    CoerceSettles(spec.rebuildPolicy.trigger);
    if spec.packages.Some? {
      ValidListStays(spec.packages.value);
    }
    if spec.sshAuthorizedKeys.Some? {
      ValidListStays(spec.sshAuthorizedKeys.value);
    }
  }

  // ---------- The build input ----------

  const DESCRIPTION: GoString := "Built by karpenter-" + ("provider-pve for " + "PVENodeImage/")

  /** pkrvarsFromImage: nothing for a time zone that does not load. */
  function FromImage(zones: GoString -> bool, name: GoString, spec: Spec, vmid: int32, templateName: GoString)
    : Option<Input>
  {
    var build := spec.buildConfig;
    if !zones(spec.timezone) then None
    else Some(Input(
      build.node,
      build.storagePool,
      if build.isoStoragePool == "" then build.storagePool else build.isoStoragePool,
      build.bridge,
      vmid,
      templateName,
      DESCRIPTION + name,
      spec.distribution.family,
      spec.distribution.version,
      spec.timezone,
      spec.packages,
      spec.sshAuthorizedKeys,
      spec.baseImage.url,
      spec.baseImage.checksum,
      spec.baseImage.isoFile))
  }

  /** The text of the variables file for a spec, if there is one. */
  function FileFor(
    t: PrintTable, zones: GoString -> bool, name: GoString, spec: Spec, vmid: int32, templateName: GoString)
    : Option<string>
  {
    var x := FromImage(zones, name, spec, vmid, templateName);
    if x.None? then None else Some(Render(t, x.value))
  }

  lemma DescriptionMeans()
    ensures DESCRIPTION == "Built by karpenter-provider-pve for PVENodeImage/"
  {
  }

  /** What the variables file of a spec says, for a reader of Go strings: nothing exactly if the time
      zone does not load, and else these fifteen assignments. */
  lemma FileSays(
    t: PrintTable, zones: GoString -> bool, name: GoString, spec: Spec, vmid: int32, templateName: GoString)
    ensures FileFor(t, zones, name, spec, vmid, templateName).Some? <==> zones(spec.timezone)
    ensures zones(spec.timezone) ==>
              var build, base := spec.buildConfig, spec.baseImage;
              ReadFile(GoLiteral, FileFor(t, zones, name, spec, vmid, templateName).value) == Some(
                [ Binding("proxmox_node", TextRead(build.node)),
                  Binding("storage_pool", TextRead(build.storagePool)),
                  Binding("iso_storage_pool",
                          TextRead(if build.isoStoragePool != "" then build.isoStoragePool else build.storagePool)),
                  Binding("network_bridge", TextRead(build.bridge)),
                  Binding("vm_id", NumberRead(vmid as int)) ] +
                [ Binding("template_name", TextRead(templateName)),
                  Binding("template_description",
                          TextRead("Built by karpenter-provider-pve for PVENodeImage/" + name)),
                  Binding("distribution_type", TextRead(spec.distribution.family)),
                  Binding("distribution_version", TextRead(spec.distribution.version)),
                  Binding("timezone", TextRead(spec.timezone)) ] +
                [ Binding("extra_packages", TextsRead(if spec.packages.Some? then spec.packages.value else [])),
                  Binding("ssh_authorized_keys",
                          TextsRead(if spec.sshAuthorizedKeys.Some? then spec.sshAuthorizedKeys.value else [])),
                  Binding("iso_url", TextRead(base.url)),
                  Binding("iso_checksum", TextRead(base.checksum)),
                  Binding("iso_file", TextRead(base.isoFile)) ])
  {
    if zones(spec.timezone) {
      var x := FromImage(zones, name, spec, vmid, templateName).value;
      RoundTrip(GoLiteral, t, x);
      MeantAppend(Placement(x) + Identity(x), Content(x));
      MeantAppend(Placement(x), Identity(x));
      PlacementMeans(x);
      IdentityMeans(x);
      DescriptionMeans();
      ContentMeans(x);
    }
  }

  /** The part of a spec that the build sees. */
  function BuildView(spec: Spec): Spec {
    var build := spec.buildConfig;
    var pool := if build.isoStoragePool == "" then build.storagePool else build.isoStoragePool;
    spec.(buildConfig := build.(isoStoragePool := pool),
          packages := Some(Items(spec.packages)),
          sshAuthorizedKeys := Some(Items(spec.sshAuthorizedKeys)),
          rebuildPolicy := RebuildPolicy("", None))
  }

  /** The files of two specs are equal exactly when their builds see the same, the pool default
      applied and nil lists taken as empty, or when there is no file for either. */
  lemma FileTells(
    t: PrintTable, zones: GoString -> bool, name: GoString, a: Spec, b: Spec, vmid: int32, templateName: GoString)
    ensures BuildView(a) == BuildView(b) || (!zones(a.timezone) && !zones(b.timezone)) <==>
            FileFor(t, zones, name, a, vmid, templateName) == FileFor(t, zones, name, b, vmid, templateName)
  {
    assert BuildView(a).timezone == a.timezone && BuildView(b).timezone == b.timezone;
    if zones(a.timezone) && zones(b.timezone) {
      var x := FromImage(zones, name, a, vmid, templateName).value;
      var y := FromImage(zones, name, b, vmid, templateName).value;
      RenderInjective(t, x, y);
      assert Normal(x) == Normal(y) <==> BuildView(a) == BuildView(b);
    }
  }

  // ---------- Main results ----------

  /** No silent miss.  If the text tells trees apart, specs of valid UTF-8 have the same hash only if they
      are the same spec, so any change of the variables file, or of whether there is one, changes the
      hash. */
  lemma NoSilentMiss(
    h: Hashing, t: PrintTable, zones: GoString -> bool, name: GoString, a: Spec, b: Spec, vmid: int32,
    templateName: GoString)
    requires CollisionFree(h) && Faithful(h) && ValidSpec(a) && ValidSpec(b)
    ensures HashSpec(h, a) == HashSpec(h, b) <==> a == b
    ensures FileFor(t, zones, name, a, vmid, templateName) != FileFor(t, zones, name, b, vmid, templateName) ==>
              HashSpec(h, a) != HashSpec(h, b)
  {
    HashTells(h, a, b);
    ValidStays(a);
    ValidStays(b);
  }

  /** Decoding JSON coerces every string, so a spec that the controller reads from the API server holds
      valid UTF-8 only; and coercing such a spec again changes nothing. */
  lemma DecodedIsValid(spec: Spec)
    ensures ValidSpec(CoerceSpec(spec))
    ensures ValidSpec(spec) ==> CoerceSpec(spec) == spec
  {
    CoerceIsValid(spec.baseImage.url);
    CoerceIsValid(spec.baseImage.checksum);
    CoerceIsValid(spec.baseImage.isoFile);
    CoerceIsValid(spec.distribution.family);
    CoerceIsValid(spec.distribution.version);
    CoerceIsValid(spec.timezone);
    CoerceIsValid(spec.buildConfig.node);
    CoerceIsValid(spec.buildConfig.storagePool);
    CoerceIsValid(spec.buildConfig.isoStoragePool);
    CoerceIsValid(spec.buildConfig.bridge);
    CoerceIsValid(spec.rebuildPolicy.trigger);
    ListIsValid(spec.packages);
    ListIsValid(spec.sshAuthorizedKeys);
    if ValidSpec(spec) {
      ValidStays(spec);
    }
  }

  lemma CoerceIsValid(s: GoString)
    ensures ValidUtf8(Coerce(s))
  {
    CoerceSettles(s);
    CoerceSettles(Coerce(s));
  }

  lemma ListIsValid(l: Option<seq<GoString>>)
    ensures l.Some? ==> AllValid(Some(CoerceAll(l.value)))
  {
    if l.Some? {
      forall i | 0 <= i < |l.value|
        ensures ValidUtf8(CoerceAll(l.value)[i])
      {
        CoerceIsValid(l.value[i]);
      }
    }
  }

  /** Exactly when a change of the file, or of whether there is one, goes unnoticed: there is a file for
      one of the specs, and the builds see different specs whose trees have the same text.  If the text
      tells trees apart, these differ in bad UTF-8 only. */
  lemma SilentMissExactly(
    h: Hashing, t: PrintTable, zones: GoString -> bool, name: GoString, a: Spec, b: Spec, vmid: int32,
    templateName: GoString)
    requires CollisionFree(h)
    ensures (&& FileFor(t, zones, name, a, vmid, templateName) != FileFor(t, zones, name, b, vmid, templateName)
             && HashSpec(h, a) == HashSpec(h, b))
            <==> (&& (zones(a.timezone) || zones(b.timezone))
                  && BuildView(a) != BuildView(b) && h.text(Marshal(a)) == h.text(Marshal(b)))
    ensures Faithful(h) ==> (h.text(Marshal(a)) == h.text(Marshal(b)) <==> CoerceSpec(a) == CoerceSpec(b))
  {
    HashTells(h, a, b);
    FileTells(t, zones, name, a, b, vmid, templateName);
  }

  /** And it can, for specs built in Go code, whatever the text and the digest: two different bad bytes. */
  lemma BadBytesAreMissed(
    h: Hashing, t: PrintTable, zones: GoString -> bool, name: GoString, a: Spec, vmid: int32,
    templateName: GoString)
    requires zones(a.timezone)
    ensures var b := a.(buildConfig := a.buildConfig.(node := "\U{00FE}"));
            var c := a.(buildConfig := a.buildConfig.(node := "\U{00FF}"));
            && HashSpec(h, b) == HashSpec(h, c)
            && FileFor(t, zones, name, b, vmid, templateName) != FileFor(t, zones, name, c, vmid, templateName)
  {
    var b := a.(buildConfig := a.buildConfig.(node := "\U{00FE}"));
    var c := a.(buildConfig := a.buildConfig.(node := "\U{00FF}"));
    assert Head(b.buildConfig.node).BadByte? && Head(c.buildConfig.node).BadByte?;
    assert Rest(b.buildConfig.node) == "" && Rest(c.buildConfig.node) == "";
    assert BuildView(b).buildConfig.node != BuildView(c).buildConfig.node by {
      assert b.buildConfig.node[0] != c.buildConfig.node[0];
    }
    assert CoerceSpec(b) == CoerceSpec(c);
    MarshalTells(b, c);
    FileTells(t, zones, name, b, c, vmid, templateName);
  }

  /** The price of hashing the whole spec: exactly the changes that show in the text and that the build
      does not see, or that no file is made for, change the hash and not the file. */
  lemma NeedlessRebuildExactly(
    h: Hashing, t: PrintTable, zones: GoString -> bool, name: GoString, a: Spec, b: Spec, vmid: int32,
    templateName: GoString)
    requires CollisionFree(h)
    ensures (&& HashSpec(h, a) != HashSpec(h, b)
             && FileFor(t, zones, name, a, vmid, templateName) == FileFor(t, zones, name, b, vmid, templateName))
            <==> (&& h.text(Marshal(a)) != h.text(Marshal(b))
                  && (BuildView(a) == BuildView(b) || (!zones(a.timezone) && !zones(b.timezone))))
    ensures Faithful(h) ==> (h.text(Marshal(a)) == h.text(Marshal(b)) <==> CoerceSpec(a) == CoerceSpec(b))
  {
    HashTells(h, a, b);
    FileTells(t, zones, name, a, b, vmid, templateName);
  }
}
