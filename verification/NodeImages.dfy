/** Go strings are byte sequences.  A byte is written as the char with the same number. */
module GoStrings {
  predicate IsBytes(s: string) {
    forall i :: 0 <= i < |s| ==> s[i] as int < 256
  }

  type GoString = s: string | IsBytes(s) witness ""
}

/** The API types of api/v1alpha1 and the parts of batch/v1 Jobs that the controller reads. */
module NodeImages {
  import opened Options
  import opened GoStrings

  type int32 = x: int | -0x8000_0000 <= x < 0x8000_0000

  // ---------- PVENodeImage ----------

  datatype BaseImage = BaseImage(url: GoString, checksum: GoString, isoFile: GoString)

  datatype Distribution = Distribution(family: GoString, version: GoString)

  datatype BuildConfig = BuildConfig(
    node: GoString, storagePool: GoString, isoStoragePool: GoString, bridge: GoString)

  /** `interval` is a duration in nanoseconds. */
  datatype RebuildPolicy = RebuildPolicy(trigger: GoString, interval: Option<int>)

  /** A nil list is `None`; an empty list that is not nil is `Some([])`. */
  datatype Spec = Spec(
    baseImage: BaseImage,
    distribution: Distribution,
    packages: Option<seq<GoString>>,
    sshAuthorizedKeys: Option<seq<GoString>>,
    timezone: GoString,
    buildConfig: BuildConfig,
    rebuildPolicy: RebuildPolicy)

  datatype ConditionStatus = IsTrue | IsFalse | IsUnknown

  datatype Condition = Condition(
    kind: string,
    status: ConditionStatus,
    reason: string,
    message: string,
    observedGeneration: int,
    lastTransition: nat)

  /** Times are whole seconds, the precision that survives the API server. */
  datatype Status = Status(
    conditions: seq<Condition>,
    templateVMID: Option<int32>,
    templateNode: string,
    observedSpecHash: string,
    lastBuildTime: Option<nat>)

  const EmptyStatus := Status([], None, "", "", None)

  datatype Image = Image(
    uid: nat,
    generation: nat,
    resourceVersion: nat,
    deleting: bool,
    spec: Spec,
    status: Status)

  // ---------- Jobs ----------

  datatype OwnerRef = OwnerRef(kind: string, name: string, uid: nat, controller: bool)

  datatype JobCondition = JobCondition(kind: string, status: ConditionStatus)

  datatype Job = Job(
    labels: map<string, string>,
    owners: seq<OwnerRef>,
    conditions: seq<JobCondition>)

  datatype JobKey = JobKey(namespace: string, name: string)
}
