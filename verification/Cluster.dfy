/** One PVENodeImage, its Jobs and its controller, as a state machine.

    The API server's history of the object and of the Jobs is kept from the version the informer
    cache has reached onwards: the first entry is what the controller reads, the last one is what is
    stored.  A reconcile pass is several steps (dequeue, read, list, write, return), and any step of
    the environment may come between them. */
module Clusters {
  import opened Options
  import opened NodeImages
  import opened Decisions

  const KIND := "PVENodeImage"
  const REQUEUE_INTERVAL := 30

  /** `hash` stands for hashSpec, `name` is the object's name, `namespace` the controller's namespace. */
  datatype Config = Config(hash: Spec -> string, name: string, namespace: string)

  /** How far the pass in flight has come.  `now` is the time its conditions will carry. */
  datatype Pass =
    | Idle
    | Started
    | Fetched(snap: Image, now: nat)
    | Listed(snap: Image, now: nat, job: Option<Job>)
    | Returning(requeue: Requeue)

  datatype Cluster = Cluster(
    images: seq<Option<Image>>,
    jobs: seq<map<JobKey, Job>>,
    clock: nat,
    nextVersion: nat,
    nextUid: nat,
    queued: bool,
    timer: Option<nat>,
    pass: Pass)

  predicate Shaped(s: Cluster) {
    |s.images| >= 1 && |s.jobs| >= 1
  }

  function Stored(s: Cluster): Option<Image>
    requires Shaped(s)
  {
    s.images[|s.images| - 1]
  }

  function Cached(s: Cluster): Option<Image>
    requires Shaped(s)
  {
    s.images[0]
  }

  function LatestJobs(s: Cluster): map<JobKey, Job>
    requires Shaped(s)
  {
    s.jobs[|s.jobs| - 1]
  }

  function CachedJobs(s: Cluster): map<JobKey, Job>
    requires Shaped(s)
  {
    s.jobs[0]
  }

  // ---------- Looking up the build Job ----------

  predicate HasLabel(job: Job, name: string, value: string) {
    name in job.labels && job.labels[name] == value
  }

  /** What List selects: the namespace and the two labels. */
  predicate Matches(g: Config, hash: string, key: JobKey, job: Job) {
    && key.namespace == g.namespace
    && HasLabel(job, LABEL_SPEC_HASH, hash)
    && HasLabel(job, LABEL_MANAGED_BY, g.name)
  }

  /** The Jobs findBuildJob may return for this object. */
  predicate Relevant(g: Config, im: Image, key: JobKey, job: Job) {
    Matches(g, g.hash(im.spec), key, job) && IsOwnedBy(job, im.uid)
  }

  /** `order` names every Job that matches, once each.  The informer cache promises no order. */
  predicate Enumerates(g: Config, hash: string, m: map<JobKey, Job>, order: seq<JobKey>) {
    && (forall i, j :: 0 <= i < j < |order| ==> order[i] != order[j])
    && (forall k :: k in order ==> k in m && Matches(g, hash, k, m[k]))
    && (forall k :: k in m && Matches(g, hash, k, m[k]) ==> k in order)
  }

  /** The first listed Job that the object owns. */
  function FindJob(m: map<JobKey, Job>, order: seq<JobKey>, uid: nat): Option<Job>
    requires forall k :: k in order ==> k in m
  {
    if order == [] then None
    else if IsOwnedBy(m[order[0]], uid) then Some(m[order[0]])
    else FindJob(m, order[1..], uid)
  }

  // ---------- Waking up ----------

  /** The owner handler sees controller owners only, and goes by kind and name. */
  predicate Notifies(g: Config, job: Job) {
    exists i :: 0 <= i < |job.owners| &&
      job.owners[i].controller && job.owners[i].kind == KIND && job.owners[i].name == g.name
  }

  /** A change of the Jobs enqueues the object if a changed Job notifies it before or after. */
  predicate Wakes(g: Config, before: map<JobKey, Job>, after: map<JobKey, Job>) {
    exists k :: k in before.Keys + after.Keys &&
      !(k in before && k in after && before[k] == after[k]) &&
      ((k in before && Notifies(g, before[k])) || (k in after && Notifies(g, after[k])))
  }

  // ---------- Steps ----------

  /** What can go wrong with a status write apart from a conflict. */
  datatype Fault = NoFault | LostRequest | LostReply

  datatype Action =
    // users, other controllers and the API server
    | Tick
    | Create(spec: Spec)
    | EditSpec(spec: Spec)
    | Touch
    | SetTemplate(vmid: Option<int32>, node: string)
    | MarkDeleted
    | Remove
    | PutJob(key: JobKey, job: Job)
    | DropJob(key: JobKey)
    // the watches, the requeue timer and a restart of the controller
    | DeliverImage
    | DeliverJobs
    | FireTimer
    | Restart
    // the pass
    | Dequeue
    | Read
    | List(order: seq<JobKey>)
    | Write(fault: Fault)
    | GiveUp
    | Return

  predicate IsController(a: Action) {
    a.Dequeue? || a.Read? || a.List? || a.Write? || a.GiveUp? || a.Return?
  }

  /** The decision of a pass that has read all it needs. */
  predicate Ready(g: Config, p: Pass) {
    p.Listed? || (p.Fetched? && IsCurrent(g.hash(p.snap.spec), p.snap.status))
  }

  function OutcomeOf(g: Config, p: Pass): Outcome
    requires Ready(g, p)
  {
    Decide(g.hash(p.snap.spec), p.snap, if p.Listed? then p.job else None, p.now)
  }

  predicate Enabled(g: Config, s: Cluster, a: Action)
    requires Shaped(s)
  {
    match a
    case Tick => true
    case Create(_) => Stored(s).None?
    case EditSpec(spec) => Stored(s).Some? && Stored(s).value.spec != spec
    case Touch => Stored(s).Some?
    case SetTemplate(_, _) => Stored(s).Some?
    case MarkDeleted => Stored(s).Some? && !Stored(s).value.deleting
    case Remove => Stored(s).Some?
    case PutJob(_, _) => true
    case DropJob(key) => key in LatestJobs(s)
    case DeliverImage => |s.images| > 1
    case DeliverJobs => |s.jobs| > 1
    case FireTimer => s.timer.Some? && s.timer.value <= s.clock
    case Restart => true
    case Dequeue => s.queued && s.pass.Idle?
    case Read => s.pass.Started?
    case List(order) =>
      && s.pass.Fetched? && !Ready(g, s.pass)
      && Enumerates(g, g.hash(s.pass.snap.spec), CachedJobs(s), order)
    case Write(_) => Ready(g, s.pass)
    case GiveUp => s.pass.Started? || (s.pass.Fetched? && !Ready(g, s.pass))
    case Return => s.pass.Returning?
  }

  /** The API server stores a new version of the object (or its absence) and publishes it. */
  function Publish(s: Cluster, im: Option<Image>): Cluster {
    s.(images := s.images + [im], nextVersion := s.nextVersion + 1)
  }

  function PublishJobs(s: Cluster, m: map<JobKey, Job>): Cluster {
    s.(jobs := s.jobs + [m])
  }

  /** The status the write asks for is stored only if the version read is still the stored one. */
  predicate Accepts(s: Cluster, snap: Image)
    requires Shaped(s)
  {
    Stored(s).Some? && Stored(s).value.resourceVersion == snap.resourceVersion
  }

  /** The API server's side of a status update: an identical status is accepted without a new version. */
  function PutStatus(s: Cluster, snap: Image, st: Status): Cluster
    requires Shaped(s)
  {
    if !Accepts(s, snap) || Stored(s).value.status == st then s
    else Publish(s, Some(Stored(s).value.(status := st, resourceVersion := s.nextVersion)))
  }

  /** The end of a pass that has decided `out`. */
  function StoreOutcome(s: Cluster, out: Outcome, fault: Fault): Cluster
    requires Shaped(s) && (s.pass.Fetched? || s.pass.Listed?)
  {
    if !out.changed then s.(pass := Returning(out.requeue))
    else if fault.LostRequest? || !Accepts(s, s.pass.snap) then s.(pass := Returning(Backoff))
    else PutStatus(s, s.pass.snap, out.status).(
           pass := Returning(if fault.LostReply? then Backoff else out.requeue))
  }

  function WriteStep(g: Config, s: Cluster, fault: Fault): Cluster
    requires Shaped(s) && Ready(g, s.pass)
  {
    StoreOutcome(s, OutcomeOf(g, s.pass), fault)
  }

  function ReturnStep(s: Cluster): Cluster
    requires s.pass.Returning?
  {
    var due := s.clock + REQUEUE_INTERVAL;
    match s.pass.requeue
    case NoRequeue => s.(pass := Idle)
    case Backoff => s.(pass := Idle, queued := true)
    case AfterInterval =>
      s.(pass := Idle, timer := Some(if s.timer.Some? && s.timer.value <= due then s.timer.value else due))
  }

  function Step(g: Config, s: Cluster, a: Action): Cluster
    requires Shaped(s) && Enabled(g, s, a)
  {
    match a
    case Tick => s.(clock := s.clock + 1)
    case Create(spec) =>
      Publish(s, Some(Image(s.nextUid, 1, s.nextVersion, false, spec, EmptyStatus))).(nextUid := s.nextUid + 1)
    case EditSpec(spec) =>
      var im := Stored(s).value;
      Publish(s, Some(im.(spec := spec, generation := im.generation + 1, resourceVersion := s.nextVersion)))
    case Touch =>
      Publish(s, Some(Stored(s).value.(resourceVersion := s.nextVersion)))
    case SetTemplate(vmid, node) =>
      var im := Stored(s).value;
      Publish(s, Some(im.(status := im.status.(templateVMID := vmid, templateNode := node),
                          resourceVersion := s.nextVersion)))
    case MarkDeleted =>
      var im := Stored(s).value;
      Publish(s, Some(im.(deleting := true, generation := im.generation + 1, resourceVersion := s.nextVersion)))
    case Remove => Publish(s, None)
    case PutJob(key, job) => PublishJobs(s, LatestJobs(s)[key := job])
    case DropJob(key) => PublishJobs(s, LatestJobs(s) - {key})
    case DeliverImage => s.(images := s.images[1..], queued := true)
    case DeliverJobs => s.(jobs := s.jobs[1..], queued := s.queued || Wakes(g, s.jobs[0], s.jobs[1]))
    case FireTimer => s.(timer := None, queued := true)
    case Restart =>
      s.(images := [Stored(s)], jobs := [LatestJobs(s)], timer := None, queued := true, pass := Idle)
    case Dequeue => s.(queued := false, pass := Started)
    case Read =>
      if Cached(s).None? || Cached(s).value.deleting then s.(pass := Returning(NoRequeue))
      else s.(pass := Fetched(Cached(s).value, s.clock))
    case List(order) =>
      var snap := s.pass.snap;
      s.(pass := Listed(snap, s.clock, FindJob(CachedJobs(s), order, snap.uid)))
    case Write(fault) => WriteStep(g, s, fault)
    case GiveUp => s.(pass := Returning(Backoff))
    case Return => ReturnStep(s)
  }

  // ---------- Runs ----------

  /** Nothing exists yet and nothing has happened; Jobs may be around already. */
  predicate Init(s: Cluster) {
    && s.images == [None] && |s.jobs| == 1
    && !s.queued && s.timer.None? && s.pass.Idle?
  }

  ghost predicate Connects(g: Config, states: seq<Cluster>, acts: seq<Action>) {
    && |states| == |acts| + 1
    && (forall i :: 0 <= i < |states| ==> Shaped(states[i]))
    && (forall i :: 0 <= i < |acts| ==>
          Enabled(g, states[i], acts[i]) && states[i + 1] == Step(g, states[i], acts[i]))
  }

  ghost predicate IsRun(g: Config, states: seq<Cluster>, acts: seq<Action>) {
    Connects(g, states, acts) && Init(states[0])
  }

  lemma StepShaped(g: Config, s: Cluster, a: Action)
    requires Shaped(s) && Enabled(g, s, a)
    ensures Shaped(Step(g, s, a))
  {
  }

  // ---------- Reaching one state from another ----------

  /** Nobody but the controller, its watches and the clock acts. */
  predicate Frozen(a: Action) {
    IsController(a) || a.Tick? || a.DeliverImage? || a.DeliverJobs? || a.FireTimer? || a.Restart?
  }

  ghost predicate AllFrozen(acts: seq<Action>) {
    forall i :: 0 <= i < |acts| ==> Frozen(acts[i])
  }

  ghost predicate ReachesBy(g: Config, s: Cluster, t: Cluster, states: seq<Cluster>, acts: seq<Action>) {
    Connects(g, states, acts) && states[0] == s && states[|acts|] == t && AllFrozen(acts)
  }

  /** Some frozen run leads from `s` to `t`. */
  ghost predicate Reaches(g: Config, s: Cluster, t: Cluster) {
    exists states: seq<Cluster>, acts: seq<Action> :: ReachesBy(g, s, t, states, acts)
  }

  lemma ReachesSelf(g: Config, s: Cluster)
    requires Shaped(s)
    ensures Reaches(g, s, s)
  {
    assert ReachesBy(g, s, s, [s], []);
  }

  lemma Extend(g: Config, states: seq<Cluster>, acts: seq<Action>, a: Action, u: Cluster)
    requires Connects(g, states, acts) && Enabled(g, states[|acts|], a) && u == Step(g, states[|acts|], a)
    requires Shaped(u)
    ensures Connects(g, states + [u], acts + [a])
  {
    var xs, b := states + [u], acts + [a];
    forall i | 0 <= i < |b|
      ensures Enabled(g, xs[i], b[i]) && xs[i + 1] == Step(g, xs[i], b[i])
    {
      if i < |acts| {
        assert xs[i] == states[i] && xs[i + 1] == states[i + 1] && b[i] == acts[i];
      }
    }
  }

  lemma ReachesNext(g: Config, s: Cluster, t: Cluster, a: Action, u: Cluster)
    requires Reaches(g, s, t) && Shaped(t) && Enabled(g, t, a) && Frozen(a) && u == Step(g, t, a)
    ensures Reaches(g, s, u)
  {
    var states, acts :| ReachesBy(g, s, t, states, acts);
    StepShaped(g, t, a);
    Extend(g, states, acts, a, u);
    assert ReachesBy(g, s, u, states + [u], acts + [a]);
  }
}
