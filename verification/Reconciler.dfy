/** PVENodeImageReconciler, running against an API server on which others act at the same time.

    Every API call first lets the environment take any number of steps, and may fail.  The contracts
    say that whatever happens, the calls of one Reconcile are steps of the state machine of
    Clusters; what is proved about every run of that machine holds of this code. */
module Reconcilers {
  import opened Options
  import opened NodeImages
  import opened Conditions
  import opened Decisions
  import opened Clusters
  import opened Invariants

  // ---------- The object in memory ----------

  /** The decoded PVENodeImage a pass works on. */
  class NodeImage {
    const uid: nat
    const generation: nat
    const resourceVersion: nat
    const deleting: bool
    const spec: Spec
    var conditions: seq<Condition>
    var templateVMID: Option<int32>
    var templateNode: string
    var observedSpecHash: string
    var lastBuildTime: Option<nat>

    constructor (im: Image)
      ensures Value() == im
    {
      uid, generation, resourceVersion, deleting, spec :=
        im.uid, im.generation, im.resourceVersion, im.deleting, im.spec;
      conditions, templateVMID, templateNode := im.status.conditions, im.status.templateVMID, im.status.templateNode;
      observedSpecHash, lastBuildTime := im.status.observedSpecHash, im.status.lastBuildTime;
    }

    function CurrentStatus(): Status
      reads this
    {
      Status(conditions, templateVMID, templateNode, observedSpecHash, lastBuildTime)
    }

    function Value(): Image
      reads this
    {
      Image(uid, generation, resourceVersion, deleting, spec, CurrentStatus())
    }
  }

  /** Sets one condition field by field, and reports exactly whether anything changed. */
  method SetCondition(
    image: NodeImage, kind: string, status: ConditionStatus, reason: string, message: string, now: nat)
    returns (changed: bool)
    modifies image`conditions
    ensures image.conditions ==
              Upsert(old(image.conditions), kind, Mark(status, reason, message), image.generation, now)
    ensures changed <==> image.conditions != old(image.conditions)
  {
    changed := false;
    var i := 0;
    while i < |image.conditions| && image.conditions[i].kind != kind
      invariant i <= |image.conditions|
      invariant forall j :: 0 <= j < i ==> image.conditions[j].kind != kind
    {
      i := i + 1;
    }
    PositionIs(image.conditions, kind, i);
    if i == |image.conditions| {
      image.conditions := image.conditions + [Condition(kind, status, reason, message, image.generation, now)];
      return true;
    }
    var existing := image.conditions[i];
    if existing.status != status {
      existing := existing.(status := status, lastTransition := now);
      changed := true;
    }
    if existing.reason != reason {
      existing := existing.(reason := reason);
      changed := true;
    }
    if existing.message != message {
      existing := existing.(message := message);
      changed := true;
    }
    if existing.observedGeneration != image.generation {
      existing := existing.(observedGeneration := image.generation);
      changed := true;
    }
    ghost var before := image.conditions;
    image.conditions := image.conditions[i := existing];
    assert image.conditions[i] == existing;
    assert existing == before[i] ==> image.conditions == before;
  }

  lemma PositionIs(cs: seq<Condition>, kind: string, i: nat)
    requires i <= |cs| && (i < |cs| ==> cs[i].kind == kind)
    requires forall j :: 0 <= j < i ==> cs[j].kind != kind
    ensures Position(cs, kind) == i
  {
  }

  /** Setting a second condition never undoes the change made by setting the first. */
  lemma ChangesAccumulate(cs: seq<Condition>, a: string, b: string, m: Mark, n: Mark, generation: int, now: nat)
    requires a != b
    ensures var one := Upsert(cs, a, m, generation, now);
            var two := Upsert(one, b, n, generation, now);
            two != cs <==> one != cs || two != one
  {
    var one := Upsert(cs, a, m, generation, now);
    var two := Upsert(one, b, n, generation, now);
    var i := Position(cs, a);
    assert one[i].kind == a;
    assert two[i] == one[i];
  }

  /** The two calls every case makes, with the change flags or-ed together. */
  method SetBoth(image: NodeImage, building: Mark, succeeded: Mark, now: nat) returns (statusChanged: bool)
    modifies image`conditions
    ensures image.conditions ==
              Upsert(Upsert(old(image.conditions), BUILDING, building, image.generation, now),
                     BUILD_SUCCEEDED, succeeded, image.generation, now)
    ensures statusChanged <==> image.conditions != old(image.conditions)
  {
    ChangesAccumulate(image.conditions, BUILDING, BUILD_SUCCEEDED, building, succeeded, image.generation, now);
    statusChanged := false;
    var c := SetCondition(image, BUILDING, building.status, building.reason, building.message, now);
    statusChanged := c || statusChanged;
    c := SetCondition(image, BUILD_SUCCEEDED, succeeded.status, succeeded.reason, succeeded.message, now);
    statusChanged := c || statusChanged;
  }

  // ---------- Questions about Jobs ----------

  method OwnedBy(job: Job, uid: nat) returns (owned: bool)
    ensures owned <==> exists i :: 0 <= i < |job.owners| && job.owners[i].uid == uid
    ensures owned <==> IsOwnedBy(job, uid)
  {
    for i := 0 to |job.owners|
      invariant forall j :: 0 <= j < i ==> job.owners[j].uid != uid
    {
      if job.owners[i].uid == uid {
        return true;
      }
    }
    return false;
  }

  /** A Job is finished once it reports Complete or Failed. */
  method JobFinished(job: Job) returns (finished: bool)
    ensures finished <==> Verdict(Some(job)) == Succeeded || Verdict(Some(job)) == Failed
    ensures !finished <==> Verdict(Some(job)) == Running
    ensures finished <==>
            JobCondition("Complete", IsTrue) in job.conditions || JobCondition("Failed", IsTrue) in job.conditions
  {
    for i := 0 to |job.conditions|
      invariant forall j :: 0 <= j < i ==>
                  && job.conditions[j] != JobCondition(JOB_COMPLETE, IsTrue)
                  && job.conditions[j] != JobCondition(JOB_FAILED, IsTrue)
    {
      var c := job.conditions[i];
      if (c.kind == JOB_COMPLETE || c.kind == JOB_FAILED) && c.status == IsTrue {
        return true;
      }
    }
    return false;
  }

  method JobSucceeded(job: Job) returns (succeeded: bool)
    ensures succeeded <==> Verdict(Some(job)) == Succeeded
    ensures succeeded <==> JobCondition("Complete", IsTrue) in job.conditions
  {
    for i := 0 to |job.conditions|
      invariant forall j :: 0 <= j < i ==> job.conditions[j] != JobCondition(JOB_COMPLETE, IsTrue)
    {
      var c := job.conditions[i];
      if c.kind == JOB_COMPLETE && c.status == IsTrue {
        return true;
      }
    }
    return false;
  }

  // ---------- The API server and those who share it ----------

  /** Steps others may take while a pass is under way.  (A restart would end the pass.) */
  predicate IsEnvironment(a: Action) {
    !IsController(a) && !a.Restart?
  }

  lemma EnvironmentKeepsPass(g: Config, s: Cluster, a: Action)
    requires Shaped(s) && Enabled(g, s, a) && IsEnvironment(a)
    ensures Step(g, s, a).pass == s.pass
  {
  }

  class ControlPlane {
    const g: Config
    var state: Cluster
    ghost var states: seq<Cluster>
    ghost var acts: seq<Action>
    /** How many of the controller's API calls have failed. */
    ghost var failures: nat

    /** The present state is the end of a run of the state machine. */
    ghost predicate Valid()
      reads this
    {
      IsRun(g, states, acts) && state == states[|acts|]
    }

    constructor (g: Config, start: Cluster)
      requires Init(start)
      ensures Valid() && this.g == g && state == start
    {
      this.g, state, states, acts, failures := g, start, [start], [], 0;
    }

    /** A step of the controller. */
    method Do(a: Action)
      requires Valid() && Enabled(g, state, a) && IsController(a)
      modifies this
      ensures Valid() && state == Step(g, old(state), a) && acts == old(acts) + [a] && failures == old(failures)
    {
      Advance(a);
    }

    method Advance(a: Action)
      requires Valid() && Enabled(g, state, a)
      modifies this
      ensures Valid() && state == Step(g, old(state), a) && acts == old(acts) + [a] && failures == old(failures)
    {
      StepShaped(g, state, a);
      Extend(g, states, acts, a, Step(g, state, a));
      state := Step(g, state, a);
      states, acts := states + [state], acts + [a];
    }

    /** Others act: any number of any steps open to them. */
    method Interfere()
      requires Valid()
      modifies this
      ensures Valid() && old(acts) <= acts && state.pass == old(state.pass) && failures == old(failures)
      ensures forall i :: |old(acts)| <= i < |acts| ==> IsEnvironment(acts[i])
    {
      var n: nat := *;
      while n > 0
        invariant Valid() && old(acts) <= acts && state.pass == old(state.pass) && failures == old(failures)
        invariant forall i :: |old(acts)| <= i < |acts| ==> IsEnvironment(acts[i])
      {
        var a: Action := *;
        if IsEnvironment(a) && Enabled(g, state, a) {
          EnvironmentKeepsPass(g, state, a);
          Advance(a);
        }
        n := n - 1;
      }
    }

    /** Reads the object from the cache.  `now` is the time of the read. */
    method Get() returns (image: NodeImage?, failed: bool, now: nat)
      requires Valid() && state.pass.Started?
      modifies this
      ensures Valid() && old(acts) <= acts
      ensures failures == old(failures) + if failed then 1 else 0
      ensures failed ==> image == null && state.pass == Returning(Backoff)
      ensures !failed && (image == null || image.deleting) ==> state.pass == Returning(NoRequeue)
      ensures !failed && image != null && !image.deleting ==> state.pass == Fetched(image.Value(), now)
      ensures image != null ==> fresh(image)
    {
      Interfere();
      now := state.clock;
      failed := *;
      image := null;
      if failed {
        failures := failures + 1;
        Do(GiveUp);
      } else {
        var cached := Cached(state);
        Do(Read);
        if cached.Some? {
          image := new NodeImage(cached.value);
        }
      }
    }

    /** Lists the Jobs with the two labels, in no particular order. */
    method List(hash: string) returns (jobs: seq<Job>, failed: bool, now: nat)
      requires Valid() && state.pass.Fetched? && !Ready(g, state.pass) && hash == g.hash(state.pass.snap.spec)
      modifies this
      ensures Valid() && old(acts) <= acts && failures == old(failures) + if failed then 1 else 0
      ensures failed ==> state.pass == Returning(Backoff)
      ensures !failed ==> state.pass == Listed(old(state.pass.snap), now, FirstOwned(jobs, old(state.pass.snap.uid)))
      ensures !failed ==> forall job :: job in jobs <==> exists k :: (
                && k in CachedJobs(state) && CachedJobs(state)[k] == job
                && k.namespace == g.namespace
                && "karpenter.algo7.dev/spec-hash" in job.labels
                && job.labels["karpenter.algo7.dev/spec-hash"] == hash
                && "karpenter.algo7.dev/pvenodeimage" in job.labels
                && job.labels["karpenter.algo7.dev/pvenodeimage"] == g.name)
    {
      Interfere();
      now := state.clock;
      failed := *;
      jobs := [];
      if failed {
        failures := failures + 1;
        Do(GiveUp);
      } else {
        var m := CachedJobs(state);
        var rest := set k | k in m && Matches(g, hash, k, m[k]);
        ghost var all := rest;
        var order: seq<JobKey> := [];
        while rest != {}
          invariant rest <= all
          invariant forall k :: k in order <==> k in all && k !in rest
          invariant forall i, j :: 0 <= i < j < |order| ==> order[i] != order[j]
          invariant |jobs| == |order| && forall i :: 0 <= i < |order| ==> order[i] in m && jobs[i] == m[order[i]]
          decreases rest
        {
          var k :| k in rest;
          rest, order, jobs := rest - {k}, order + [k], jobs + [m[k]];
        }
        FirstOwnedIsFound(m, order, jobs, state.pass.snap.uid);
        Do(Action.List(order));
        AllListed(g, hash, m, order, jobs);
      }
    }

    /** Sends the status of `image`, which must be what the pass decided. */
    method UpdateStatus(image: NodeImage) returns (failed: bool)
      requires Valid() && Ready(g, state.pass) && OutcomeOf(g, state.pass).changed
      requires image.Value() == state.pass.snap.(status := OutcomeOf(g, state.pass).status)
      modifies this
      ensures Valid() && old(acts) <= acts && failures == old(failures) + if failed then 1 else 0
      ensures state.pass == Returning(if failed then Backoff else OutcomeOf(g, old(state.pass)).requeue)
    {
      Interfere();
      var fault: Fault := *;
      Do(Write(fault));
      failed := state.pass.requeue == Backoff;
      if failed {
        failures := failures + 1;
      }
    }

    /** Sends nothing, because nothing changed. */
    method SkipUpdate()
      requires Valid() && Ready(g, state.pass) && !OutcomeOf(g, state.pass).changed
      modifies this
      ensures Valid() && old(acts) <= acts && failures == old(failures)
      ensures state.pass == Returning(OutcomeOf(g, old(state.pass)).requeue)
      ensures state == old(state).(pass := state.pass)
    {
      Do(Write(NoFault));
    }
  }

  // ---------- The reconciler ----------

  /** ctrl.Result and error: done, done for now, or failed. */
  datatype Result = Done | RequeueAfter(seconds: nat) | Error

  function RequeueOf(r: Result): Requeue {
    match r
    case Done => NoRequeue
    case RequeueAfter(_) => AfterInterval
    case Error => Backoff
  }

  function FirstOwned(jobs: seq<Job>, uid: nat): Option<Job> {
    if jobs == [] then None
    else if IsOwnedBy(jobs[0], uid) then Some(jobs[0])
    else FirstOwned(jobs[1..], uid)
  }

  lemma {:induction false} FirstOwnedIsFound(m: map<JobKey, Job>, order: seq<JobKey>, jobs: seq<Job>, uid: nat)
    requires |jobs| == |order| && forall i :: 0 <= i < |order| ==> order[i] in m && jobs[i] == m[order[i]]
    ensures FirstOwned(jobs, uid) == FindJob(m, order, uid)
  {
    if order != [] {
      FirstOwnedIsFound(m, order[1..], jobs[1..], uid);
    }
  }

  /** The Jobs that List selects, spelled out. */
  lemma AllListed(g: Config, hash: string, m: map<JobKey, Job>, order: seq<JobKey>, jobs: seq<Job>)
    requires Enumerates(g, hash, m, order) && |jobs| == |order|
    requires forall i :: 0 <= i < |order| ==> jobs[i] == m[order[i]]
    ensures forall job :: job in jobs <==> exists k :: (
              && k in m && m[k] == job
              && k.namespace == g.namespace
              && "karpenter.algo7.dev/spec-hash" in job.labels
              && job.labels["karpenter.algo7.dev/spec-hash"] == hash
              && "karpenter.algo7.dev/pvenodeimage" in job.labels
              && job.labels["karpenter.algo7.dev/pvenodeimage"] == g.name)
  {
    forall k | k in m
      ensures Matches(g, hash, k, m[k]) <==> (
                && k.namespace == g.namespace
                && "karpenter.algo7.dev/spec-hash" in m[k].labels
                && m[k].labels["karpenter.algo7.dev/spec-hash"] == hash
                && "karpenter.algo7.dev/pvenodeimage" in m[k].labels
                && m[k].labels["karpenter.algo7.dev/pvenodeimage"] == g.name)
    {
    }
    forall job
      ensures job in jobs <==> exists k :: k in m && m[k] == job && Matches(g, hash, k, job)
    {
      if job in jobs {
        var i :| 0 <= i < |jobs| && jobs[i] == job;
        assert order[i] in order;
      }
      if k :| k in m && m[k] == job && Matches(g, hash, k, job) {
        var i :| 0 <= i < |order| && order[i] == k;
        assert jobs[i] == job;
      }
    }
  }

  /** What the scan finds among the listed Jobs, spelled out. */
  lemma OwnedAmongListed(g: Config, hash: string, uid: nat, m: map<JobKey, Job>, jobs: seq<Job>, o: Option<Job>)
    requires forall job :: job in jobs <==> exists k :: (
              && k in m && m[k] == job
              && k.namespace == g.namespace
              && "karpenter.algo7.dev/spec-hash" in job.labels
              && job.labels["karpenter.algo7.dev/spec-hash"] == hash
              && "karpenter.algo7.dev/pvenodeimage" in job.labels
              && job.labels["karpenter.algo7.dev/pvenodeimage"] == g.name)
    requires o == FirstOwned(jobs, uid)
    ensures o.None? <==> !exists k :: (
              && k in m && (o.Some? ==> m[k] == o.value)
              && var job := m[k];
                 && k.namespace == g.namespace
                 && "karpenter.algo7.dev/spec-hash" in job.labels
                 && job.labels["karpenter.algo7.dev/spec-hash"] == hash
                 && "karpenter.algo7.dev/pvenodeimage" in job.labels
                 && job.labels["karpenter.algo7.dev/pvenodeimage"] == g.name
                 && exists i :: 0 <= i < |job.owners| && job.owners[i].uid == uid)
  {
    FirstOwnedMeans(jobs, uid);
    if o.Some? {
      assert o.value in jobs;
    } else {
      forall k | k in m && IsOwnedBy(m[k], uid)
        ensures m[k] !in jobs
      {
      }
    }
  }

  lemma {:induction false} FirstOwnedMeans(jobs: seq<Job>, uid: nat)
    ensures FirstOwned(jobs, uid).Some? ==>
              FirstOwned(jobs, uid).value in jobs && IsOwnedBy(FirstOwned(jobs, uid).value, uid)
    ensures FirstOwned(jobs, uid).None? ==> forall job :: job in jobs ==> !IsOwnedBy(job, uid)
  {
    if jobs != [] {
      FirstOwnedMeans(jobs[1..], uid);
    }
  }

  /** findBuildJob: the first listed Job that the object owns. */
  method FindBuildJob(cp: ControlPlane, image: NodeImage, desiredHash: string)
    returns (job: Option<Job>, failed: bool, now: nat)
    requires cp.Valid() && cp.state.pass.Fetched? && !Ready(cp.g, cp.state.pass)
    requires image.Value() == cp.state.pass.snap && desiredHash == cp.g.hash(image.spec)
    modifies cp
    ensures cp.Valid() && old(cp.acts) <= cp.acts
    ensures cp.failures == old(cp.failures) + if failed then 1 else 0
    ensures failed ==> cp.state.pass == Returning(Backoff)
    ensures !failed ==> cp.state.pass == Listed(image.Value(), now, job)
    ensures !failed ==> (job.None? <==> !exists k :: (
              && k in CachedJobs(cp.state) && (job.Some? ==> CachedJobs(cp.state)[k] == job.value)
              && var found := CachedJobs(cp.state)[k];
                 && k.namespace == cp.g.namespace
                 && "karpenter.algo7.dev/spec-hash" in found.labels
                 && found.labels["karpenter.algo7.dev/spec-hash"] == desiredHash
                 && "karpenter.algo7.dev/pvenodeimage" in found.labels
                 && found.labels["karpenter.algo7.dev/pvenodeimage"] == cp.g.name
                 && exists i :: 0 <= i < |found.owners| && found.owners[i].uid == image.uid))
  {
    var jobs: seq<Job>;
    jobs, failed, now := cp.List(desiredHash);
    job := None;
    if failed {
      return;
    }
    OwnedAmongListed(cp.g, desiredHash, image.uid, CachedJobs(cp.state), jobs, FirstOwned(jobs, image.uid));
    for i := 0 to |jobs|
      invariant FirstOwned(jobs, image.uid) == FirstOwned(jobs[i..], image.uid)
      modifies {}
    {
      var owned := OwnedBy(jobs[i], image.uid);
      if owned {
        job := Some(jobs[i]);
        return;
      }
    }
  }

  /** updateStatusIfChanged. */
  method UpdateStatusIfChanged(cp: ControlPlane, image: NodeImage, changed: bool) returns (failed: bool)
    requires cp.Valid() && Ready(cp.g, cp.state.pass) && changed == OutcomeOf(cp.g, cp.state.pass).changed
    requires image.Value() == cp.state.pass.snap.(status := OutcomeOf(cp.g, cp.state.pass).status)
    modifies cp
    ensures cp.Valid() && old(cp.acts) <= cp.acts
    ensures cp.failures == old(cp.failures) + if failed then 1 else 0
    ensures cp.state.pass == Returning(if failed then Backoff else OutcomeOf(cp.g, old(cp.state.pass)).requeue)
  {
    if !changed {
      cp.SkipUpdate();
      return false;
    }
    failed := cp.UpdateStatus(image);
  }

  /** Case 1: the current spec has already been built. */
  method ReportCurrent(cp: ControlPlane, image: NodeImage, desiredHash: string, now: nat) returns (result: Result)
    requires cp.Valid() && cp.state.pass == Fetched(image.Value(), now) && Ready(cp.g, cp.state.pass)
    requires desiredHash == cp.g.hash(image.spec)
    modifies cp, image
    ensures cp.Valid() && old(cp.acts) <= cp.acts
    ensures cp.state.pass == Returning(RequeueOf(result)) && !result.RequeueAfter?
    ensures cp.failures == old(cp.failures) + if result.Error? then 1 else 0
  {
    var statusChanged := SetBoth(image,
      Mark(IsFalse, "BuildComplete", "Template is up to date"),
      Mark(IsTrue, "TemplateCurrent", "Template matches current spec"), now);
    var failed := UpdateStatusIfChanged(cp, image, statusChanged);
    return if failed then Error else Done;
  }

  /** Cases 2 and 3: the build has not finished. */
  method ReportUnfinished(cp: ControlPlane, image: NodeImage, desiredHash: string, job: Option<Job>, now: nat)
    returns (result: Result)
    requires cp.Valid() && cp.state.pass == Listed(image.Value(), now, job)
    requires !Ready(cp.g, Fetched(image.Value(), now)) && desiredHash == cp.g.hash(image.spec)
    requires Verdict(job) == NoJob || Verdict(job) == Running
    modifies cp, image
    ensures cp.Valid() && old(cp.acts) <= cp.acts
    ensures cp.state.pass == Returning(RequeueOf(result))
    ensures cp.failures == old(cp.failures) + if result.Error? then 1 else 0
    ensures result.RequeueAfter? ==> result.seconds == 30
  {
    var failed: bool;
    var statusChanged := false;
    // Case 2: no Job exists yet for this spec.
    if job.None? {
      statusChanged := SetBoth(image,
        Mark(IsTrue, "BuildPending", "Build Job not yet created"),
        Mark(IsFalse, "SpecChanged", "Build in progress for new spec"), now);
      failed := UpdateStatusIfChanged(cp, image, statusChanged);
      if failed {
        return Error;
      }
      return RequeueAfter(REQUEUE_INTERVAL);
    }

    // Case 3: the Job is still running.
    statusChanged := SetBoth(image,
      Mark(IsTrue, "BuildInProgress", "Packer build is running"),
      Mark(IsFalse, "BuildInProgress", "Build in progress"), now);
    failed := UpdateStatusIfChanged(cp, image, statusChanged);
    if failed {
      return Error;
    }
    return RequeueAfter(REQUEUE_INTERVAL);
  }

  /** Case 4, a Job that succeeded: the update is forced. */
  method ReportSucceeded(cp: ControlPlane, image: NodeImage, desiredHash: string, job: Job, now: nat)
    returns (result: Result)
    requires cp.Valid() && cp.state.pass == Listed(image.Value(), now, Some(job))
    requires !Ready(cp.g, Fetched(image.Value(), now)) && desiredHash == cp.g.hash(image.spec)
    requires Verdict(Some(job)) == Succeeded
    modifies cp, image
    ensures cp.Valid() && old(cp.acts) <= cp.acts
    ensures cp.state.pass == Returning(RequeueOf(result)) && !result.RequeueAfter?
    ensures cp.failures == old(cp.failures) + if result.Error? then 1 else 0
  {
    image.observedSpecHash := desiredHash;
    image.lastBuildTime := Some(now);
    var statusChanged := true;
    var _ := SetBoth(image,
      Mark(IsFalse, "BuildComplete", "Build completed successfully"),
      Mark(IsTrue, "BuildComplete", "Template built and available"), now);
    var failed := UpdateStatusIfChanged(cp, image, statusChanged);
    return if failed then Error else Done;
  }

  /** Case 4, a Job that failed. */
  method ReportFailed(cp: ControlPlane, image: NodeImage, desiredHash: string, job: Job, now: nat)
    returns (result: Result)
    requires cp.Valid() && cp.state.pass == Listed(image.Value(), now, Some(job))
    requires !Ready(cp.g, Fetched(image.Value(), now)) && desiredHash == cp.g.hash(image.spec)
    requires Verdict(Some(job)) == Failed
    modifies cp, image
    ensures cp.Valid() && old(cp.acts) <= cp.acts
    ensures cp.state.pass == Returning(RequeueOf(result)) && !result.RequeueAfter?
    ensures cp.failures == old(cp.failures) + if result.Error? then 1 else 0
  {
    var statusChanged := SetBoth(image,
      Mark(IsFalse, "BuildFailed", "Packer build failed; see Job logs"),
      Mark(IsFalse, "BuildFailed", "Most recent build failed"), now);
    var failed := UpdateStatusIfChanged(cp, image, statusChanged);
    return if failed then Error else Done;
  }

  /** One pass.  It ends where the state machine says it does, with the result that makes the worker
      queue the object as the machine does; and it fails exactly when one of its API calls has. */
  method Reconcile(cp: ControlPlane) returns (result: Result)
    requires cp.Valid() && cp.state.pass.Started?
    modifies cp
    ensures cp.Valid() && old(cp.acts) <= cp.acts
    ensures cp.state.pass == Returning(RequeueOf(result))
    ensures cp.failures == old(cp.failures) + if result.Error? then 1 else 0
    ensures result.RequeueAfter? ==> result.seconds == 30
  {
    var image, failed, now := cp.Get();
    if failed {
      return Error;
    }
    if image == null {
      return Done;
    }
    if image.deleting {
      return Done;
    }
    var desiredHash := cp.g.hash(image.spec);

    // Case 1: the current spec has already been built.
    if image.observedSpecHash == desiredHash && image.templateVMID.Some? {
      result := ReportCurrent(cp, image, desiredHash, now);
      return;
    }

    var job: Option<Job>;
    job, failed, now := FindBuildJob(cp, image, desiredHash);
    if failed {
      return Error;
    }

    if job.None? {
      result := ReportUnfinished(cp, image, desiredHash, job, now);
      return;
    }
    var finished := JobFinished(job.value);
    if !finished {
      result := ReportUnfinished(cp, image, desiredHash, job, now);
      return;
    }
    var succeeded := JobSucceeded(job.value);
    if succeeded {
      result := ReportSucceeded(cp, image, desiredHash, job.value, now);
    } else {
      result := ReportFailed(cp, image, desiredHash, job.value, now);
    }
  }

  /** The worker: takes the queued object, reconciles it and queues it again as the result asks. */
  method ProcessNextItem(cp: ControlPlane)
    requires cp.Valid() && cp.state.queued && cp.state.pass.Idle?
    modifies cp
    ensures cp.Valid() && old(cp.acts) <= cp.acts
    ensures cp.state.pass.Idle? && Inv(cp.g, cp.state)
  {
    cp.Do(Dequeue);
    var _ := Reconcile(cp);
    cp.Interfere();
    cp.Do(Return);
    RunInv(cp.g, cp.states, cp.acts, |cp.acts|);
  }

  /** Skipping an update whose status is the one read stores what always updating would store. */
  lemma SkippingIsExact(g: Config, s: Cluster)
    requires Inv(g, s) && Ready(g, s.pass) && !OutcomeOf(g, s.pass).changed
    ensures PutStatus(s, s.pass.snap, OutcomeOf(g, s.pass).status) == s
  {
    if Accepts(s, s.pass.snap) {
      AcceptedIsSnap(g, s);
    }
  }
}
