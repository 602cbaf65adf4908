/** Runs from the beginning that show where the code does not do what one might expect. */
module Witnesses {
  import opened Options
  import opened NodeImages
  import opened Decisions
  import opened Clusters
  import opened Invariants
  import opened Wakeup
  import opened StatusWrites
  import opened WriteTurns

  // ---------- Runs from the beginning ----------

  ghost predicate EndsAt(g: Config, s: Cluster, states: seq<Cluster>, acts: seq<Action>) {
    IsRun(g, states, acts) && states[|acts|] == s
  }

  ghost predicate Reachable(g: Config, s: Cluster) {
    exists states: seq<Cluster>, acts: seq<Action> :: EndsAt(g, s, states, acts)
  }

  lemma ReachableStart(g: Config, s: Cluster)
    requires Init(s)
    ensures Reachable(g, s)
  {
    assert EndsAt(g, s, [s], []);
  }

  lemma ReachableStep(g: Config, s: Cluster, a: Action, t: Cluster)
    requires Reachable(g, s) && Shaped(s) && Enabled(g, s, a) && t == Step(g, s, a)
    ensures Reachable(g, t)
  {
    var states, acts :| EndsAt(g, s, states, acts);
    StepShaped(g, s, a);
    Extend(g, states, acts, a, t);
    assert EndsAt(g, t, states + [t], acts + [a]);
  }

  lemma ReachableOn(g: Config, s: Cluster, t: Cluster)
    requires Reachable(g, s) && Reaches(g, s, t)
    ensures Reachable(g, t)
  {
    var ys, b :| ReachesBy(g, s, t, ys, b);
    ReachableAlong(g, ys, b, |b|);
  }

  lemma {:induction false} ReachableAlong(g: Config, ys: seq<Cluster>, b: seq<Action>, n: nat)
    requires Connects(g, ys, b) && Reachable(g, ys[0]) && n <= |b|
    ensures Reachable(g, ys[n])
  {
    if n > 0 {
      ReachableAlong(g, ys, b, n - 1);
      ReachableStep(g, ys[n - 1], b[n - 1], ys[n]);
    }
  }

  lemma ReachableInv(g: Config, s: Cluster)
    requires Reachable(g, s)
    ensures Inv(g, s)
  {
    var states, acts :| EndsAt(g, s, states, acts);
    RunInv(g, states, acts, |acts|);
  }

  // ---------- An object and its Jobs ----------

  /** A Job for the object's spec, owned by it, with the given condition true. */
  function BuildJob(g: Config, spec: Spec, controller: bool, conditions: seq<JobCondition>): Job {
    Job(map[LABEL_SPEC_HASH := g.hash(spec), LABEL_MANAGED_BY := g.name],
        [OwnerRef(KIND, g.name, 0, controller)], conditions)
  }

  function NewImage(spec: Spec): Image {
    Image(0, 1, 0, false, spec, EmptyStatus)
  }

  /** The first object, seen by the controller but not looked at, with its Jobs in the cache. */
  function Beginning(spec: Spec, m: map<JobKey, Job>): Cluster {
    Cluster([Some(NewImage(spec))], [m], 0, 1, 1, true, None, Idle)
  }

  lemma ImageArrives(g: Config, spec: Spec)
    ensures Reachable(g, Beginning(spec, map[]))
  {
    var s0 := Cluster([None], [map[]], 0, 0, 0, false, None, Idle);
    var s1 := s0.(images := [None, Some(NewImage(spec))], nextVersion := 1, nextUid := 1);
    ReachableStart(g, s0);
    ReachableStep(g, s0, Create(spec), s1);
    assert s1.images[1..] == [Some(NewImage(spec))];
    ReachableStep(g, s1, DeliverImage, Beginning(spec, map[]));
  }

  lemma JobArrives(g: Config, spec: Spec, m: map<JobKey, Job>, key: JobKey, job: Job)
    requires Reachable(g, Beginning(spec, m))
    ensures Reachable(g, Beginning(spec, m[key := job]))
  {
    var s0 := Beginning(spec, m);
    var s1 := s0.(jobs := [m, m[key := job]]);
    assert [m] + [m[key := job]] == s1.jobs;
    ReachableStep(g, s0, PutJob(key, job), s1);
    assert s1.jobs[1..] == [m[key := job]];
    ReachableStep(g, s1, DeliverJobs, Beginning(spec, m[key := job]));
  }

  lemma BeginningPoised(g: Config, spec: Spec, m: map<JobKey, Job>)
    requires Reachable(g, Beginning(spec, m))
    ensures Poised(g, Beginning(spec, m), NewImage(spec), m)
  {
    ReachableInv(g, Beginning(spec, m));
  }

  lemma LabelsDiffer()
    ensures LABEL_SPEC_HASH != LABEL_MANAGED_BY
  {
    assert |LABEL_SPEC_HASH| != |LABEL_MANAGED_BY|;
  }

  lemma BuildJobRelevant(g: Config, spec: Spec, key: JobKey, controller: bool, conditions: seq<JobCondition>)
    requires key.namespace == g.namespace
    ensures Relevant(g, NewImage(spec), key, BuildJob(g, spec, controller, conditions))
    ensures Accountable(g, BuildJob(g, spec, controller, conditions)) <==> controller
  {
    LabelsDiffer();
    var job := BuildJob(g, spec, controller, conditions);
    assert job.owners[0].uid == 0;
  }

  lemma Verdicts(g: Config, spec: Spec, controller: bool)
    ensures Verdict(Some(BuildJob(g, spec, controller, []))) == Running
    ensures Verdict(Some(BuildJob(g, spec, controller, [JobCondition(JOB_FAILED, IsTrue)]))) == Failed
    ensures Verdict(Some(BuildJob(g, spec, controller, [JobCondition(JOB_COMPLETE, IsTrue)]))) == Succeeded
  {
    assert JOB_FAILED != JOB_COMPLETE by {
      assert |JOB_FAILED| != |JOB_COMPLETE|;
    }
    var failed := BuildJob(g, spec, controller, [JobCondition(JOB_FAILED, IsTrue)]);
    var done := BuildJob(g, spec, controller, [JobCondition(JOB_COMPLETE, IsTrue)]);
    assert failed.conditions[0] == JobCondition(JOB_FAILED, IsTrue);
    assert done.conditions[0] == JobCondition(JOB_COMPLETE, IsTrue);
  }

  // ---------- Writes without end ----------

  /** A new object and one Job of its own that has succeeded: status writes without bound. */
  lemma SuccessWithoutTemplate(g: Config, spec: Spec) returns (s: Cluster)
    ensures var job := BuildJob(g, spec, true, [JobCondition(JOB_COMPLETE, IsTrue)]);
            s == Beginning(spec, map[JobKey(g.namespace, "a") := job])
    ensures Reachable(g, s) && !exists b: nat :: BoundedBy(g, s, b)
  {
    var key, job := JobKey(g.namespace, "a"), BuildJob(g, spec, true, [JobCondition(JOB_COMPLETE, IsTrue)]);
    var m := map[key := job];
    ImageArrives(g, spec);
    JobArrives(g, spec, map[], key, job);
    assert map[][key := job] == m;
    s := Beginning(spec, m);
    BeginningPoised(g, spec, m);
    BuildJobRelevant(g, spec, key, true, job.conditions);
    Verdicts(g, spec, true);
    assert m[key] == job;
    assert !Tame(g, NewImage(spec), m);
    WritesBoundedExactly(g, s, NewImage(spec));
  }

  /** A Job that has failed and another for the same spec that is running, both controlled by the object. */
  function FailedJob(g: Config, spec: Spec): Job {
    BuildJob(g, spec, true, [JobCondition(JOB_FAILED, IsTrue)])
  }

  function RetryJob(g: Config, spec: Spec): Job {
    BuildJob(g, spec, true, [])
  }

  function FailedAndRetry(g: Config, spec: Spec): map<JobKey, Job> {
    map[JobKey(g.namespace, "a") := FailedJob(g, spec)][JobKey(g.namespace, "b") := RetryJob(g, spec)]
  }

  lemma RetryArrives(g: Config, spec: Spec)
    ensures Reachable(g, Beginning(spec, FailedAndRetry(g, spec)))
    ensures AllAccountable(g, FailedAndRetry(g, spec))
    ensures var im, m := NewImage(spec), FailedAndRetry(g, spec);
            Attainable(g, im, m, Some(FailedJob(g, spec))) && Attainable(g, im, m, Some(RetryJob(g, spec)))
  {
    var a, b := JobKey(g.namespace, "a"), JobKey(g.namespace, "b");
    var failed, retry, m := FailedJob(g, spec), RetryJob(g, spec), FailedAndRetry(g, spec);
    ImageArrives(g, spec);
    JobArrives(g, spec, map[], a, failed);
    assert map[][a := failed] == map[a := failed];
    JobArrives(g, spec, map[a := failed], b, retry);
    BuildJobRelevant(g, spec, a, true, failed.conditions);
    BuildJobRelevant(g, spec, b, true, retry.conditions);
    assert m[a] == failed && m[b] == retry;
  }

  /** Status writes without bound over these two, as the cache lists now the one and now the other first. */
  lemma RetryBesideFailure(g: Config, spec: Spec) returns (s: Cluster)
    ensures s == Beginning(spec, FailedAndRetry(g, spec))
    ensures Reachable(g, s) && !exists b: nat :: BoundedBy(g, s, b)
  {
    var im, m := NewImage(spec), FailedAndRetry(g, spec);
    s := Beginning(spec, m);
    RetryArrives(g, spec);
    BeginningPoised(g, spec, m);
    Verdicts(g, spec, true);
    assert !Tame(g, im, m) by {
      TwoVerdicts(g, im, m, FailedJob(g, spec), RetryJob(g, spec));
    }
    WritesBoundedExactly(g, s, im);
  }

  lemma TwoVerdicts(g: Config, im: Image, m: map<JobKey, Job>, a: Job, b: Job)
    requires Attainable(g, im, m, Some(a)) && Attainable(g, im, m, Some(b))
    requires Verdict(Some(a)) == Failed && Verdict(Some(b)) == Running
    ensures !Tame(g, im, m) && !IsCurrent(g.hash(im.spec), im.status) ==> !Agree(g, im, m)
    ensures !Tame(g, im, m)
  {
    var j :| j in m && Relevant(g, im, j, m[j]) && m[j] == a;
    var k :| k in m && Relevant(g, im, k, m[k]) && m[k] == b;
  }

  // ---------- A lost wakeup ----------

  /** At rest: nothing pending, and every pass over the live object would change nothing. */
  ghost predicate AtRest(g: Config, s: Cluster, im: Image, m: map<JobKey, Job>) {
    && Shaped(s) && !Pending(g, s) && Stored(s) == Some(im) && LatestJobs(s) == m && !im.deleting
    && forall o, now :: Attainable(g, im, m, o) ==> Settles(g, im, o, now)
  }

  lemma OnlyAttainable(g: Config, im: Image, key: JobKey, job: Job, o: Option<Job>)
    requires Relevant(g, im, key, job)
    ensures Attainable(g, im, map[key := job], o) <==> o == Some(job)
  {
    var m := map[key := job];
    assert key in m && m[key] == job;
  }

  /** Why Jobs need to agree: a run from the beginning, with a failed Job and a running one, both controlled
      by the object, that comes to rest because the last pass found the failed one.  Nothing is pending,
      although a pass that finds the running one would say that the object is building. */
  lemma RestsBesideRetry(g: Config, spec: Spec) returns (s: Cluster, im: Image)
    ensures Reachable(g, s) && !Pending(g, s) && Stored(s) == Some(im) && !im.deleting && im.spec == spec
    ensures LatestJobs(s) == FailedAndRetry(g, spec) && AllAccountable(g, LatestJobs(s))
    ensures Attainable(g, im, LatestJobs(s), Some(FailedJob(g, spec)))
    ensures Attainable(g, im, LatestJobs(s), Some(RetryJob(g, spec)))
    ensures forall now :: Settles(g, im, Some(FailedJob(g, spec)), now)
    ensures forall now :: !SameButBuildTime(Decide(g.hash(spec), im, Some(RetryJob(g, spec)), now).status, im.status)
  {
    var start := Beginning(spec, FailedAndRetry(g, spec));
    RetryArrives(g, spec);
    BeginningPoised(g, spec, FailedAndRetry(g, spec));
    Verdicts(g, spec, true);
    s, im := RestsBeside(g, start, NewImage(spec), start.jobs[0], FailedJob(g, spec), RetryJob(g, spec));
  }

  lemma RestsBeside(g: Config, start: Cluster, im0: Image, m: map<JobKey, Job>, failed: Job, running: Job)
    returns (s: Cluster, im: Image)
    requires Reachable(g, start) && Poised(g, start, im0, m) && start.jobs == [m] && start.timer.None?
    requires im0.status == EmptyStatus && !IsCurrent(g.hash(im0.spec), im0.status)
    requires Attainable(g, im0, m, Some(failed)) && Attainable(g, im0, m, Some(running))
    requires Verdict(Some(failed)) == Failed && Verdict(Some(running)) == Running
    ensures Reachable(g, s) && !Pending(g, s) && Stored(s) == Some(im) && !im.deleting && im.spec == im0.spec
    ensures LatestJobs(s) == m
    ensures Attainable(g, im, m, Some(failed)) && Attainable(g, im, m, Some(running))
    ensures forall now :: Settles(g, im, Some(failed), now)
    ensures forall now :: !SameButBuildTime(Decide(g.hash(im.spec), im, Some(running), now).status, im.status)
  {
    s, im := QuietAfter(g, start, im0, m, failed);
    ReachableOn(g, start, s);
    SameRelevant(g, im0, im, m, Some(failed));
    SameRelevant(g, im0, im, m, Some(running));
    FailureSettles(g, im, failed, running);
  }

  lemma SameRelevant(g: Config, im: Image, im': Image, m: map<JobKey, Job>, o: Option<Job>)
    requires im'.uid == im.uid && im'.spec == im.spec
    ensures Attainable(g, im', m, o) <==> Attainable(g, im, m, o)
  {
    assert forall k, job: Job :: Relevant(g, im', k, job) <==> Relevant(g, im, k, job);
  }

  /** A pass that finds a failed Job, and another that finds it again. */
  lemma QuietAfter(g: Config, s: Cluster, im: Image, m: map<JobKey, Job>, failed: Job)
    returns (t: Cluster, im': Image)
    requires Poised(g, s, im, m) && s.jobs == [m] && s.timer.None? && Attainable(g, im, m, Some(failed))
    requires Verdict(Some(failed)) == Failed && im.status == EmptyStatus && !IsCurrent(g.hash(im.spec), im.status)
    ensures Reaches(g, s, t) && t.images == [Some(im')] && t.jobs == [m] && !Pending(g, t)
    ensures im'.spec == im.spec && im'.uid == im.uid && !im'.deleting
    ensures WellFormed(im') && Reported(im', Failed) && !IsCurrent(g.hash(im'.spec), im'.status)
  {
    assert Known(s, im);
    DecisionReports(g, im, Some(failed), s.clock + 1, s.nextVersion);
    var mid := Turn(g, s, im, m, Some(failed));
    im' := Written(g, im, Some(failed), s.clock + 1, s.nextVersion);
    assert Known(mid, im');
    assert Attainable(g, im', m, Some(failed));
    DecisionReports(g, im', Some(failed), mid.clock + 1, mid.nextVersion);
    t := QuietTurn(g, mid, im', m, Some(failed));
    ReachesTrans(g, s, mid, t);
  }

  lemma FailureSettles(g: Config, im: Image, failed: Job, running: Job)
    requires WellFormed(im) && Reported(im, Failed) && !IsCurrent(g.hash(im.spec), im.status)
    requires Verdict(Some(failed)) == Failed && Verdict(Some(running)) == Running
    ensures forall now :: Settles(g, im, Some(failed), now)
    ensures forall now :: !SameButBuildTime(Decide(g.hash(im.spec), im, Some(running), now).status, im.status)
  {
    forall now
      ensures Settles(g, im, Some(failed), now)
      ensures !SameButBuildTime(Decide(g.hash(im.spec), im, Some(running), now).status, im.status)
    {
      DecisionReports(g, im, Some(failed), now, 0);
      DecideConditions(g.hash(im.spec), im, Some(running), now);
    }
  }

  /** A controller comes to rest over a failed Job. */
  lemma RestsOnFailure(g: Config, s: Cluster, im: Image, key: JobKey, job: Job) returns (t: Cluster, im': Image)
    requires Poised(g, s, im, map[key := job]) && s.jobs == [map[key := job]] && s.timer.None?
    requires im.status == EmptyStatus
    requires Relevant(g, im, key, job) && Verdict(Some(job)) == Failed && !IsCurrent(g.hash(im.spec), im.status)
    ensures Reaches(g, s, t) && Stored(t) == Some(im') && t.jobs == [map[key := job]]
    ensures AtRest(g, t, im', map[key := job])
    ensures im'.spec == im.spec && im'.uid == im.uid && !IsCurrent(g.hash(im'.spec), im'.status)
  {
    var m := map[key := job];
    OnlyAttainable(g, im, key, job, Some(job));
    t, im' := QuietAfter(g, s, im, m, job);
    forall o, now | Attainable(g, im', m, o)
      ensures Settles(g, im', o, now)
    {
      OnlyAttainable(g, im', key, job, o);
      DecisionReports(g, im', o, now, 0);
    }
  }

  /** A run from the beginning that comes to rest over the first Job, which has failed. */
  lemma FirstJobRests(g: Config, spec: Spec, key: JobKey, job: Job) returns (s: Cluster, im: Image)
    requires Relevant(g, NewImage(spec), key, job) && Verdict(Some(job)) == Failed
    ensures Reachable(g, s) && Inv(g, s) && Stored(s) == Some(im) && s.jobs == [map[key := job]]
    ensures AtRest(g, s, im, map[key := job]) && im.uid == 0 && im.spec == spec
    ensures !IsCurrent(g.hash(im.spec), im.status)
  {
    var m := map[key := job];
    ImageArrives(g, spec);
    JobArrives(g, spec, map[], key, job);
    assert map[][key := job] == m;
    BeginningPoised(g, spec, m);
    s, im := RestsOnFailure(g, Beginning(spec, m), NewImage(spec), key, job);
    ReachableOn(g, Beginning(spec, m), s);
    ReachableInv(g, s);
  }

  /** Why Jobs need a controller owner: a run from the beginning, with a failed Job that names the object
      as its owner but not as its controller.  The controller comes to rest over it.  Then the Job is
      deleted, and nothing is pending, although every pass would now change the conditions. */
  lemma LostWakeup(g: Config, spec: Spec) returns (s: Cluster, im: Image)
    ensures var key, job := JobKey(g.namespace, "a"), BuildJob(g, spec, false, [JobCondition(JOB_FAILED, IsTrue)]);
            && Reachable(g, s) && AtRest(g, s, im, map[key := job])
            && Enabled(g, s, DropJob(key)) && Enabled(g, Step(g, s, DropJob(key)), DeliverJobs)
            && Step(g, Step(g, s, DropJob(key)), DeliverJobs) == Jobless(s)
    ensures Reachable(g, Jobless(s)) && !Pending(g, Jobless(s)) && Stored(Jobless(s)) == Some(im)
    ensures Attainable(g, im, map[], None)
    ensures forall o, now :: Attainable(g, im, map[], o) ==>
              !SameButBuildTime(Decide(g.hash(im.spec), im, o, now).status, im.status)
  {
    var key, job := JobKey(g.namespace, "a"), BuildJob(g, spec, false, [JobCondition(JOB_FAILED, IsTrue)]);
    BuildJobRelevant(g, spec, key, false, job.conditions);
    Verdicts(g, spec, false);
    s, im := FirstJobRests(g, spec, key, job);
    OnlyAttainable(g, im, key, job, Some(job));
    UnaccountableIsLost(g, s, im, key, job, 0);
    DropReaches(g, s, key);
  }

  lemma DropReaches(g: Config, s: Cluster, key: JobKey)
    requires Reachable(g, s) && Shaped(s) && Enabled(g, s, DropJob(key))
    requires Enabled(g, Step(g, s, DropJob(key)), DeliverJobs)
    requires Step(g, Step(g, s, DropJob(key)), DeliverJobs) == Jobless(s)
    ensures Reachable(g, Jobless(s))
  {
    var mid := Step(g, s, DropJob(key));
    ReachableStep(g, s, DropJob(key), mid);
    ReachableStep(g, mid, DeliverJobs, Jobless(s));
  }
}
