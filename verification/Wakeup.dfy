/** The controller never goes to sleep on unfinished work. */
module Wakeup {
  import opened Options
  import opened NodeImages
  import opened Decisions
  import opened Clusters
  import opened Invariants

  // ---------- What a lookup can return ----------

  /** No Job, if none is relevant; otherwise one that is. */
  ghost predicate Attainable(g: Config, im: Image, m: map<JobKey, Job>, o: Option<Job>) {
    if o.None? then forall k :: k in m ==> !Relevant(g, im, k, m[k])
    else exists k :: k in m && Relevant(g, im, k, m[k]) && m[k] == o.value
  }

  /** findBuildJob returns the first listed owned Job, and none exactly when none is listed. */
  lemma {:induction false} FindJobFirst(m: map<JobKey, Job>, order: seq<JobKey>, uid: nat)
    requires forall k :: k in order ==> k in m
    ensures FindJob(m, order, uid).None? <==> forall k :: k in order ==> !IsOwnedBy(m[k], uid)
    ensures FindJob(m, order, uid).Some? ==>
              exists i :: 0 <= i < |order| && IsOwnedBy(m[order[i]], uid) && FindJob(m, order, uid).value == m[order[i]]
                          && forall j :: 0 <= j < i ==> !IsOwnedBy(m[order[j]], uid)
  {
    if order != [] && !IsOwnedBy(m[order[0]], uid) {
      FindJobFirst(m, order[1..], uid);
      assert order == [order[0]] + order[1..];
      if FindJob(m, order[1..], uid).Some? {
        var i :| 0 <= i < |order[1..]| && IsOwnedBy(m[order[1..][i]], uid)
                 && FindJob(m, order[1..], uid).value == m[order[1..][i]]
                 && forall j :: 0 <= j < i ==> !IsOwnedBy(m[order[1..][j]], uid);
        assert order[i + 1] == order[1..][i];
        forall j | 0 <= j < i + 1
          ensures !IsOwnedBy(m[order[j]], uid)
        {
          assert j > 0 ==> order[j] == order[1..][j - 1];
        }
      }
    } else if order != [] {
      assert order[0] in order;
    }
  }

  lemma {:induction false} OrderOf(keys: set<JobKey>) returns (order: seq<JobKey>)
    ensures forall i, j :: 0 <= i < j < |order| ==> order[i] != order[j]
    ensures forall k :: k in order <==> k in keys
  {
    if keys == {} {
      order := [];
    } else {
      var k :| k in keys;
      var rest := OrderOf(keys - {k});
      order := [k] + rest;
    }
  }

  /** Which Jobs a lookup may return, spelled out. */
  lemma RelevantMeans(g: Config, im: Image, key: JobKey, job: Job)
    ensures Relevant(g, im, key, job) <==>
              && key.namespace == g.namespace
              && "karpenter.algo7.dev/spec-hash" in job.labels
              && job.labels["karpenter.algo7.dev/spec-hash"] == g.hash(im.spec)
              && "karpenter.algo7.dev/pvenodeimage" in job.labels
              && job.labels["karpenter.algo7.dev/pvenodeimage"] == g.name
              && exists i :: 0 <= i < |job.owners| && job.owners[i].uid == im.uid
  {
  }

  /** A lookup returns no Job exactly if none in the cache has the namespace, both labels and the object's
      UID among its owners, and otherwise one that has. */
  lemma AttainableMeans(g: Config, im: Image, m: map<JobKey, Job>, o: Option<Job>)
    ensures Attainable(g, im, m, o) <==>
            (o.None? <==> !exists k :: (
              && k in m && (o.Some? ==> m[k] == o.value)
              && k.namespace == g.namespace
              && "karpenter.algo7.dev/spec-hash" in m[k].labels
              && m[k].labels["karpenter.algo7.dev/spec-hash"] == g.hash(im.spec)
              && "karpenter.algo7.dev/pvenodeimage" in m[k].labels
              && m[k].labels["karpenter.algo7.dev/pvenodeimage"] == g.name
              && exists i :: 0 <= i < |m[k].owners| && m[k].owners[i].uid == im.uid))
  {
    forall k | k in m
      ensures Relevant(g, im, k, m[k]) <==> (
                && k.namespace == g.namespace
                && "karpenter.algo7.dev/spec-hash" in m[k].labels
                && m[k].labels["karpenter.algo7.dev/spec-hash"] == g.hash(im.spec)
                && "karpenter.algo7.dev/pvenodeimage" in m[k].labels
                && m[k].labels["karpenter.algo7.dev/pvenodeimage"] == g.name
                && exists i :: 0 <= i < |m[k].owners| && m[k].owners[i].uid == im.uid)
    {
      RelevantMeans(g, im, k, m[k]);
    }
  }

  /** Whatever the cache's order, the lookup's result is attainable; and every attainable result is
      the lookup's for some order. */
  lemma LookupExact(g: Config, im: Image, m: map<JobKey, Job>, o: Option<Job>)
    ensures Attainable(g, im, m, o) <==>
              exists order :: Enumerates(g, g.hash(im.spec), m, order) && FindJob(m, order, im.uid) == o
    ensures (exists order :: Enumerates(g, g.hash(im.spec), m, order) && FindJob(m, order, im.uid) == o) <==>
            (o.None? <==> !exists k :: (
              && k in m && (o.Some? ==> m[k] == o.value)
              && k.namespace == g.namespace
              && "karpenter.algo7.dev/spec-hash" in m[k].labels
              && m[k].labels["karpenter.algo7.dev/spec-hash"] == g.hash(im.spec)
              && "karpenter.algo7.dev/pvenodeimage" in m[k].labels
              && m[k].labels["karpenter.algo7.dev/pvenodeimage"] == g.name
              && exists i :: 0 <= i < |m[k].owners| && m[k].owners[i].uid == im.uid))
  {
    AttainableMeans(g, im, m, o);
    var h := g.hash(im.spec);
    forall order | Enumerates(g, h, m, order) && FindJob(m, order, im.uid) == o
      ensures Attainable(g, im, m, o)
    {
      FindJobFirst(m, order, im.uid);
    }
    if Attainable(g, im, m, o) {
      var keys := set k | k in m && Matches(g, h, k, m[k]);
      if o.Some? {
        var k :| k in m && Relevant(g, im, k, m[k]) && m[k] == o.value;
        var rest := OrderOf(keys - {k});
        var order := [k] + rest;
        assert Enumerates(g, h, m, order);
      } else {
        var order := OrderOf(keys);
        assert Enumerates(g, h, m, order);
        FindJobFirst(m, order, im.uid);
      }
    }
  }

  lemma SomeAttainable(g: Config, im: Image, m: map<JobKey, Job>) returns (o: Option<Job>)
    ensures Attainable(g, im, m, o)
  {
    if k :| k in m && Relevant(g, im, k, m[k]) {
      o := Some(m[k]);
    } else {
      o := None;
    }
  }

  /** With at most one relevant Job the lookup does not depend on the order at all. */
  lemma LookupOrderIndependent(g: Config, im: Image, m: map<JobKey, Job>, order: seq<JobKey>, order': seq<JobKey>)
    requires Enumerates(g, g.hash(im.spec), m, order) && Enumerates(g, g.hash(im.spec), m, order')
    requires forall j, k :: j in m && k in m && Relevant(g, im, j, m[j]) && Relevant(g, im, k, m[k]) ==> j == k
    ensures FindJob(m, order, im.uid) == FindJob(m, order', im.uid)
  {
    var o, o' := FindJob(m, order, im.uid), FindJob(m, order', im.uid);
    LookupExact(g, im, m, o);
    LookupExact(g, im, m, o');
    assert Attainable(g, im, m, o) && Attainable(g, im, m, o');
  }

  // ---------- Jobs that cannot change unnoticed ----------

  /** A Job that carries the object's label and has any owner notifies the object. */
  ghost predicate Accountable(g: Config, job: Job) {
    HasLabel(job, LABEL_MANAGED_BY, g.name) && job.owners != [] ==> Notifies(g, job)
  }

  /** The same, spelled out: its owner with the object's kind and name is marked as controller. */
  lemma AccountableMeans(g: Config, job: Job)
    ensures Accountable(g, job) <==>
            (&& "karpenter.algo7.dev/pvenodeimage" in job.labels
             && job.labels["karpenter.algo7.dev/pvenodeimage"] == g.name
             && job.owners != [] ==>
               exists i :: 0 <= i < |job.owners|
                 && job.owners[i].controller && job.owners[i].kind == "PVENodeImage" && job.owners[i].name == g.name)
  {
  }

  ghost predicate AllAccountable(g: Config, m: map<JobKey, Job>) {
    forall k :: k in m ==> Accountable(g, m[k])
  }

  /** Job changes that do not wake the controller do not matter to it. */
  lemma SilentChange(g: Config, im: Image, m: map<JobKey, Job>, m': map<JobKey, Job>, o: Option<Job>)
    requires AllAccountable(g, m) && AllAccountable(g, m') && !Wakes(g, m, m')
    ensures Attainable(g, im, m, o) <==> Attainable(g, im, m', o)
  {
    forall k | k in m.Keys + m'.Keys
      ensures k in m && Relevant(g, im, k, m[k]) ==> k in m' && m'[k] == m[k]
      ensures k in m' && Relevant(g, im, k, m'[k]) ==> k in m && m[k] == m'[k]
    {
    }
    if Attainable(g, im, m, o) && o.Some? {
      var k :| k in m && Relevant(g, im, k, m[k]) && m[k] == o.value;
      assert k in m.Keys + m'.Keys;
    }
    if Attainable(g, im, m', o) && o.Some? {
      var k :| k in m' && Relevant(g, im, k, m'[k]) && m'[k] == o.value;
      assert k in m.Keys + m'.Keys;
    }
    if o.None? {
      assert forall k :: k in m || k in m' ==> k in m.Keys + m'.Keys;
    }
  }

  // ---------- Rest ----------

  /** A pass over `im` that finds `o` would change nothing but the build time, and ask for no requeue. */
  predicate Settles(g: Config, im: Image, o: Option<Job>, now: nat) {
    var out := Decide(g.hash(im.spec), im, o, now);
    SameButBuildTime(out.status, im.status) && out.requeue == NoRequeue
  }

  ghost predicate Quiet(g: Config, im: Option<Image>, m: map<JobKey, Job>) {
    im.Some? && !im.value.deleting ==>
      exists o, now :: Attainable(g, im.value, m, o) && Settles(g, im.value, o, now)
  }

  /** What each phase of the pass owes to the next one. */
  ghost predicate Awake(g: Config, s: Cluster)
    requires Shaped(s)
  {
    s.queued || |s.images| > 1 ||
    match s.pass
    case Idle => s.timer.Some? || Quiet(g, Cached(s), CachedJobs(s))
    case Started => true
    case Fetched(snap, _) => Cached(s) == Some(snap) && !snap.deleting
    case Listed(snap, _, job) =>
      && Cached(s) == Some(snap) && !snap.deleting
      && Attainable(g, snap, CachedJobs(s), job)
      && !IsCurrent(g.hash(snap.spec), snap.status)
    case Returning(requeue) => requeue != NoRequeue || Quiet(g, Cached(s), CachedJobs(s))
  }

  ghost predicate JobsAccountable(g: Config, s: Cluster) {
    forall i :: 0 <= i < |s.jobs| ==> AllAccountable(g, s.jobs[i])
  }

  /** The one thing asked of whoever creates Jobs. */
  ghost predicate Fair(g: Config, a: Action) {
    a.PutJob? ==> Accountable(g, a.job)
  }

  lemma StepAccountable(g: Config, s: Cluster, a: Action)
    requires Shaped(s) && Enabled(g, s, a) && JobsAccountable(g, s) && Fair(g, a)
    ensures JobsAccountable(g, Step(g, s, a))
  {
  }

  lemma WriteAwake(g: Config, s: Cluster, fault: Fault)
    requires Inv(g, s) && Ready(g, s.pass) && Awake(g, s)
    ensures Awake(g, WriteStep(g, s, fault))
  {
    WriteStored(g, s, fault);
    var s', snap, out := WriteStep(g, s, fault), s.pass.snap, OutcomeOf(g, s.pass);
    if !s'.queued && |s'.images| == 1 && s'.pass.requeue == NoRequeue {
      assert s'.images == s.images;
      var o := if s.pass.Listed? then s.pass.job else None;
      assert Settles(g, snap, o, s.pass.now) by {
        if out.changed {
          AcceptedIsSnap(g, s);
        }
      }
      if !s.pass.Listed? {
        o := SomeAttainable(g, snap, CachedJobs(s));
        assert Decide(g.hash(snap.spec), snap, o, s.pass.now) == out;
      }
      assert Attainable(g, snap, CachedJobs(s), o) && Settles(g, snap, o, s.pass.now);
    }
  }

  lemma DeliverJobsAwake(g: Config, s: Cluster)
    requires Shaped(s) && |s.jobs| > 1 && JobsAccountable(g, s) && Awake(g, s)
    ensures Awake(g, Step(g, s, DeliverJobs))
  {
    var s' := Step(g, s, DeliverJobs);
    if !s'.queued && |s'.images| == 1 {
      assert !Wakes(g, s.jobs[0], s.jobs[1]);
      if s.pass.Listed? {
        SilentChange(g, s.pass.snap, s.jobs[0], s.jobs[1], s.pass.job);
      } else if (s.pass.Idle? || s.pass.Returning?) && Quiet(g, Cached(s), s.jobs[0])
                && Cached(s).Some? && !Cached(s).value.deleting {
        var im := Cached(s).value;
        var o, now :| Attainable(g, im, s.jobs[0], o) && Settles(g, im, o, now);
        SilentChange(g, im, s.jobs[0], s.jobs[1], o);
        assert Attainable(g, im, s.jobs[1], o) && Settles(g, im, o, now);
        assert Quiet(g, Cached(s'), CachedJobs(s'));
      }
    }
  }

  lemma ListAwake(g: Config, s: Cluster, order: seq<JobKey>)
    requires Shaped(s) && Enabled(g, s, List(order)) && Awake(g, s)
    ensures Awake(g, Step(g, s, List(order)))
  {
    var snap := s.pass.snap;
    LookupExact(g, snap, CachedJobs(s), FindJob(CachedJobs(s), order, snap.uid));
  }

  lemma StepAwake(g: Config, s: Cluster, a: Action)
    requires Inv(g, s) && Enabled(g, s, a) && JobsAccountable(g, s) && Awake(g, s)
    ensures Awake(g, Step(g, s, a))
  {
    match a
    case Write(fault) => WriteAwake(g, s, fault);
    case DeliverJobs => DeliverJobsAwake(g, s);
    case List(order) => ListAwake(g, s, order);
    case _ =>
  }

  lemma {:induction false} RunAwake(g: Config, states: seq<Cluster>, acts: seq<Action>, n: nat)
    requires IsRun(g, states, acts) && n <= |acts|
    requires JobsAccountable(g, states[0]) && forall i :: 0 <= i < |acts| ==> Fair(g, acts[i])
    ensures JobsAccountable(g, states[n]) && Awake(g, states[n])
  {
    if n > 0 {
      RunAwake(g, states, acts, n - 1);
      RunInv(g, states, acts, n - 1);
      StepAccountable(g, states[n - 1], acts[n - 1]);
      StepAwake(g, states[n - 1], acts[n - 1]);
    }
  }

  // ---------- Main result ----------

  /** Something will make the controller look at the object again: a queued key, a timer, a pass in
      flight, a version of the object not yet delivered, or a Job change not yet delivered that wakes. */
  ghost predicate Pending(g: Config, s: Cluster) {
    || s.queued || s.timer.Some? || !s.pass.Idle?
    || |s.images| > 1
    || exists i :: 0 <= i < |s.jobs| - 1 && Wakes(g, s.jobs[i], s.jobs[i + 1])
  }

  lemma {:induction false} SilentTail(g: Config, s: Cluster, im: Image, o: Option<Job>, n: nat)
    requires n < |s.jobs| && JobsAccountable(g, s)
    requires forall i :: 0 <= i < |s.jobs| - 1 ==> !Wakes(g, s.jobs[i], s.jobs[i + 1])
    ensures Attainable(g, im, s.jobs[0], o) <==> Attainable(g, im, s.jobs[n], o)
  {
    if n > 0 {
      SilentTail(g, s, im, o, n - 1);
      SilentChange(g, im, s.jobs[n - 1], s.jobs[n], o);
    }
  }

  /** The relevant Jobs, if they are consulted at all, tell the same story. */
  ghost predicate Agree(g: Config, im: Image, m: map<JobKey, Job>) {
    || IsCurrent(g.hash(im.spec), im.status)
    || forall j, k :: j in m && k in m && Relevant(g, im, j, m[j]) && Relevant(g, im, k, m[k]) ==>
         Verdict(Some(m[j])) == Verdict(Some(m[k]))
  }

  /** Once settled for one lookup result, a pass settles for another exactly when the verdicts agree. */
  lemma SettlesAgain(g: Config, im: Image, o: Option<Job>, now: nat, o': Option<Job>, now': nat)
    requires WellFormed(im) && Settles(g, im, o, now)
    ensures Settles(g, im, o', now') <==> IsCurrent(g.hash(im.spec), im.status) || Verdict(o) == Verdict(o')
  {
    var h := g.hash(im.spec);
    DecideConditions(h, im, o, now);
    DecideConditions(h, im, o', now');
    DecideQuiet(h, im, o, now);
    DecideQuiet(h, im, o', now');
  }

  lemma SettledIsNotBuilding(g: Config, im: Image, o: Option<Job>, now: nat)
    requires WellFormed(im) && Settles(g, im, o, now)
    ensures forall c :: c in im.status.conditions && c.kind == BUILDING ==> c.status == IsFalse
  {
    DecideConditions(g.hash(im.spec), im, o, now);
  }

  /** While the stored object says it is building, the controller will look again: at once, or at the
      latest when a timer less than one interval away fires. */
  lemma BuildingIsPolled(g: Config, states: seq<Cluster>, acts: seq<Action>, n: nat)
    requires IsRun(g, states, acts) && n <= |acts|
    requires JobsAccountable(g, states[0]) && forall i :: 0 <= i < |acts| ==> Fair(g, acts[i])
    requires Stored(states[n]).Some? && !Stored(states[n]).value.deleting
    requires exists c :: c in Stored(states[n]).value.status.conditions && c.kind == BUILDING && c.status == IsTrue
    ensures var s := states[n];
            || s.queued || !s.pass.Idle? || |s.images| > 1
            || (s.timer.Some? && s.timer.value <= s.clock + 30)
  {
    RunAwake(g, states, acts, n);
    RunInv(g, states, acts, n);
    var s := states[n];
    var im := Stored(s).value;
    assert Known(s, im);
    if |s.images| == 1 && Quiet(g, Some(im), s.jobs[0]) {
      var o, now :| Attainable(g, im, s.jobs[0], o) && Settles(g, im, o, now);
      SettledIsNotBuilding(g, im, o, now);
    }
  }

  /** No lost wakeup.  In a reachable state with nothing pending, a live object does not say it is
      building, and some pass over it would change nothing.  Every pass would, whatever order the
      cache lists the Jobs in, exactly when its relevant Jobs agree. */
  lemma NoLostWakeup(g: Config, states: seq<Cluster>, acts: seq<Action>, n: nat)
    requires IsRun(g, states, acts) && n <= |acts|
    requires JobsAccountable(g, states[0]) && forall i :: 0 <= i < |acts| ==> Fair(g, acts[i])
    requires !Pending(g, states[n]) && Stored(states[n]).Some? && !Stored(states[n]).value.deleting
    ensures var im, m := Stored(states[n]).value, LatestJobs(states[n]);
            && (forall c :: c in im.status.conditions && c.kind == BUILDING ==> c.status == IsFalse)
            && (exists o, now :: Attainable(g, im, m, o) && Settles(g, im, o, now))
            && (Agree(g, im, m) <==> forall o, now :: Attainable(g, im, m, o) ==> Settles(g, im, o, now))
  {
    RunAwake(g, states, acts, n);
    RunInv(g, states, acts, n);
    var s := states[n];
    var im, m := Stored(s).value, LatestJobs(s);
    assert Known(s, im);
    assert Quiet(g, Some(im), s.jobs[0]);
    var o, now :| Attainable(g, im, s.jobs[0], o) && Settles(g, im, o, now);
    SilentTail(g, s, im, o, |s.jobs| - 1);
    assert Attainable(g, im, m, o);
    SettledIsNotBuilding(g, im, o, now);
    AgreeExact(g, im, m, o, now);
  }

  lemma AgreeExact(g: Config, im: Image, m: map<JobKey, Job>, o: Option<Job>, now: nat)
    requires WellFormed(im) && Attainable(g, im, m, o) && Settles(g, im, o, now)
    ensures Agree(g, im, m) <==> forall o', now' :: Attainable(g, im, m, o') ==> Settles(g, im, o', now')
  {
    if Agree(g, im, m) {
      forall o', now' | Attainable(g, im, m, o')
        ensures Settles(g, im, o', now')
      {
        SettlesAgain(g, im, o, now, o', now');
      }
    } else {
      var j, k :| j in m && k in m && Relevant(g, im, j, m[j]) && Relevant(g, im, k, m[k]) &&
                  Verdict(Some(m[j])) != Verdict(Some(m[k]));
      SettlesAgain(g, im, o, now, Some(m[j]), now);
      SettlesAgain(g, im, o, now, Some(m[k]), now);
      assert Attainable(g, im, m, Some(m[j])) && Attainable(g, im, m, Some(m[k]));
    }
  }

  /** The same state when all Jobs are gone. */
  function Jobless(s: Cluster): Cluster {
    s.(jobs := [map[]])
  }

  /** A Job that does not notify the object goes away. */
  lemma DropsSilently(g: Config, s: Cluster, key: JobKey, job: Job)
    requires Shaped(s) && s.jobs == [map[key := job]] && !Notifies(g, job)
    ensures Enabled(g, s, DropJob(key)) && Enabled(g, Step(g, s, DropJob(key)), DeliverJobs)
    ensures Step(g, Step(g, s, DropJob(key)), DeliverJobs) == Jobless(s)
  {
    var none: map<JobKey, Job> := map[];
    assert map[key := job] - {key} == none;
    assert !Wakes(g, map[key := job], none);
    var mid := Step(g, s, DropJob(key));
    assert mid.jobs == [map[key := job], none];
  }

  /** Without Jobs every pass asks for a requeue, and one over an object that had settled changes it. */
  lemma JoblessUnsettles(g: Config, im: Image, job: Job, before: nat, o: Option<Job>, now: nat)
    requires WellFormed(im) && !IsCurrent(g.hash(im.spec), im.status) && Attainable(g, im, map[], o)
    ensures o == None && !Settles(g, im, o, now)
    ensures Settles(g, im, Some(job), before) ==>
              !SameButBuildTime(Decide(g.hash(im.spec), im, o, now).status, im.status)
  {
    if Settles(g, im, Some(job), before) {
      SettledIsNotBuilding(g, im, Some(job), before);
      DecideConditions(g.hash(im.spec), im, o, now);
    }
  }

  /** Why Jobs must be accountable: while nothing is pending, a Job that the object owns but that does
      not notify it can vanish, and still nothing is pending, although every pass would now ask for a
      requeue; and if the controller had settled on the Job, every pass would now change the status. */
  lemma UnaccountableIsLost(g: Config, s: Cluster, im: Image, key: JobKey, job: Job, before: nat)
    requires Inv(g, s) && s.images == [Some(im)] && s.jobs == [map[key := job]] && !im.deleting
    requires !s.queued && s.timer.None? && s.pass.Idle?
    requires Relevant(g, im, key, job) && !Accountable(g, job)
    requires !IsCurrent(g.hash(im.spec), im.status)
    ensures Enabled(g, s, DropJob(key)) && Enabled(g, Step(g, s, DropJob(key)), DeliverJobs)
    ensures Step(g, Step(g, s, DropJob(key)), DeliverJobs) == Jobless(s)
    ensures Shaped(Jobless(s)) && !Pending(g, Jobless(s)) && Attainable(g, im, map[], None)
    ensures forall o, now :: Attainable(g, im, map[], o) ==> !Settles(g, im, o, now)
    ensures Settles(g, im, Some(job), before) ==>
              forall o, now :: Attainable(g, im, map[], o) ==>
                !SameButBuildTime(Decide(g.hash(im.spec), im, o, now).status, im.status)
  {
    assert Known(s, im);
    DropsSilently(g, s, key, job);
    forall o, now | Attainable(g, im, map[], o)
      ensures !Settles(g, im, o, now)
      ensures Settles(g, im, Some(job), before) ==>
                !SameButBuildTime(Decide(g.hash(im.spec), im, o, now).status, im.status)
    {
      JoblessUnsettles(g, im, job, before, o, now);
    }
  }
}
