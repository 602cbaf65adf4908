/** What passes find and report, one after the other, while the caches lag behind. */
module Phases {
  import opened Options
  import opened NodeImages
  import opened Decisions
  import opened Clusters
  import opened Invariants
  import opened Wakeup
  import opened Progress
  import opened StatusWrites

  // ---------- What a pass finds ----------

  predicate IsCurrentImage(g: Config, im: Image) {
    IsCurrent(g.hash(im.spec), im.status)
  }

  /** The phase a pass has found, once it has: at the read, if the object it read is current, and
      otherwise when it has looked for a Job. */
  function Found(g: Config, p: Pass): Option<Phase> {
    if Ready(g, p) then Some(PhaseOf(g.hash(p.snap.spec), p.snap.status, if p.Listed? then p.job else None))
    else None
  }

  /** What step i of a run finds. */
  ghost function FindsAt(g: Config, states: seq<Cluster>, acts: seq<Action>, i: nat): Option<Phase>
    requires |states| == |acts| + 1 && i < |acts|
  {
    if acts[i].Read? || acts[i].List? then Found(g, states[i + 1].pass) else None
  }

  // ---------- The versions on their way to the caches ----------

  predicate ImagesAscend(g: Config, im0: Image, xs: seq<Option<Image>>) {
    && (forall i :: 0 <= i < |xs| ==> xs[i].Some? && xs[i].value.uid == im0.uid && xs[i].value.spec == im0.spec)
    && (forall i, j :: 0 <= i <= j < |xs| && IsCurrentImage(g, xs[i].value) ==> IsCurrentImage(g, xs[j].value))
  }

  ghost predicate JobsAscend(g: Config, im0: Image, js: seq<map<JobKey, Job>>) {
    && (forall i :: 0 <= i < |js| ==> AtMostOne(g, im0, js[i]))
    && (forall i, j :: 0 <= i <= j < |js| ==> JobRank(g, im0, js[i]) <= JobRank(g, im0, js[j]))
  }

  /** Versions of one object with one spec, each at least as far as the one before it, and Jobs likewise. */
  ghost predicate Feeds(g: Config, s: Cluster, im0: Image) {
    && Inv(g, s)
    && ImagesAscend(g, im0, s.images)
    && JobsAscend(g, im0, s.jobs)
    && (s.pass.Fetched? || s.pass.Listed? ==>
          && s.pass.snap.uid == im0.uid && s.pass.snap.spec == im0.spec
          && (IsCurrentImage(g, s.pass.snap) ==> IsCurrentImage(g, s.images[0].value)))
  }

  ghost predicate AllCurrent(g: Config, s: Cluster) {
    && (forall i :: 0 <= i < |s.images| ==> s.images[i].Some? && IsCurrentImage(g, s.images[i].value))
    && (s.pass.Fetched? || s.pass.Listed? ==> IsCurrentImage(g, s.pass.snap))
  }

  ghost predicate JobsAbove(g: Config, s: Cluster, im0: Image, r: nat) {
    && r <= 2
    && (forall i :: 0 <= i < |s.jobs| ==> JobRank(g, im0, s.jobs[i]) >= r)
    && (s.pass.Listed? ==> RankOf(Found(g, s.pass).value) >= r)
  }

  /** Nothing that a pass has found or will find is below rank r. */
  ghost predicate Floor(g: Config, s: Cluster, im0: Image, r: nat) {
    AllCurrent(g, s) || JobsAbove(g, s, im0, r)
  }

  // ---------- Steps ----------

  /** What a step does to the versions of the object. */
  predicate ImagesMove(s: Cluster, a: Action, s': Cluster)
    requires Shaped(s)
  {
    && Shaped(s') && Stored(s').Some?
    && (|| s'.images == s.images || s'.images == s.images + [Stored(s')]
        || (a.DeliverImage? && s'.images == s.images[1..]) || (a.Restart? && s'.images == [Stored(s)]))
  }

  lemma OtherImages(g: Config, s: Cluster, a: Action)
    requires Shaped(s) && Enabled(g, s, a) && Stored(s).Some? && !a.Remove? && !a.Write?
    ensures ImagesMove(s, a, Step(g, s, a))
  {
  }

  lemma ImagesStep(g: Config, s: Cluster, a: Action)
    requires Inv(g, s) && Enabled(g, s, a) && Stored(s).Some? && !a.Remove?
    ensures ImagesMove(s, a, Step(g, s, a))
  {
    if a.Write? {
      WriteStored(g, s, a.fault);
    } else {
      OtherImages(g, s, a);
    }
  }

  lemma JobsStep(g: Config, s: Cluster, a: Action)
    requires Inv(g, s) && Enabled(g, s, a)
    ensures var s' := Step(g, s, a);
            && Shaped(s')
            && (|| s'.jobs == s.jobs || s'.jobs == s.jobs + [LatestJobs(s')]
                || (a.DeliverJobs? && s'.jobs == s.jobs[1..]) || (a.Restart? && s'.jobs == [LatestJobs(s)]))
  {
    if a.Write? {
      WriteStored(g, s, a.fault);
    }
  }

  /** What a step does to the pass. */
  lemma PassStep(g: Config, s: Cluster, a: Action)
    requires Inv(g, s) && Enabled(g, s, a)
    ensures var s' := Step(g, s, a);
            || s'.pass == s.pass
            || (!s'.pass.Fetched? && !s'.pass.Listed?)
            || (a.Read? && s'.pass.Fetched? && Some(s'.pass.snap) == s.images[0] && s'.images == s.images
                && s'.jobs == s.jobs)
            || (a.List? && s.pass.Fetched? && !Ready(g, s.pass) && s'.pass.Listed? && s'.pass.snap == s.pass.snap
                && Attainable(g, s.pass.snap, s.jobs[0], s'.pass.job) && s'.images == s.images && s'.jobs == s.jobs)
  {
    if a.Write? {
      WriteStored(g, s, a.fault);
    } else if a.List? {
      LookupExact(g, s.pass.snap, CachedJobs(s), FindJob(CachedJobs(s), a.order, s.pass.snap.uid));
    }
  }

  /** The pass is past its read or list in the same way, or past it no longer, or just now. */
  lemma PassKept(g: Config, s: Cluster, a: Action)
    requires Inv(g, s) && Enabled(g, s, a) && !a.Read? && !a.List?
    ensures Step(g, s, a).pass == s.pass || (!Step(g, s, a).pass.Fetched? && !Step(g, s, a).pass.Listed?)
  {
    PassStep(g, s, a);
  }

  /** A forward step of the run, with at most one relevant Job after it. */
  ghost predicate Proceeds(g: Config, s: Cluster, a: Action, s': Cluster, im0: Image) {
    && Feeds(g, s, im0) && Enabled(g, s, a) && s' == Step(g, s, a) && Forward(g, s, a)
    && Shaped(s') && AtMostOne(g, im0, LatestJobs(s'))
  }

  lemma ImagesFeedOn(g: Config, im0: Image, xs: seq<Option<Image>>, ys: seq<Option<Image>>)
    requires xs != [] && ys != [] && ImagesAscend(g, im0, xs)
    requires var last := ys[|ys| - 1];
             last.Some? && last.value.uid == im0.uid && last.value.spec == im0.spec
             && (IsCurrentImage(g, xs[|xs| - 1].value) ==> IsCurrentImage(g, last.value))
    requires ys == xs || ys == xs + [ys[|ys| - 1]] || ys == xs[1..] || ys == [xs[|xs| - 1]]
    ensures ImagesAscend(g, im0, ys)
    ensures IsCurrentImage(g, xs[0].value) ==> forall i :: 0 <= i < |ys| ==> IsCurrentImage(g, ys[i].value)
  {
  }

  lemma ImagesFeed(g: Config, s: Cluster, a: Action, s': Cluster, im0: Image)
    requires Proceeds(g, s, a, s', im0)
    ensures ImagesAscend(g, im0, s'.images)
    ensures IsCurrentImage(g, s.images[0].value) ==>
              forall i :: 0 <= i < |s'.images| ==> IsCurrentImage(g, s'.images[i].value)
  {
    assert Stored(s) == s.images[|s.images| - 1];
    ImagesStep(g, s, a);
    StepFollows(g, s, a);
    CurrentStays(g, s, a, s');
    ImagesFeedOn(g, im0, s.images, s'.images);
  }

  lemma LastOneOnly(g: Config, im0: Image, js: seq<map<JobKey, Job>>, js': seq<map<JobKey, Job>>)
    requires js != [] && js' != [] && forall i :: 0 <= i < |js| ==> AtMostOne(g, im0, js[i])
    requires AtMostOne(g, im0, js'[|js'| - 1])
    requires js' == js || js' == js + [js'[|js'| - 1]] || js' == js[1..] || js' == [js[|js| - 1]]
    ensures forall i :: 0 <= i < |js'| ==> AtMostOne(g, im0, js'[i])
  {
  }

  lemma RanksFeedOn(g: Config, im0: Image, js: seq<map<JobKey, Job>>, js': seq<map<JobKey, Job>>)
    requires js != [] && js' != []
    requires forall i, j :: 0 <= i <= j < |js| ==> JobRank(g, im0, js[i]) <= JobRank(g, im0, js[j])
    requires JobRank(g, im0, js'[|js'| - 1]) >= JobRank(g, im0, js[|js| - 1])
    requires js' == js || js' == js + [js'[|js'| - 1]] || js' == js[1..] || js' == [js[|js| - 1]]
    ensures forall i, j :: 0 <= i <= j < |js'| ==> JobRank(g, im0, js'[i]) <= JobRank(g, im0, js'[j])
    ensures forall i :: 0 <= i < |js'| ==> JobRank(g, im0, js'[i]) >= JobRank(g, im0, js[0])
  {
  }

  lemma JobsFeedOn(g: Config, im0: Image, js: seq<map<JobKey, Job>>, js': seq<map<JobKey, Job>>)
    requires js != [] && js' != [] && JobsAscend(g, im0, js)
    requires AtMostOne(g, im0, js'[|js'| - 1])
    requires JobRank(g, im0, js'[|js'| - 1]) >= JobRank(g, im0, js[|js| - 1])
    requires js' == js || js' == js + [js'[|js'| - 1]] || js' == js[1..] || js' == [js[|js| - 1]]
    ensures JobsAscend(g, im0, js')
    ensures forall i :: 0 <= i < |js'| ==> JobRank(g, im0, js'[i]) >= JobRank(g, im0, js[0])
  {
    LastOneOnly(g, im0, js, js');
    RanksFeedOn(g, im0, js, js');
  }

  lemma LatestAscends(g: Config, s: Cluster, a: Action, s': Cluster, im0: Image)
    requires Proceeds(g, s, a, s', im0)
    ensures JobRank(g, im0, LatestJobs(s')) >= JobRank(g, im0, LatestJobs(s))
  {
    assert Stored(s) == s.images[|s.images| - 1];
    var im := Stored(s).value;
    StepJobsKept(g, s, a, s');
    JobRankGrows(g, im, LatestJobs(s), LatestJobs(s'));
    JobRankSame(g, im, im0, LatestJobs(s));
    JobRankSame(g, im, im0, LatestJobs(s'));
  }

  lemma JobsFeed(g: Config, s: Cluster, a: Action, s': Cluster, im0: Image)
    requires Proceeds(g, s, a, s', im0)
    ensures JobsAscend(g, im0, s'.jobs)
    ensures forall i :: 0 <= i < |s'.jobs| ==> JobRank(g, im0, s'.jobs[i]) >= JobRank(g, im0, s.jobs[0])
  {
    JobsStep(g, s, a);
    LatestAscends(g, s, a, s', im0);
    JobsFeedOn(g, im0, s.jobs, s'.jobs);
  }

  lemma StepFeeds(g: Config, s: Cluster, a: Action, s': Cluster, im0: Image)
    requires Proceeds(g, s, a, s', im0)
    ensures Feeds(g, s', im0)
  {
    StepInv(g, s, a);
    ImagesFeed(g, s, a, s', im0);
    JobsFeed(g, s, a, s', im0);
    PassStep(g, s, a);
  }

  /** A lookup finds the rank of the cached Jobs. */
  lemma ListFinds(g: Config, s: Cluster, snap: Image, o: Option<Job>, im0: Image, m: map<JobKey, Job>)
    requires snap.uid == im0.uid && snap.spec == im0.spec && !IsCurrentImage(g, snap)
    requires Attainable(g, snap, m, o) && AtMostOne(g, im0, m)
    ensures RankOf(Verdict(o)) == JobRank(g, im0, m)
  {
    assert forall k, job: Job :: Relevant(g, snap, k, job) <==> Relevant(g, im0, k, job);
    RankIsPhase(g, snap, m, o);
    JobRankSame(g, im0, snap, m);
  }

  lemma StepFloor(g: Config, s: Cluster, a: Action, s': Cluster, im0: Image, r: nat)
    requires Proceeds(g, s, a, s', im0) && Floor(g, s, im0, r)
    ensures Floor(g, s', im0, r)
  {
    ImagesFeed(g, s, a, s', im0);
    JobsFeed(g, s, a, s', im0);
    PassStep(g, s, a);
    if a.List? && s'.pass.Listed? && s'.pass != s.pass {
      ListFinds(g, s, s.pass.snap, s'.pass.job, im0, s.jobs[0]);
    }
  }

  /** What a pass has just found is a floor for all that is found after it. */
  lemma FoundIsFloor(g: Config, s: Cluster, a: Action, s': Cluster, im0: Image)
    requires Proceeds(g, s, a, s', im0) && (a.Read? || a.List?) && Found(g, s'.pass).Some?
    ensures Floor(g, s', im0, RankOf(Found(g, s'.pass).value))
  {
    ImagesFeed(g, s, a, s', im0);
    PassStep(g, s, a);
    if a.List? {
      ListFinds(g, s, s.pass.snap, s'.pass.job, im0, s.jobs[0]);
    }
  }

  lemma FloorHolds(g: Config, s: Cluster, im0: Image, r: nat)
    requires Floor(g, s, im0, r) && r <= 3 && Found(g, s.pass).Some?
    ensures RankOf(Found(g, s.pass).value) >= r
  {
  }

  // ---------- Runs ----------

  /** The caches have caught up, and no pass is under way. */
  ghost predicate CaughtUp(g: Config, s: Cluster, im0: Image, m0: map<JobKey, Job>) {
    Inv(g, s) && s.images == [Some(im0)] && s.jobs == [m0] && s.pass.Idle?
  }

  /** The run proceeds from caught-up caches, with at most one relevant Job at any time. */
  ghost predicate ForwardRun(g: Config, states: seq<Cluster>, acts: seq<Action>, im0: Image, m0: map<JobKey, Job>) {
    && Connects(g, states, acts) && AllForward(g, states, acts) && CaughtUp(g, states[0], im0, m0)
    && forall i :: 0 <= i < |states| ==> AtMostOne(g, im0, LatestJobs(states[i]))
  }

  lemma NextProceeds(
    g: Config, states: seq<Cluster>, acts: seq<Action>, im0: Image, m0: map<JobKey, Job>, n: nat, s: Cluster, a: Action,
    s': Cluster)
    requires ForwardRun(g, states, acts, im0, m0) && n < |acts| && Feeds(g, states[n], im0)
    requires s == states[n] && a == acts[n] && s' == states[n + 1]
    ensures Proceeds(g, s, a, s', im0)
  {
  }

  lemma {:induction false} RunFeeds(
    g: Config, states: seq<Cluster>, acts: seq<Action>, im0: Image, m0: map<JobKey, Job>, n: nat)
    requires ForwardRun(g, states, acts, im0, m0) && n <= |acts|
    ensures Feeds(g, states[n], im0)
  {
    if n > 0 {
      RunFeeds(g, states, acts, im0, m0, n - 1);
      NextProceeds(g, states, acts, im0, m0, n - 1, states[n - 1], acts[n - 1], states[n]);
      StepFeeds(g, states[n - 1], acts[n - 1], states[n], im0);
    }
  }

  lemma NextFloor(
    g: Config, states: seq<Cluster>, acts: seq<Action>, im0: Image, m0: map<JobKey, Job>, r: nat, n: nat)
    requires ForwardRun(g, states, acts, im0, m0) && n < |acts| && Floor(g, states[n], im0, r)
    ensures Floor(g, states[n + 1], im0, r)
  {
    var s, a, s' := states[n], acts[n], states[n + 1];
    RunFeeds(g, states, acts, im0, m0, n);
    NextProceeds(g, states, acts, im0, m0, n, s, a, s');
    StepFloor(g, s, a, s', im0, r);
  }

  lemma {:induction false} RunFloor(
    g: Config, states: seq<Cluster>, acts: seq<Action>, im0: Image, m0: map<JobKey, Job>, r: nat, i: nat, j: nat)
    requires ForwardRun(g, states, acts, im0, m0) && i <= j <= |acts| && Floor(g, states[i], im0, r)
    ensures Floor(g, states[j], im0, r)
  {
    if i < j {
      RunFloor(g, states, acts, im0, m0, r, i, j - 1);
      NextFloor(g, states, acts, im0, m0, r, j - 1);
    }
  }

  /** Phase progress, as passes find it.  With a fixed spec, Jobs that stay, verdicts that last and at
      most one relevant Job, the phases that successive passes find, in caches however far behind, never
      fall in the order no Job, running, finished, current. */
  lemma PassesAdvance(
    g: Config, states: seq<Cluster>, acts: seq<Action>, im0: Image, m0: map<JobKey, Job>, i: nat, j: nat)
    requires ForwardRun(g, states, acts, im0, m0) && i <= j < |acts|
    requires FindsAt(g, states, acts, i).Some? && FindsAt(g, states, acts, j).Some?
    ensures RankOf(FindsAt(g, states, acts, i).value) <= RankOf(FindsAt(g, states, acts, j).value)
  {
    var r := RankOf(FindsAt(g, states, acts, i).value);
    RunFeeds(g, states, acts, im0, m0, i);
    NextProceeds(g, states, acts, im0, m0, i, states[i], acts[i], states[i + 1]);
    FoundIsFloor(g, states[i], acts[i], states[i + 1], im0);
    RunFloor(g, states, acts, im0, m0, r, i + 1, j + 1);
    FloorHolds(g, states[j + 1], im0, r);
  }

  // ---------- What the stored conditions report ----------

  /** No phase that is reported, or about to be, is above what will be found from now on. */
  ghost predicate ReportsBelow(g: Config, s: Cluster, im0: Image)
    requires Shaped(s) && Stored(s).Some?
  {
    && (forall p :: Reported(Stored(s).value, p) ==> Floor(g, s, im0, RankOf(p)))
    && (Found(g, s.pass).Some? ==> Floor(g, s, im0, RankOf(Found(g, s.pass).value)))
  }

  lemma OtherGenerations(g: Config, s: Cluster, a: Action)
    requires Shaped(s) && Enabled(g, s, a) && Stored(s).Some? && !a.Remove? && !a.Write?
    ensures var s' := Step(g, s, a);
            Shaped(s') && Stored(s').Some? && Stored(s').value.generation >= Stored(s).value.generation
  {
  }

  lemma GenerationStep(g: Config, s: Cluster, a: Action)
    requires Inv(g, s) && Enabled(g, s, a) && Stored(s).Some? && !a.Remove?
    ensures var s' := Step(g, s, a);
            Shaped(s') && Stored(s').Some? && Stored(s').value.generation >= Stored(s).value.generation
  {
    if a.Write? {
      WriteStored(g, s, a.fault);
    } else {
      OtherGenerations(g, s, a);
    }
  }

  lemma OldReports(im: Image, im': Image, q: Phase)
    requires WellFormed(im) && im'.generation >= im.generation && im'.status.conditions == im.status.conditions
    ensures Reported(im', q) ==> Reported(im, q)
  {
  }

  lemma NewReports(g: Config, s: Cluster, s': Cluster, im: Image, im': Image, q: Phase)
    requires Inv(g, s) && Stored(s) == Some(im) && im'.generation == im.generation
    requires Ready(g, s.pass) && s.pass.snap == im && im'.status == OutcomeOf(g, s.pass).status
    ensures Reported(im', q) ==> Found(g, s.pass) == Some(q)
  {
    assert Known(s, im);
    var o := if s.pass.Listed? then s.pass.job else None;
    DecisionReports(g, im, o, s.pass.now, im'.resourceVersion);
    if Reported(im', q) {
      ReportsOne(im', q, Found(g, s.pass).value);
    }
  }

  lemma WriteGeneration(g: Config, s: Cluster, fault: Fault)
    requires Inv(g, s) && Ready(g, s.pass) && Stored(s).Some? && WriteStep(g, s, fault).images != s.images
    ensures var s' := WriteStep(g, s, fault);
            Shaped(s') && Stored(s').Some? && Stored(s').value.generation == Stored(s).value.generation
  {
    WriteStored(g, s, fault);
  }

  /** A step that changes what is reported stores what the pass in flight has found. */
  lemma StepReports(g: Config, s: Cluster, a: Action, s': Cluster, q: Phase)
    requires Inv(g, s) && Enabled(g, s, a) && s' == Step(g, s, a) && Stored(s).Some? && !a.Remove?
    ensures Shaped(s') && Stored(s').Some?
    ensures Reported(Stored(s').value, q) ==>
              Reported(Stored(s).value, q) || (a.Write? && Found(g, s.pass) == Some(q))
  {
    GenerationStep(g, s, a);
    StepFollows(g, s, a);
    if a.Write? && s'.images != s.images {
      WriteGeneration(g, s, a.fault);
    }
    FollowsReports(g, s, a, s', Stored(s).value, Stored(s').value, q);
  }

  lemma FollowsReports(g: Config, s: Cluster, a: Action, s': Cluster, im: Image, im': Image, q: Phase)
    requires Inv(g, s) && Follows(g, s, a, s') && Stored(s) == Some(im) && Stored(s') == Some(im')
    requires im'.generation >= im.generation
    requires a.Write? && s'.images != s.images ==> im'.generation == im.generation
    ensures Reported(im', q) ==> Reported(im, q) || (a.Write? && Found(g, s.pass) == Some(q))
  {
    assert Known(s, im);
    if im'.status.conditions == im.status.conditions {
      OldReports(im, im', q);
    } else {
      NewReports(g, s, s', im, im', q);
    }
  }

  lemma StepReportsBelow(g: Config, s: Cluster, a: Action, s': Cluster, im0: Image)
    requires Proceeds(g, s, a, s', im0) && Stored(s).Some? && ReportsBelow(g, s, im0)
    ensures Stored(s').Some? && ReportsBelow(g, s', im0)
  {
    assert Stored(s).Some?;
    StepReports(g, s, a, s', Current);
    forall p | Reported(Stored(s').value, p)
      ensures Floor(g, s', im0, RankOf(p))
    {
      StepReports(g, s, a, s', p);
      StepFloor(g, s, a, s', im0, RankOf(p));
    }
    if Found(g, s'.pass).Some? {
      if a.Read? || a.List? {
        FoundIsFloor(g, s, a, s', im0);
      } else {
        PassKept(g, s, a);
        StepFloor(g, s, a, s', im0, RankOf(Found(g, s.pass).value));
      }
    }
  }

  lemma StartReportsBelow(g: Config, s: Cluster, im0: Image, m0: map<JobKey, Job>)
    requires CaughtUp(g, s, im0, m0)
    requires forall p :: Reported(im0, p) ==> RankOf(p) <= Rank(g, im0, m0)
    ensures ReportsBelow(g, s, im0)
  {
  }

  lemma NextReportsBelow(
    g: Config, states: seq<Cluster>, acts: seq<Action>, im0: Image, m0: map<JobKey, Job>, n: nat)
    requires ForwardRun(g, states, acts, im0, m0) && n < |acts|
    requires Stored(states[n]).Some? && ReportsBelow(g, states[n], im0)
    ensures Stored(states[n + 1]).Some? && ReportsBelow(g, states[n + 1], im0)
  {
    var s, a, s' := states[n], acts[n], states[n + 1];
    RunFeeds(g, states, acts, im0, m0, n);
    NextProceeds(g, states, acts, im0, m0, n, s, a, s');
    StepReportsBelow(g, s, a, s', im0);
  }

  lemma {:induction false} RunReportsBelow(
    g: Config, states: seq<Cluster>, acts: seq<Action>, im0: Image, m0: map<JobKey, Job>, n: nat)
    requires ForwardRun(g, states, acts, im0, m0) && n <= |acts|
    requires ReportsBelow(g, states[0], im0)
    ensures Stored(states[n]).Some? && ReportsBelow(g, states[n], im0)
  {
    if n > 0 {
      RunReportsBelow(g, states, acts, im0, m0, n - 1);
      NextReportsBelow(g, states, acts, im0, m0, n - 1);
    }
  }

  /** All that is reported has at least rank r. */
  ghost predicate ReportsAbove(s: Cluster, r: nat)
    requires Shaped(s)
  {
    Stored(s).Some? && forall p :: Reported(Stored(s).value, p) ==> RankOf(p) >= r
  }

  lemma StepReportsAbove(g: Config, s: Cluster, a: Action, s': Cluster, im0: Image, r: nat)
    requires Proceeds(g, s, a, s', im0) && Floor(g, s, im0, r) && r <= 3 && ReportsAbove(s, r)
    ensures ReportsAbove(s', r)
  {
    StepReports(g, s, a, s', Current);
    forall q | Reported(Stored(s').value, q)
      ensures RankOf(q) >= r
    {
      StepReports(g, s, a, s', q);
      if Found(g, s.pass).Some? {
        FloorHolds(g, s, im0, r);
      }
    }
  }

  lemma NextReportsAbove(
    g: Config, states: seq<Cluster>, acts: seq<Action>, im0: Image, m0: map<JobKey, Job>, r: nat, n: nat)
    requires ForwardRun(g, states, acts, im0, m0) && n < |acts| && Floor(g, states[n], im0, r) && r <= 3
    requires ReportsAbove(states[n], r)
    ensures ReportsAbove(states[n + 1], r)
  {
    var s, a, s' := states[n], acts[n], states[n + 1];
    RunFeeds(g, states, acts, im0, m0, n);
    NextProceeds(g, states, acts, im0, m0, n, s, a, s');
    StepReportsAbove(g, s, a, s', im0, r);
  }

  /** Whatever is reported from state i on has at least rank r. */
  lemma {:induction false} RunReportsAbove(
    g: Config, states: seq<Cluster>, acts: seq<Action>, im0: Image, m0: map<JobKey, Job>, r: nat, i: nat, j: nat)
    requires ForwardRun(g, states, acts, im0, m0) && i <= j <= |acts| && Floor(g, states[i], im0, r) && r <= 3
    requires ReportsAbove(states[i], r)
    ensures ReportsAbove(states[j], r)
  {
    if i < j {
      RunReportsAbove(g, states, acts, im0, m0, r, i, j - 1);
      RunFloor(g, states, acts, im0, m0, r, i, j - 1);
      NextReportsAbove(g, states, acts, im0, m0, r, j - 1);
    }
  }

  /** Phase progress, as the conditions report it.  If at first nothing is reported for the present
      generation that the Jobs do not bear out, then the phases that the stored conditions report for
      the object's generation never fall. */
  lemma ReportsAdvance(
    g: Config, states: seq<Cluster>, acts: seq<Action>, im0: Image, m0: map<JobKey, Job>, i: nat, j: nat, p: Phase,
    q: Phase)
    requires ForwardRun(g, states, acts, im0, m0) && i <= j <= |acts|
    requires forall p' :: Reported(im0, p') ==> RankOf(p') <= Rank(g, im0, m0)
    ensures Stored(states[i]).Some? && Stored(states[j]).Some?
    ensures Reported(Stored(states[i]).value, p) && Reported(Stored(states[j]).value, q) ==> RankOf(p) <= RankOf(q)
  {
    StartReportsBelow(g, states[0], im0, m0);
    RunReportsBelow(g, states, acts, im0, m0, i);
    RunReportsBelow(g, states, acts, im0, m0, j);
    if Reported(Stored(states[i]).value, p) {
      OnlyReport(states[i], p);
      RunReportsAbove(g, states, acts, im0, m0, RankOf(p), i, j);
    }
  }

  lemma OnlyReport(s: Cluster, p: Phase)
    requires Shaped(s) && Stored(s).Some? && Reported(Stored(s).value, p)
    ensures ReportsAbove(s, RankOf(p))
  {
    forall q | Reported(Stored(s).value, q)
      ensures p == q
    {
      ReportsOne(Stored(s).value, p, q);
    }
  }

  /** Nothing is reported for the generation of an object just created or edited. */
  lemma EditReportsNothing(g: Config, s: Cluster, a: Action, p: Phase)
    requires Inv(g, s) && Enabled(g, s, a) && (a.Create? || a.EditSpec?)
    ensures Stored(Step(g, s, a)).Some? && !Reported(Stored(Step(g, s, a)).value, p)
  {
    if a.EditSpec? {
      assert Known(s, Stored(s).value);
    }
  }
}
