/** Which steps move the build forward, and what survives them. */
module Progress {
  import opened Options
  import opened NodeImages
  import opened Decisions
  import opened Clusters
  import opened Invariants
  import opened Wakeup

  // ---------- What survives ----------

  /** The step stores the success of a build. */
  predicate Builds(s: Cluster, a: Action, s': Cluster) {
    a.Write? && s.pass.Listed? && Verdict(s.pass.job) == Succeeded && s'.images != s.images
  }

  predicate SameBuild(a: Status, b: Status) {
    && a.observedSpecHash == b.observedSpecHash && a.templateVMID == b.templateVMID
    && a.templateNode == b.templateNode && a.lastBuildTime == b.lastBuildTime
  }

  /** What is recorded about the build changes by a stored success or an outside template change only. */
  lemma BuildSurvives(g: Config, s: Cluster, a: Action, s': Cluster)
    requires Follows(g, s, a, s') && !a.SetTemplate? && !Builds(s, a, s')
    ensures SameBuild(Stored(s').value.status, Stored(s).value.status)
  {
  }

  lemma CurrentIgnoresJobs(g: Config, im: Image)
    requires IsCurrent(g.hash(im.spec), im.status)
    ensures forall now :: Ready(g, Fetched(im, now))
    ensures forall o, now :: Decide(g.hash(im.spec), im, o, now) == Decide(g.hash(im.spec), im, None, now)
  {
  }

  /** Going back to the spec that was built needs no rebuild: after any edits, partial passes, Jobs,
      deliveries and faults, but no other build, the next pass over that spec is decided without the
      Jobs, and says the template is current. */
  lemma {:induction false} RevertNeedsNoRebuild(
    g: Config, states: seq<Cluster>, acts: seq<Action>, built: string, n: nat)
    requires Connects(g, states, acts) && Inv(g, states[0]) && n <= |acts|
    requires Stored(states[0]).Some? && IsCurrent(built, Stored(states[0]).value.status)
    requires forall i :: 0 <= i < |acts| ==>
               !acts[i].SetTemplate? && !acts[i].Remove? && !Builds(states[i], acts[i], states[i + 1])
    ensures Inv(g, states[n]) && Stored(states[n]).Some?
    ensures SameBuild(Stored(states[n]).value.status, Stored(states[0]).value.status)
    ensures var im := Stored(states[n]).value;
            g.hash(im.spec) == built ==>
              && (forall now :: Ready(g, Fetched(im, now)))
              && PhaseOf(built, im.status, None) == Current
              && (forall o, now :: Decide(built, im, o, now) == Decide(built, im, None, now))
  {
    if n > 0 {
      RevertNeedsNoRebuild(g, states, acts, built, n - 1);
      var s, a := states[n - 1], acts[n - 1];
      StepInv(g, s, a);
      StepFollows(g, s, a);
      BuildSurvives(g, s, a, states[n]);
    }
    var im := Stored(states[n]).value;
    if g.hash(im.spec) == built {
      CurrentIgnoresJobs(g, im);
    }
  }

  // ---------- Phases only advance ----------

  /** How far the object's Jobs have come: 0 no Job, 1 running, 2 finished. */
  ghost function JobRank(g: Config, im: Image, m: map<JobKey, Job>): nat {
    if exists k :: k in m && Relevant(g, im, k, m[k]) && IsFinished(m[k]) then 2
    else if exists k :: k in m && Relevant(g, im, k, m[k]) then 1
    else 0
  }

  /** The same for the object: 3 if it is current. */
  ghost function Rank(g: Config, im: Image, m: map<JobKey, Job>): nat {
    if IsCurrent(g.hash(im.spec), im.status) then 3 else JobRank(g, im, m)
  }

  /** Jobs are not taken away from the object, and a finished Job keeps its verdict. */
  ghost predicate KeepsJobs(g: Config, im: Image, m: map<JobKey, Job>, m': map<JobKey, Job>) {
    forall k :: k in m && Relevant(g, im, k, m[k]) ==>
      k in m' && Relevant(g, im, k, m'[k]) &&
      (IsFinished(m[k]) ==> Verdict(Some(m'[k])) == Verdict(Some(m[k])))
  }

  /** The spec stays, Jobs stay, and the template VMID is not cleared. */
  ghost predicate Forward(g: Config, s: Cluster, a: Action)
    requires Shaped(s) && Enabled(g, s, a)
  {
    && !a.EditSpec? && !a.Remove?
    && (a.SetTemplate? ==> a.vmid.Some?)
    && (a.PutJob? && Stored(s).Some? ==> KeepsJobs(g, Stored(s).value, LatestJobs(s), LatestJobs(s)[a.key := a.job]))
    && (a.DropJob? && Stored(s).Some? ==> KeepsJobs(g, Stored(s).value, LatestJobs(s), LatestJobs(s) - {a.key}))
  }

  /** A write can record only the hash of the stored spec. */
  lemma CurrentStays(g: Config, s: Cluster, a: Action, s': Cluster)
    requires Follows(g, s, a, s') && !a.EditSpec? && (a.SetTemplate? ==> a.vmid.Some?)
    ensures IsCurrent(g.hash(Stored(s).value.spec), Stored(s).value.status) ==>
              IsCurrent(g.hash(Stored(s).value.spec), Stored(s').value.status)
  {
  }

  lemma LatestJobsStay(g: Config, s: Cluster, a: Action)
    requires Shaped(s) && Enabled(g, s, a) && !a.PutJob? && !a.DropJob? && !a.Write?
    ensures Shaped(Step(g, s, a)) && LatestJobs(Step(g, s, a)) == LatestJobs(s)
  {
  }

  lemma SameJobsKept(g: Config, im: Image, m: map<JobKey, Job>)
    ensures KeepsJobs(g, im, m, m)
  {
  }

  lemma WriteKeepsJobs(g: Config, s: Cluster, fault: Fault)
    requires Inv(g, s) && Ready(g, s.pass)
    ensures Shaped(WriteStep(g, s, fault)) && LatestJobs(WriteStep(g, s, fault)) == LatestJobs(s)
  {
    WriteStored(g, s, fault);
  }

  lemma StepJobsKept(g: Config, s: Cluster, a: Action, s': Cluster)
    requires Inv(g, s) && Enabled(g, s, a) && s' == Step(g, s, a) && Forward(g, s, a)
    requires Stored(s).Some?
    ensures Shaped(s') && KeepsJobs(g, Stored(s).value, LatestJobs(s), LatestJobs(s'))
  {
    if !a.PutJob? && !a.DropJob? {
      if a.Write? {
        WriteKeepsJobs(g, s, a.fault);
      } else {
        LatestJobsStay(g, s, a);
      }
      SameJobsKept(g, Stored(s).value, LatestJobs(s));
    }
  }

  lemma JobRankGrows(g: Config, im: Image, m: map<JobKey, Job>, m': map<JobKey, Job>)
    requires KeepsJobs(g, im, m, m')
    ensures JobRank(g, im, m') >= JobRank(g, im, m)
  {
    if k :| k in m && Relevant(g, im, k, m[k]) && IsFinished(m[k]) {
      assert k in m' && Relevant(g, im, k, m'[k]) && IsFinished(m'[k]);
    } else if k :| k in m && Relevant(g, im, k, m[k]) {
      assert k in m' && Relevant(g, im, k, m'[k]);
    }
  }

  lemma JobRankSame(g: Config, im: Image, im': Image, m: map<JobKey, Job>)
    requires im'.spec == im.spec && im'.uid == im.uid
    ensures JobRank(g, im', m) == JobRank(g, im, m)
  {
    assert forall k, job: Job :: Relevant(g, im', k, job) <==> Relevant(g, im, k, job);
  }

  lemma RankGrows(g: Config, im: Image, im': Image, m: map<JobKey, Job>, m': map<JobKey, Job>)
    requires im'.spec == im.spec && im'.uid == im.uid
    requires IsCurrent(g.hash(im.spec), im.status) ==> IsCurrent(g.hash(im.spec), im'.status)
    requires KeepsJobs(g, im, m, m')
    ensures Rank(g, im', m') >= Rank(g, im, m)
  {
    JobRankSame(g, im, im', m');
    JobRankGrows(g, im, m, m');
  }

  ghost predicate Advances(g: Config, s: Cluster, s': Cluster) {
    && Inv(g, s) && Inv(g, s') && Stored(s).Some? && Stored(s').Some?
    && Rank(g, Stored(s').value, LatestJobs(s')) >= Rank(g, Stored(s).value, LatestJobs(s))
  }

  lemma StepAdvances(g: Config, s: Cluster, a: Action, s': Cluster)
    requires Inv(g, s) && Enabled(g, s, a) && s' == Step(g, s, a) && Forward(g, s, a)
    requires Stored(s).Some?
    ensures Advances(g, s, s')
  {
    StepInv(g, s, a);
    StepFollows(g, s, a);
    CurrentStays(g, s, a, s');
    StepJobsKept(g, s, a, s');
    RankGrows(g, Stored(s).value, Stored(s').value, LatestJobs(s), LatestJobs(s'));
  }

  ghost predicate AllForward(g: Config, states: seq<Cluster>, acts: seq<Action>)
    requires Connects(g, states, acts)
  {
    forall i :: 0 <= i < |acts| ==> Forward(g, states[i], acts[i])
  }

  /** The rank of the latest stored object and Jobs never falls over a run of such steps. */
  lemma {:induction false} StoredRankAdvances(
    g: Config, states: seq<Cluster>, acts: seq<Action>, m: nat, n: nat)
    requires Connects(g, states, acts) && AllForward(g, states, acts) && m <= n <= |acts|
    requires Inv(g, states[0]) && Stored(states[0]).Some?
    ensures Advances(g, states[m], states[n])
  {
    if m < n {
      StoredRankAdvances(g, states, acts, m, n - 1);
      StepAdvances(g, states[n - 1], acts[n - 1], states[n]);
    } else if n > 0 {
      StoredRankAdvances(g, states, acts, n - 1, n - 1);
      StepAdvances(g, states[n - 1], acts[n - 1], states[n]);
    }
  }

  ghost predicate AtMostOne(g: Config, im: Image, m: map<JobKey, Job>) {
    forall j, k :: j in m && k in m && Relevant(g, im, j, m[j]) && Relevant(g, im, k, m[k]) ==> j == k
  }

  function RankOf(p: Phase): nat {
    match p
    case NoJob => 0
    case Running => 1
    case Succeeded => 2
    case Failed => 2
    case Current => 3
  }

  /** With at most one relevant Job, the rank is that of the phase any lookup gives. */
  lemma RankIsPhase(g: Config, im: Image, m: map<JobKey, Job>, o: Option<Job>)
    requires Attainable(g, im, m, o) && AtMostOne(g, im, m)
    ensures Rank(g, im, m) == RankOf(PhaseOf(g.hash(im.spec), im.status, o))
  {
    if o.Some? {
      var k :| k in m && Relevant(g, im, k, m[k]) && m[k] == o.value;
    }
  }
}
