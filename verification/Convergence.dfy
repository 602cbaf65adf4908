/** One complete pass is enough: it brings the conditions up to date, and they stay so. */
module Convergence {
  import opened Options
  import opened NodeImages
  import opened Decisions
  import opened Clusters
  import opened Invariants
  import opened Wakeup
  import opened StatusWrites

  /** What a pass over the object finds if every lookup tells `v`. */
  function PhaseNow(g: Config, im: Image, v: Phase): Phase {
    if IsCurrent(g.hash(im.spec), im.status) then Current else v
  }

  /** The object's Jobs are all in the cache, and the pass in flight has read these. */
  ghost predicate Calm(g: Config, s: Cluster, im0: Image, m: map<JobKey, Job>) {
    && Inv(g, s) && s.jobs == [m]
    && Stored(s).Some? && SameObject(Stored(s).value, im0)
    && (s.pass.Listed? ==> Attainable(g, s.pass.snap, m, s.pass.job))
  }

  /** The conditions report p, which is what a pass finds or what it found when it made the object current. */
  predicate Tell(g: Config, im: Image, v: Phase, p: Phase) {
    && Reported(im, p)
    && (p == PhaseNow(g, im, v) || p == v == Succeeded)
  }

  // ---------- Steps ----------

  /** A stored decision reports the phase of the object as it was read. */
  lemma DecisionTells(g: Config, im: Image, o: Option<Job>, now: nat, version: nat, v: Phase)
    requires WellFormed(im) && Verdict(o) == v
    ensures var h, out := g.hash(im.spec), Decide(g.hash(im.spec), im, o, now);
            var im' := im.(status := out.status, resourceVersion := version);
            Tell(g, im', v, PhaseNow(g, im, v)) && SameObject(im', im)
    ensures !Decide(g.hash(im.spec), im, o, now).changed ==>
              Decide(g.hash(im.spec), im, o, now).status == im.status
  {
    DecisionReports(g, im, o, now, version);
  }

  /** Once the conditions are up to date, a stored decision keeps them, or turns success into current. */
  lemma DecisionKeeps(g: Config, im: Image, o: Option<Job>, now: nat, version: nat, v: Phase, p: Phase)
    requires WellFormed(im) && Tell(g, im, v, p)
    requires IsCurrent(g.hash(im.spec), im.status) || Verdict(o) == v
    ensures var im' := im.(status := Decide(g.hash(im.spec), im, o, now).status, resourceVersion := version);
            Tell(g, im', v, p) || (p == Succeeded && Tell(g, im', v, Current))
  {
    DecisionReports(g, im, o, now, version);
  }

  lemma StoredCalm(
    g: Config, s: Cluster, s': Cluster, out: Outcome, im0: Image, m: map<JobKey, Job>, v: Phase, p: Phase)
    requires Calm(g, s, im0, m) && Tells(g, im0, m, v) && Ready(g, s.pass) && out == OutcomeOf(g, s.pass)
    requires Inv(g, s') && Stores(s, out, s')
    ensures Calm(g, s', im0, m)
    ensures Tell(g, Stored(s).value, v, p) ==>
              Tell(g, Stored(s').value, v, p) || (p == Succeeded && Tell(g, Stored(s').value, v, Current))
  {
    if s'.images != s.images {
      var im, o := s.pass.snap, if s.pass.Listed? then s.pass.job else None;
      assert Known(s, im);
      if s.pass.Listed? {
        assert Attainable(g, im0, m, o);
      }
      DecisionCalm(g, im, o, s.pass.now, s.nextVersion, v, p);
    }
  }

  lemma DecisionCalm(g: Config, im: Image, o: Option<Job>, now: nat, version: nat, v: Phase, p: Phase)
    requires WellFormed(im) && (IsCurrent(g.hash(im.spec), im.status) || Verdict(o) == v)
    ensures var im' := im.(status := Decide(g.hash(im.spec), im, o, now).status, resourceVersion := version);
            && SameObject(im', im)
            && (Tell(g, im, v, p) ==> Tell(g, im', v, p) || (p == Succeeded && Tell(g, im', v, Current)))
  {
    DecisionReports(g, im, o, now, version);
    if Tell(g, im, v, p) {
      DecisionKeeps(g, im, o, now, version, v, p);
    }
  }

  lemma StepCalm(g: Config, s: Cluster, a: Action, im0: Image, m: map<JobKey, Job>, v: Phase, p: Phase)
    requires Calm(g, s, im0, m) && Tells(g, im0, m, v) && Enabled(g, s, a) && Frozen(a)
    ensures var s' := Step(g, s, a);
            && Calm(g, s', im0, m)
            && (Tell(g, Stored(s).value, v, p) ==>
                  Tell(g, Stored(s').value, v, p) || (p == Succeeded && Tell(g, Stored(s').value, v, Current)))
  {
    StepInv(g, s, a);
    if a.Write? {
      WriteStored(g, s, a.fault);
      StoredCalm(g, s, WriteStep(g, s, a.fault), OutcomeOf(g, s.pass), im0, m, v, p);
    } else {
      FrozenKeeps(g, s, a);
      if a.List? {
        LookupExact(g, s.pass.snap, m, FindJob(m, a.order, s.pass.snap.uid));
      }
    }
  }

  lemma {:induction false} RunCalm(
    g: Config, states: seq<Cluster>, acts: seq<Action>, im0: Image, m: map<JobKey, Job>, v: Phase, p: Phase, i: nat,
    j: nat)
    requires Connects(g, states, acts) && AllFrozen(acts) && i <= j <= |acts|
    requires Calm(g, states[i], im0, m) && Tells(g, im0, m, v)
    ensures Calm(g, states[j], im0, m)
    ensures Tell(g, Stored(states[i]).value, v, p) ==>
              Tell(g, Stored(states[j]).value, v, p) || (p == Succeeded && Tell(g, Stored(states[j]).value, v, Current))
  {
    if i < j {
      RunCalm(g, states, acts, im0, m, v, p, i, j - 1);
      StepCalm(g, states[j - 1], acts[j - 1], im0, m, v, p);
      if p == Succeeded {
        StepCalm(g, states[j - 1], acts[j - 1], im0, m, v, Current);
      }
    }
  }

  // ---------- One pass ----------

  /** Neither a write, which ends a pass, nor anything that breaks it off. */
  predicate GoesOn(a: Action) {
    !a.Write? && !a.GiveUp? && !a.Return? && !a.Restart?
  }

  /** A pass that has read `im`, while it is stored. */
  predicate Reads(s: Cluster, im: Image)
    requires Shaped(s)
  {
    Stored(s) == Some(im) && (s.pass.Fetched? || s.pass.Listed?) && s.pass.snap == im
  }

  lemma ReadsOn(g: Config, s: Cluster, a: Action, im: Image)
    requires Shaped(s) && Enabled(g, s, a) && Frozen(a) && GoesOn(a) && Reads(s, im)
    ensures Shaped(Step(g, s, a)) && Reads(Step(g, s, a), im)
  {
  }

  lemma {:induction false} RunReads(g: Config, states: seq<Cluster>, acts: seq<Action>, im: Image, i: nat, j: nat)
    requires Connects(g, states, acts) && AllFrozen(acts) && i <= j <= |acts| && Reads(states[i], im)
    requires forall k :: i <= k < j ==> GoesOn(acts[k])
    ensures Reads(states[j], im)
  {
    if i < j {
      RunReads(g, states, acts, im, i, j - 1);
      ReadsOn(g, states[j - 1], acts[j - 1], im);
    }
  }

  /** Without a fault, what the pass decides about the stored object is stored. */
  lemma PassStores(g: Config, s: Cluster, im0: Image, m: map<JobKey, Job>, v: Phase, im: Image)
    requires Calm(g, s, im0, m) && Tells(g, im0, m, v) && Ready(g, s.pass) && Reads(s, im)
    ensures var s' := WriteStep(g, s, NoFault);
            Shaped(s') && Stored(s').Some? && Tell(g, Stored(s').value, v, PhaseNow(g, im, v))
  {
    assert Known(s, im);
    var o := if s.pass.Listed? then s.pass.job else None;
    if s.pass.Listed? {
      assert Attainable(g, im0, m, o);
      DecisionTells(g, im, o, s.pass.now, im.resourceVersion, v);
      DecisionTells(g, im, o, s.pass.now, s.nextVersion, v);
    } else {
      DecisionReports(g, im, o, s.pass.now, im.resourceVersion);
      DecisionReports(g, im, o, s.pass.now, s.nextVersion);
    }
    OutcomeLands(s, im, OutcomeOf(g, s.pass));
  }

  /** The status decided is what is stored afterwards. */
  lemma OutcomeLands(s: Cluster, im: Image, out: Outcome)
    requires Shaped(s) && Reads(s, im) && (!out.changed ==> out.status == im.status)
    ensures var s' := StoreOutcome(s, out, NoFault);
            && Shaped(s')
            && (|| Stored(s') == Some(im.(status := out.status, resourceVersion := im.resourceVersion))
                || Stored(s') == Some(im.(status := out.status, resourceVersion := s.nextVersion)))
  {
    assert im == im.(status := im.status, resourceVersion := im.resourceVersion);
  }

  /** The statuses of the two conditions, for the object's generation: Building says whether the build is
      still to end, BuildSucceeded whether the template is there. */
  predicate Shows(im: Image, building: bool, succeeded: bool) {
    var cs := im.status.conditions;
    && |cs| == 2 && cs[0].kind == "Building" && cs[1].kind == "BuildSucceeded"
    && cs[0].status == (if building then IsTrue else IsFalse)
    && cs[1].status == (if succeeded then IsTrue else IsFalse)
    && cs[0].observedGeneration == cs[1].observedGeneration == im.generation
  }

  lemma ReportedShows(im: Image, p: Phase)
    requires Reported(im, p)
    ensures Shows(im, p == NoJob || p == Running, p == Current || p == Succeeded)
  {
  }

  /** What the relevant Jobs of a list hold, when every lookup tells the same. */
  lemma TellsMeans(g: Config, im: Image, m: map<JobKey, Job>, v: Phase)
    requires Tells(g, im, m, v)
    ensures v == Succeeded <==>
            exists k :: k in m && Relevant(g, im, k, m[k]) && JobCondition("Complete", IsTrue) in m[k].conditions
    ensures v == Succeeded || v == Failed <==>
            exists k :: k in m && Relevant(g, im, k, m[k]) &&
              (|| JobCondition("Complete", IsTrue) in m[k].conditions
               || JobCondition("Failed", IsTrue) in m[k].conditions)
    ensures v != Current
  {
    forall k | k in m && Relevant(g, im, k, m[k])
      ensures Verdict(Some(m[k])) == v
    {
      assert Attainable(g, im, m, Some(m[k]));
    }
    forall k | k in m
      ensures Verdict(Some(m[k])) == Succeeded <==> JobCondition("Complete", IsTrue) in m[k].conditions
      ensures Verdict(Some(m[k])) == Succeeded || Verdict(Some(m[k])) == Failed <==>
              (|| JobCondition("Complete", IsTrue) in m[k].conditions
               || JobCondition("Failed", IsTrue) in m[k].conditions)
    {
      VerdictMeans(Some(m[k]));
    }
    var o := SomeAttainable(g, im, m);
    assert Verdict(o) == v;
  }

  // ---------- Main result ----------

  /** Convergence.  With spec, Jobs and template frozen, all Job changes delivered and every lookup telling
      the same: let a pass read the object as it is stored, at step i, go on without being broken off,
      and write without a fault at step j.  Then the stored conditions report what the object and its
      latest Jobs say, and in every later state they report that, or current after success. */
  lemma PassConverges(
    g: Config, states: seq<Cluster>, acts: seq<Action>, im0: Image, m: map<JobKey, Job>, v: Phase, i: nat, j: nat,
    n: nat)
    requires Connects(g, states, acts) && AllFrozen(acts) && i < j < n <= |acts|
    requires Inv(g, states[0]) && states[0].pass.Idle? && states[0].jobs == [m] && Stored(states[0]) == Some(im0)
    requires Tells(g, im0, m, v)
    requires acts[i].Read? && |states[i].images| == 1 && states[i + 1].pass.Fetched?
    requires (forall k :: i < k < j ==> GoesOn(acts[k])) && acts[j] == Write(NoFault)
    ensures Stored(states[i]).Some? && Stored(states[j + 1]).Some? && Stored(states[n]).Some?
    ensures var p := PhaseNow(g, Stored(states[i]).value, v);
            && Reported(Stored(states[j + 1]).value, p)
            && (Reported(Stored(states[n]).value, p) || (p == Succeeded && Reported(Stored(states[n]).value, Current)))
  {
    RunCalm(g, states, acts, im0, m, v, v, 0, i);
    var im := Stored(states[i]).value;
    ReadStored(g, states[i], states[i + 1], im);
    RunReads(g, states, acts, im, i + 1, j);
    RunCalm(g, states, acts, im0, m, v, v, 0, j);
    PassStores(g, states[j], im0, m, v, im);
    RunCalm(g, states, acts, im0, m, v, v, 0, j + 1);
    RunCalm(g, states, acts, im0, m, v, PhaseNow(g, im, v), j + 1, n);
  }

  /** The same spelled out: from step j on the stored conditions are True and False as the object that was
      read and its Jobs have it. */
  lemma PassTellsTruth(
    g: Config, states: seq<Cluster>, acts: seq<Action>, im0: Image, m: map<JobKey, Job>, v: Phase, i: nat, j: nat,
    n: nat)
    requires Connects(g, states, acts) && AllFrozen(acts) && i < j < n <= |acts|
    requires Inv(g, states[0]) && states[0].pass.Idle? && states[0].jobs == [m] && Stored(states[0]) == Some(im0)
    requires Tells(g, im0, m, v)
    requires acts[i].Read? && |states[i].images| == 1 && states[i + 1].pass.Fetched?
    requires (forall k :: i < k < j ==> GoesOn(acts[k])) && acts[j] == Write(NoFault)
    ensures Stored(states[i]).Some? && Stored(states[n]).Some?
    ensures var im, cs := Stored(states[i]).value, Stored(states[n]).value.status.conditions;
            var current := im.status.observedSpecHash == g.hash(im.spec) && im.status.templateVMID.Some?;
            var complete := exists k :: k in m && Relevant(g, im0, k, m[k]) &&
                              JobCondition("Complete", IsTrue) in m[k].conditions;
            var ended := exists k :: k in m && Relevant(g, im0, k, m[k]) &&
                           (|| JobCondition("Complete", IsTrue) in m[k].conditions
                            || JobCondition("Failed", IsTrue) in m[k].conditions);
            && |cs| == 2 && cs[0].kind == "Building" && cs[1].kind == "BuildSucceeded"
            && cs[0].status == (if current || ended then IsFalse else IsTrue)
            && cs[1].status == (if current || complete then IsTrue else IsFalse)
            && cs[0].observedGeneration == cs[1].observedGeneration == Stored(states[n]).value.generation
  {
    PassConverges(g, states, acts, im0, m, v, i, j, n);
    TellsMeans(g, im0, m, v);
    var p, im := PhaseNow(g, Stored(states[i]).value, v), Stored(states[n]).value;
    ReportedShows(im, if Reported(im, p) then p else Current);
  }

  lemma ReadStored(g: Config, s: Cluster, s': Cluster, im: Image)
    requires Shaped(s) && Enabled(g, s, Read) && s' == Step(g, s, Read) && s'.pass.Fetched?
    requires |s.images| == 1 && Stored(s) == Some(im)
    ensures Reads(s', im)
  {
  }
}
