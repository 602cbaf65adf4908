/** What every reachable state of the cluster satisfies: sound versions, sound conditions, and no
    success reported for a spec that was not the one built. */
module Invariants {
  import opened Options
  import opened NodeImages
  import opened Decisions
  import opened Clusters

  /** The versions of the object still in play: stored, on their way to the cache, or read by the pass. */
  ghost predicate Known(s: Cluster, im: Image) {
    || Some(im) in s.images
    || (s.pass.Fetched? && s.pass.snap == im)
    || (s.pass.Listed? && s.pass.snap == im)
  }

  /** Resource versions name contents. */
  ghost predicate Versioned(s: Cluster) {
    && (forall im :: Known(s, im) ==> im.resourceVersion < s.nextVersion && im.uid < s.nextUid)
    && (forall a, b :: Known(s, a) && Known(s, b) && a.resourceVersion == b.resourceVersion ==> a == b)
  }

  /** A success reported for the object's present generation is a success for its present spec. */
  predicate NoStaleSuccess(g: Config, im: Image) {
    forall i :: 0 <= i < |im.status.conditions| ==>
      var c := im.status.conditions[i];
      c.kind == BUILD_SUCCEEDED && c.status == IsTrue && c.observedGeneration == im.generation ==>
        im.status.observedSpecHash == g.hash(im.spec)
  }

  predicate Sound(g: Config, im: Image) {
    WellFormed(im) && NoStaleSuccess(g, im)
  }

  ghost predicate Inv(g: Config, s: Cluster) {
    && Shaped(s)
    && Versioned(s)
    && (forall im :: Known(s, im) ==> Sound(g, im))
    && (s.timer.Some? ==> s.timer.value <= s.clock + REQUEUE_INTERVAL)
  }

  lemma InitInv(g: Config, s: Cluster)
    requires Init(s)
    ensures Inv(g, s)
  {
  }

  /** A decision on a sound object leaves it sound, whatever Job was found. */
  lemma DecideSound(g: Config, im: Image, job: Option<Job>, now: nat, version: nat)
    requires Sound(g, im)
    ensures var out := Decide(g.hash(im.spec), im, job, now);
            Sound(g, im.(status := out.status, resourceVersion := version))
  {
    DecideConditions(g.hash(im.spec), im, job, now);
  }

  /** An accepted write meets the very object the pass read. */
  lemma AcceptedIsSnap(g: Config, s: Cluster)
    requires Inv(g, s) && (s.pass.Fetched? || s.pass.Listed?) && Accepts(s, s.pass.snap)
    ensures Stored(s) == Some(s.pass.snap)
  {
    assert Known(s, Stored(s).value) && Known(s, s.pass.snap);
  }

  /** Publishing a sound object under the next version number. */
  lemma PublishInv(g: Config, s: Cluster, im: Option<Image>)
    requires Inv(g, s)
    requires im.Some? ==> im.value.resourceVersion == s.nextVersion && im.value.uid < s.nextUid && Sound(g, im.value)
    ensures Inv(g, Publish(s, im))
  {
    var s' := Publish(s, im);
    forall x | Known(s', x)
      ensures Known(s, x) || Some(x) == im
    {
    }
  }

  /** A step that brings no new version and lets time only advance. */
  lemma FewerKnown(g: Config, s: Cluster, s': Cluster)
    requires Inv(g, s) && Shaped(s')
    requires forall im :: Known(s', im) ==> Known(s, im)
    requires s'.nextVersion >= s.nextVersion && s'.nextUid >= s.nextUid && s'.clock >= s.clock
    requires s'.timer.Some? ==> s'.timer.value <= s'.clock + REQUEUE_INTERVAL
    ensures Inv(g, s')
  {
  }

  /** A pass that has decided `out` leaves the stored object alone, or replaces the status of the version
      it read. */
  predicate Stores(s: Cluster, out: Outcome, s': Cluster)
    requires Shaped(s) && (s.pass.Fetched? || s.pass.Listed?)
  {
    && s' == s.(images := s'.images, pass := s'.pass, nextVersion := s'.nextVersion) && s'.pass.Returning?
    && (|| (s'.images == s.images && s'.nextVersion == s.nextVersion)
        || (&& s'.nextVersion == s.nextVersion + 1
            && out.changed && Accepts(s, s.pass.snap) && Stored(s) == Some(s.pass.snap)
            && out.status != s.pass.snap.status
            && s'.images == s.images +
                 [Some(s.pass.snap.(status := out.status, resourceVersion := s.nextVersion))]))
  }

  lemma OutcomeStored(s: Cluster, out: Outcome, fault: Fault)
    requires Shaped(s) && (s.pass.Fetched? || s.pass.Listed?)
    requires Accepts(s, s.pass.snap) ==> Stored(s) == Some(s.pass.snap)
    ensures Stores(s, out, StoreOutcome(s, out, fault))
  {
  }

  lemma WriteStored(g: Config, s: Cluster, fault: Fault)
    requires Inv(g, s) && Ready(g, s.pass)
    ensures Stores(s, OutcomeOf(g, s.pass), WriteStep(g, s, fault))
  {
    if Accepts(s, s.pass.snap) {
      AcceptedIsSnap(g, s);
    }
    OutcomeStored(s, OutcomeOf(g, s.pass), fault);
  }

  /** The two ways a write can end for the invariant: nothing stored, or a sound status stored. */
  lemma AfterWrite(g: Config, s: Cluster, s': Cluster, snap: Image, st: Status, requeue: Requeue)
    requires Inv(g, s)
    requires || s' == s.(pass := Returning(requeue))
             || (&& Stored(s) == Some(snap) && Sound(g, snap.(status := st, resourceVersion := s.nextVersion))
                 && s' == Publish(s, Some(snap.(status := st, resourceVersion := s.nextVersion))).(
                            pass := Returning(requeue)))
    ensures Inv(g, s')
  {
    if s' == s.(pass := Returning(requeue)) {
      FewerKnown(g, s, s');
    } else {
      assert Known(s, snap);
      var p := Publish(s, Some(snap.(status := st, resourceVersion := s.nextVersion)));
      PublishInv(g, s, Some(snap.(status := st, resourceVersion := s.nextVersion)));
      FewerKnown(g, p, s');
    }
  }

  lemma WriteInv(g: Config, s: Cluster, fault: Fault)
    requires Inv(g, s) && Ready(g, s.pass)
    ensures Inv(g, WriteStep(g, s, fault))
  {
    WriteStored(g, s, fault);
    var s', snap, out := WriteStep(g, s, fault), s.pass.snap, OutcomeOf(g, s.pass);
    assert Known(s, snap);
    DecideSound(g, snap, if s.pass.Listed? then s.pass.job else None, s.pass.now, s.nextVersion);
    AfterWrite(g, s, s', snap, out.status, s'.pass.requeue);
  }

  predicate Edits(a: Action) {
    a.Create? || a.EditSpec? || a.Touch? || a.SetTemplate? || a.MarkDeleted? || a.Remove?
  }

  lemma EditInv(g: Config, s: Cluster, a: Action)
    requires Inv(g, s) && Enabled(g, s, a) && Edits(a)
    ensures Inv(g, Step(g, s, a))
  {
    if a.Create? {
      var s1 := s.(nextUid := s.nextUid + 1);
      FewerKnown(g, s, s1);
      PublishInv(g, s1, Some(Image(s.nextUid, 1, s.nextVersion, false, a.spec, EmptyStatus)));
    } else {
      assert Known(s, Stored(s).value);
      PublishInv(g, s, Stored(Step(g, s, a)));
    }
  }

  /** Everything but an edit or a write only forgets versions. */
  lemma OtherKnown(g: Config, s: Cluster, a: Action, im: Image)
    requires Shaped(s) && Enabled(g, s, a) && !Edits(a) && !a.Write?
    requires Known(Step(g, s, a), im)
    ensures Known(s, im)
  {
    if a.DeliverImage? {
      assert s.images == [s.images[0]] + s.images[1..];
    }
  }

  lemma OtherCounters(g: Config, s: Cluster, a: Action)
    requires Inv(g, s) && Enabled(g, s, a) && !Edits(a) && !a.Write?
    ensures var s' := Step(g, s, a);
            && s'.nextVersion == s.nextVersion && s'.nextUid == s.nextUid && s'.clock >= s.clock
            && Shaped(s') && (s'.timer.Some? ==> s'.timer.value <= s'.clock + REQUEUE_INTERVAL)
  {
  }

  lemma StepInv(g: Config, s: Cluster, a: Action)
    requires Inv(g, s) && Enabled(g, s, a)
    ensures Inv(g, Step(g, s, a))
  {
    if Edits(a) {
      EditInv(g, s, a);
    } else if a.Write? {
      WriteInv(g, s, a.fault);
    } else {
      OtherCounters(g, s, a);
      forall im | Known(Step(g, s, a), im)
        ensures Known(s, im)
      {
        OtherKnown(g, s, a, im);
      }
      FewerKnown(g, s, Step(g, s, a));
    }
  }

  lemma {:induction false} RunInv(g: Config, states: seq<Cluster>, acts: seq<Action>, n: nat)
    requires IsRun(g, states, acts) && n <= |acts|
    ensures Inv(g, states[n])
  {
    if n == 0 {
      InitInv(g, states[0]);
    } else {
      RunInv(g, states, acts, n - 1);
      StepInv(g, states[n - 1], acts[n - 1]);
    }
  }

  // ---------- Main results ----------

  /** Condition invariant, over every run: at most one entry of each type; Building and
      BuildSucceeded never both True; and they always speak of the same generation. */
  lemma ConditionsSound(g: Config, states: seq<Cluster>, acts: seq<Action>, n: nat)
    requires IsRun(g, states, acts) && n <= |acts| && Stored(states[n]).Some?
    ensures var cs := Stored(states[n]).value.status.conditions;
            forall i, j :: 0 <= i < j < |cs| ==>
              && cs[i].kind != cs[j].kind
              && {cs[i].kind, cs[j].kind} == {BUILDING, BUILD_SUCCEEDED}
              && !(cs[i].status == IsTrue && cs[j].status == IsTrue)
              && cs[i].observedGeneration == cs[j].observedGeneration <= Stored(states[n]).value.generation
  {
    RunInv(g, states, acts, n);
    assert Known(states[n], Stored(states[n]).value);
  }

  /** No stale success, over every run of edits, deletions, Jobs and partial passes. */
  lemma SuccessIsFresh(g: Config, states: seq<Cluster>, acts: seq<Action>, n: nat)
    requires IsRun(g, states, acts) && n <= |acts| && Stored(states[n]).Some?
    ensures NoStaleSuccess(g, Stored(states[n]).value)
  {
    RunInv(g, states, acts, n);
    assert Known(states[n], Stored(states[n]).value);
  }

  /** What a step can do to a stored object that stays: edit the spec, set the template, or store the
      decision of a pass that read this very object. */
  ghost predicate Follows(g: Config, s: Cluster, a: Action, s': Cluster) {
    && Shaped(s) && Shaped(s') && Stored(s).Some? && Stored(s').Some?
    && var im, im' := Stored(s).value, Stored(s').value;
       && im'.uid == im.uid
       && (a.EditSpec? || im'.spec == im.spec)
       && (|| im'.status == im.status
           || (a.SetTemplate? && im'.status == im.status.(templateVMID := a.vmid, templateNode := a.node))
           || (a.Write? && s'.images != s.images && Ready(g, s.pass) && s.pass.snap == im
               && im'.status == OutcomeOf(g, s.pass).status))
  }

  lemma OtherFollows(g: Config, s: Cluster, a: Action)
    requires Shaped(s) && Enabled(g, s, a) && Stored(s).Some? && !a.Remove? && !a.Write?
    ensures Follows(g, s, a, Step(g, s, a))
  {
  }

  lemma StepFollows(g: Config, s: Cluster, a: Action)
    requires Inv(g, s) && Enabled(g, s, a) && Stored(s).Some? && !a.Remove?
    ensures Follows(g, s, a, Step(g, s, a))
  {
    if a.Write? {
      WriteStored(g, s, a.fault);
    } else {
      OtherFollows(g, s, a);
    }
  }

  /** The same for the conditions of a decision that is stored. */
  lemma DecideTimes(g: Config, im: Image, job: Option<Job>, now: nat, i: nat)
    requires WellFormed(im) && i < |im.status.conditions|
    ensures var cs, cs' := im.status.conditions, Decide(g.hash(im.spec), im, job, now).status.conditions;
            && |cs'| == |cs| && cs'[i].kind == cs[i].kind
            && cs'[i].lastTransition == if cs'[i].status == cs[i].status then cs[i].lastTransition else now
  {
    DecideConditions(g.hash(im.spec), im, job, now);
  }

  /** A condition's transition time moves exactly at the steps where its status flips, and then to
      the time of the pass that wrote it. */
  lemma TransitionTimes(g: Config, s: Cluster, a: Action, s': Cluster, i: nat)
    requires Inv(g, s) && Enabled(g, s, a) && s' == Step(g, s, a)
    requires Stored(s).Some? && !a.Remove?
    requires i < |Stored(s).value.status.conditions|
    ensures Shaped(s') && Stored(s').Some?
    ensures var cs, cs' := Stored(s).value.status.conditions, Stored(s').value.status.conditions;
            && |cs'| == |cs| && cs'[i].kind == cs[i].kind
            && (cs'[i].status == cs[i].status ==> cs'[i].lastTransition == cs[i].lastTransition)
            && (cs'[i].status != cs[i].status ==> a.Write? && cs'[i].lastTransition == s.pass.now)
  {
    StepFollows(g, s, a);
    FollowingTimes(g, s, a, s', i);
  }

  lemma FollowingTimes(g: Config, s: Cluster, a: Action, s': Cluster, i: nat)
    requires Inv(g, s) && Follows(g, s, a, s')
    requires i < |Stored(s).value.status.conditions|
    ensures var cs, cs' := Stored(s).value.status.conditions, Stored(s').value.status.conditions;
            && |cs'| == |cs| && cs'[i].kind == cs[i].kind
            && (cs'[i].status == cs[i].status ==> cs'[i].lastTransition == cs[i].lastTransition)
            && (cs'[i].status != cs[i].status ==> a.Write? && cs'[i].lastTransition == s.pass.now)
  {
    var im := Stored(s).value;
    assert Known(s, im);
    if a.Write? && s'.images != s.images && Ready(g, s.pass) && s.pass.snap == im {
      DecideTimes(g, im, if s.pass.Listed? then s.pass.job else None, s.pass.now, i);
    }
  }

  // ---------- Deletion ----------

  predicate LiveSnap(s: Cluster) {
    s.pass.Fetched? || s.pass.Listed? ==> !s.pass.snap.deleting
  }

  lemma StepLiveSnap(g: Config, s: Cluster, a: Action)
    requires Inv(g, s) && Enabled(g, s, a) && LiveSnap(s)
    ensures LiveSnap(Step(g, s, a))
  {
    if a.Write? {
      WriteStored(g, s, a.fault);
    }
  }

  lemma {:induction false} RunLiveSnap(g: Config, states: seq<Cluster>, acts: seq<Action>, n: nat)
    requires IsRun(g, states, acts) && n <= |acts|
    ensures LiveSnap(states[n])
  {
    if n > 0 {
      RunLiveSnap(g, states, acts, n - 1);
      RunInv(g, states, acts, n - 1);
      StepLiveSnap(g, states[n - 1], acts[n - 1]);
    }
  }

  /** Deletion is respected: in every run, no step of the controller stores anything for an object that is
      being deleted, even if the pass began before. */
  lemma DeletingIsLeft(g: Config, states: seq<Cluster>, acts: seq<Action>, n: nat)
    requires IsRun(g, states, acts) && n < |acts| && IsController(acts[n])
    requires Stored(states[n]).Some? && Stored(states[n]).value.deleting
    ensures states[n + 1].images == states[n].images && states[n + 1].nextVersion == states[n].nextVersion
  {
    RunInv(g, states, acts, n);
    RunLiveSnap(g, states, acts, n);
    ControllerStores(g, states[n], acts[n]);
  }

  lemma ControllerStores(g: Config, s: Cluster, a: Action)
    requires Inv(g, s) && Enabled(g, s, a) && IsController(a) && LiveSnap(s)
    requires Stored(s).Some? && Stored(s).value.deleting
    ensures Step(g, s, a).images == s.images && Step(g, s, a).nextVersion == s.nextVersion
  {
    if a.Write? {
      WriteStored(g, s, a.fault);
    }
  }
}
