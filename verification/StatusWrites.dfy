/** How many status writes a settled world costs. */
module StatusWrites {
  import opened Options
  import opened NodeImages
  import opened Decisions
  import opened Clusters
  import opened Invariants
  import opened Wakeup

  /** All that the object's writes leave alone. */
  predicate SameObject(a: Image, b: Image) {
    && a.uid == b.uid && a.spec == b.spec && a.generation == b.generation && a.deleting == b.deleting
    && a.status.templateVMID == b.status.templateVMID
  }

  predicate Reported(im: Image, p: Phase) {
    var cs := im.status.conditions;
    |cs| == 2 && Says(cs[0], BUILDING, BuildingMark(p), im.generation)
              && Says(cs[1], BUILD_SUCCEEDED, SucceededMark(p), im.generation)
  }

  /** Every lookup in `m` tells `v`. */
  ghost predicate Tells(g: Config, im: Image, m: map<JobKey, Job>, v: Phase) {
    forall o :: Attainable(g, im, m, o) ==> Verdict(o) == v
  }

  // ---------- Which Jobs keep the status still ----------

  /** Some lookup in `m` tells `v`. */
  ghost predicate CanTell(g: Config, im: Image, m: map<JobKey, Job>, v: Phase) {
    exists o :: Attainable(g, im, m, o) && Verdict(o) == v
  }

  /** No relevant Job has succeeded while the object has no template VMID, and those that have not
      succeeded are either all running or all failed. */
  ghost predicate Tame(g: Config, im: Image, m: map<JobKey, Job>) {
    && (forall k :: k in m && Relevant(g, im, k, m[k]) && im.status.templateVMID.None? ==>
          Verdict(Some(m[k])) != Succeeded)
    && (forall j, k :: j in m && k in m && Relevant(g, im, j, m[j]) && Relevant(g, im, k, m[k]) ==>
          Verdict(Some(m[j])) == Verdict(Some(m[k]))
          || Verdict(Some(m[j])) == Succeeded || Verdict(Some(m[k])) == Succeeded)
  }

  /** The Jobs do not matter, or those in the cache and those on their way to it are tame. */
  ghost predicate Steady(g: Config, im: Image, jobs: seq<map<JobKey, Job>>) {
    IsCurrent(g.hash(im.spec), im.status) || forall i :: 0 <= i < |jobs| ==> Tame(g, im, jobs[i])
  }

  lemma TameTells(g: Config, im: Image, m: map<JobKey, Job>, v: Phase, w: Phase)
    requires Tame(g, im, m) && CanTell(g, im, m, v)
    ensures im.status.templateVMID.None? ==> v != Succeeded
    ensures CanTell(g, im, m, w) && v != Succeeded && w != Succeeded ==> v == w
  {
  }

  lemma CanTellSame(g: Config, im: Image, im': Image, m: map<JobKey, Job>, v: Phase)
    requires im'.uid == im.uid && im'.spec == im.spec
    ensures CanTell(g, im, m, v) <==> CanTell(g, im', m, v)
  {
    if CanTell(g, im, m, v) {
      var o :| Attainable(g, im, m, o) && Verdict(o) == v;
      assert Attainable(g, im', m, o);
    }
    if CanTell(g, im', m, v) {
      var o :| Attainable(g, im', m, o) && Verdict(o) == v;
      assert Attainable(g, im, m, o);
    }
  }

  // ---------- How many writes are still to come ----------

  /** A lookup can tell something other than success that the conditions do not say. */
  ghost predicate Unreported(g: Config, im: Image, m: map<JobKey, Job>) {
    exists v :: v != Succeeded && CanTell(g, im, m, v) && !Reported(im, v)
  }

  /** The pass in flight has found a Job for the object as it is stored. */
  predicate InFlight(s: Cluster)
    requires Shaped(s)
  {
    s.pass.Listed? && Stored(s) == Some(s.pass.snap)
  }

  /** A success makes an object with a template VMID current: one write for it, one for being current. */
  ghost function Successes(g: Config, s: Cluster): nat
    requires Shaped(s) && Stored(s).Some?
  {
    if && Stored(s).value.status.templateVMID.Some?
       && (|| (exists i :: 0 <= i < |s.jobs| && CanTell(g, Stored(s).value, s.jobs[i], Succeeded))
           || (InFlight(s) && Verdict(s.pass.job) == Succeeded))
    then 2 else 0
  }

  /** The pass in flight is about to report something that the cached Jobs no longer tell. */
  ghost predicate Stray(g: Config, s: Cluster)
    requires Shaped(s)
  {
    && InFlight(s)
    && !CanTell(g, s.pass.snap, s.jobs[0], Verdict(s.pass.job))
    && if Verdict(s.pass.job) == Succeeded then s.pass.snap.status.templateVMID.None?
       else !Reported(s.pass.snap, Verdict(s.pass.job))
  }

  /** The writes due for the cached Jobs. */
  ghost function Due(g: Config, s: Cluster): nat
    requires Shaped(s) && Stored(s).Some?
  {
    if Stray(g, s) then 2 else if Unreported(g, Stored(s).value, s.jobs[0]) then 1 else 0
  }

  ghost function Potential(g: Config, s: Cluster): nat
    requires Shaped(s) && Stored(s).Some?
  {
    var im := Stored(s).value;
    if IsCurrent(g.hash(im.spec), im.status) then if Reported(im, Current) then 0 else 1
    else Successes(g, s) + (|s.jobs| - 1) + Due(g, s)
  }

  /** The object and the Jobs allow no more than the limit. */
  ghost predicate Budget(g: Config, s: Cluster, limit: nat) {
    && Inv(g, s) && Stored(s).Some? && Steady(g, Stored(s).value, s.jobs)
    && s.nextVersion + Potential(g, s) <= limit
  }

  /** What a decision reports, when it is not what the conditions say already. */
  lemma DecisionReports(g: Config, im: Image, o: Option<Job>, now: nat, version: nat)
    requires WellFormed(im)
    ensures var h, out := g.hash(im.spec), Decide(g.hash(im.spec), im, o, now);
            var p, im' := PhaseOf(h, im.status, o), im.(status := out.status, resourceVersion := version);
            && Reported(im', p) && im'.status.templateVMID == im.status.templateVMID
            && (p != Succeeded ==> (out.status == im.status <==> Reported(im, p)))
            && (p == Succeeded ==> im'.status.observedSpecHash == h && im'.status.lastBuildTime == Some(now))
            && (p != Succeeded ==> im'.status.observedSpecHash == im.status.observedSpecHash
                                   && im'.status.lastBuildTime == im.status.lastBuildTime)
  {
    DecideConditions(g.hash(im.spec), im, o, now);
    DecideQuiet(g.hash(im.spec), im, o, now);
  }

  /** Conditions report one phase at most. */
  lemma ReportsOne(im: Image, p: Phase, q: Phase)
    requires Reported(im, p) && Reported(im, q)
    ensures p == q
  {
    var a, b := BuildingMark(p), BuildingMark(q);
    var c, d := SucceededMark(p), SucceededMark(q);
    assert a == b && c == d;
    assert |a.reason| == |b.reason| && |a.message| == |b.message| && |c.reason| == |d.reason|;
  }

  /** A write that stores `im'` after a pass over `im` that found `p`. */
  lemma CommitPays(g: Config, s: Cluster, s': Cluster, im: Image, im': Image, p: Phase)
    requires Shaped(s) && Shaped(s') && Stored(s) == Some(im) && Stored(s') == Some(im')
    requires s'.jobs == s.jobs && s'.pass.Returning? && Steady(g, im, s.jobs)
    requires im'.uid == im.uid && im'.spec == im.spec && im'.status.templateVMID == im.status.templateVMID
    requires Reported(im', p) && (p != Succeeded ==> !Reported(im, p))
    requires im'.status.observedSpecHash ==
               if p == Succeeded then g.hash(im.spec) else im.status.observedSpecHash
    requires p == Current <==> IsCurrent(g.hash(im.spec), im.status)
    requires p != Current ==> s.pass.Listed? && s.pass.snap == im && Verdict(s.pass.job) == p
    ensures Steady(g, im', s'.jobs) && Potential(g, s') + 1 <= Potential(g, s)
  {
    SteadySame(g, im, im', s.jobs);
    if p != Current {
      forall v
        ensures CanTell(g, im, s.jobs[0], v) <==> CanTell(g, im', s.jobs[0], v)
      {
        CanTellSame(g, im, im', s.jobs[0], v);
      }
      SuccessesSame(g, s, s', im, im');
      if CanTell(g, im, s.jobs[0], p) {
        forall w | CanTell(g, im', s.jobs[0], w) && w != Succeeded
          ensures Reported(im', w) || p == Succeeded
        {
          TameTells(g, im, s.jobs[0], p, w);
        }
        TameTells(g, im, s.jobs[0], p, p);
      }
    }
  }

  lemma SteadySame(g: Config, im: Image, im': Image, jobs: seq<map<JobKey, Job>>)
    requires im'.uid == im.uid && im'.spec == im.spec && im'.status.templateVMID == im.status.templateVMID
    requires Steady(g, im, jobs)
    requires im'.status.observedSpecHash in {im.status.observedSpecHash, g.hash(im.spec)}
    ensures Steady(g, im', jobs)
  {
    if !IsCurrent(g.hash(im.spec), im.status) {
      forall i | 0 <= i < |jobs|
        ensures Tame(g, im', jobs[i])
      {
        assert Tame(g, im, jobs[i]);
      }
    }
  }

  lemma SuccessesSame(g: Config, s: Cluster, s': Cluster, im: Image, im': Image)
    requires Shaped(s) && Shaped(s') && Stored(s) == Some(im) && Stored(s') == Some(im')
    requires s'.jobs == s.jobs && s'.pass.Returning?
    requires im'.uid == im.uid && im'.spec == im.spec && im'.status.templateVMID == im.status.templateVMID
    ensures Successes(g, s') <= Successes(g, s)
  {
    if i :| 0 <= i < |s.jobs| && CanTell(g, im', s.jobs[i], Succeeded) {
      CanTellSame(g, im, im', s.jobs[i], Succeeded);
    }
  }

  lemma SameBudget(g: Config, s: Cluster, s': Cluster, limit: nat)
    requires Budget(g, s, limit) && Inv(g, s') && s'.jobs == s.jobs && s'.nextVersion == s.nextVersion
    requires Stored(s') == Stored(s) && (s'.pass == s.pass || !s'.pass.Listed?)
    ensures Budget(g, s', limit)
  {
  }

  lemma WriteBudget(g: Config, s: Cluster, fault: Fault, limit: nat)
    requires Budget(g, s, limit) && Ready(g, s.pass)
    ensures Budget(g, WriteStep(g, s, fault), limit)
  {
    WriteInv(g, s, fault);
    WriteStored(g, s, fault);
    StoredBudget(g, s, WriteStep(g, s, fault), OutcomeOf(g, s.pass), limit);
  }

  lemma StoredBudget(g: Config, s: Cluster, s': Cluster, out: Outcome, limit: nat)
    requires Budget(g, s, limit) && Ready(g, s.pass) && out == OutcomeOf(g, s.pass)
    requires Inv(g, s') && Stores(s, out, s')
    ensures Budget(g, s', limit)
  {
    if s'.images == s.images {
      SameBudget(g, s, s', limit);
    } else {
      CommitBudget(g, s, s', s.pass.snap, out, if s.pass.Listed? then s.pass.job else None, limit);
    }
  }

  lemma CommitBudget(g: Config, s: Cluster, s': Cluster, im: Image, out: Outcome, o: Option<Job>, limit: nat)
    requires Budget(g, s, limit) && Inv(g, s') && s'.pass.Returning? && s'.jobs == s.jobs
    requires Stored(s) == Some(im) && s'.nextVersion == s.nextVersion + 1 && out.status != im.status
    requires Stored(s') == Some(im.(status := out.status, resourceVersion := s.nextVersion))
    requires Ready(g, s.pass) && s.pass.snap == im && o == (if s.pass.Listed? then s.pass.job else None)
    requires out == Decide(g.hash(im.spec), im, o, s.pass.now)
    ensures Budget(g, s', limit)
  {
    assert Known(s, im);
    DecisionReports(g, im, o, s.pass.now, s.nextVersion);
    CommitPays(g, s, s', im, Stored(s').value, PhaseOf(g.hash(im.spec), im.status, o));
  }

  /** A lookup tells what the cached Jobs tell. */
  lemma ListBudget(g: Config, s: Cluster, order: seq<JobKey>, limit: nat)
    requires Budget(g, s, limit) && Enabled(g, s, List(order))
    ensures Budget(g, Step(g, s, List(order)), limit)
  {
    StepInv(g, s, List(order));
    var snap, o := s.pass.snap, FindJob(CachedJobs(s), order, s.pass.snap.uid);
    LookupExact(g, snap, CachedJobs(s), o);
    ListedBudget(g, s, Step(g, s, List(order)), snap, o, limit);
  }

  lemma ListedBudget(g: Config, s: Cluster, s': Cluster, snap: Image, o: Option<Job>, limit: nat)
    requires Budget(g, s, limit) && s.pass.Fetched? && Inv(g, s')
    requires s' == s.(pass := Listed(snap, s.clock, o)) && Attainable(g, snap, s.jobs[0], o)
    ensures Budget(g, s', limit)
  {
    var im := Stored(s).value;
    assert CanTell(g, snap, s.jobs[0], Verdict(o));
    assert Stored(s') == Stored(s) && s'.jobs[0] == s.jobs[0];
  }

  /** Fewer Jobs on their way make up for a pass that has read the old ones. */
  lemma DeliverBudget(g: Config, s: Cluster, limit: nat)
    requires Budget(g, s, limit) && |s.jobs| > 1
    ensures Budget(g, Step(g, s, DeliverJobs), limit)
  {
    StepInv(g, s, DeliverJobs);
    var s' := Step(g, s, DeliverJobs);
    FewerJobs(g, s, s', Stored(s).value, 1);
    if !IsCurrent(g.hash(Stored(s).value.spec), Stored(s).value.status) {
      DeliverDue(g, s, s', Stored(s).value);
    }
  }

  lemma DeliverDue(g: Config, s: Cluster, s': Cluster, im: Image)
    requires Shaped(s) && Shaped(s') && Stored(s) == Stored(s') == Some(im) && s'.pass == s.pass
    requires Tame(g, im, s.jobs[0])
    ensures Due(g, s') <= 1 + Due(g, s)
  {
    if Stray(g, s') && CanTell(g, im, s.jobs[0], Verdict(s.pass.job)) {
      TameTells(g, im, s.jobs[0], Verdict(s.pass.job), Verdict(s.pass.job));
      assert Unreported(g, im, s.jobs[0]);
    }
  }

  lemma FewerJobs(g: Config, s: Cluster, s': Cluster, im: Image, n: nat)
    requires Shaped(s) && Shaped(s') && Stored(s) == Stored(s') == Some(im)
    requires n <= |s.jobs| && s'.jobs == s.jobs[n..] && (s'.pass == s.pass || s'.pass.Idle?) && Steady(g, im, s.jobs)
    ensures Steady(g, im, s'.jobs) && Successes(g, s') <= Successes(g, s)
  {
    assert forall i :: 0 <= i < |s'.jobs| ==> s'.jobs[i] == s.jobs[i + n];
    if i :| 0 <= i < |s'.jobs| && CanTell(g, im, s'.jobs[i], Succeeded) {
      assert CanTell(g, im, s.jobs[i + n], Succeeded);
    }
  }

  lemma RestartBudget(g: Config, s: Cluster, limit: nat)
    requires Budget(g, s, limit)
    ensures Budget(g, Step(g, s, Restart), limit)
  {
    StepInv(g, s, Restart);
    FewerJobs(g, s, Step(g, s, Restart), Stored(s).value, |s.jobs| - 1);
  }

  /** Every other step of the controller, its watches and the clock. */
  lemma OtherKeeps(g: Config, s: Cluster, a: Action)
    requires Shaped(s) && Enabled(g, s, a) && Frozen(a)
    requires !a.Write? && !a.List? && !a.DeliverJobs? && !a.Restart?
    ensures var s' := Step(g, s, a);
            && Shaped(s') && Stored(s') == Stored(s) && s'.jobs == s.jobs && s'.nextVersion == s.nextVersion
            && (s'.pass == s.pass || !s'.pass.Listed?)
  {
  }

  lemma OtherBudget(g: Config, s: Cluster, a: Action, limit: nat)
    requires Budget(g, s, limit) && Enabled(g, s, a) && Frozen(a)
    requires !a.Write? && !a.List? && !a.DeliverJobs? && !a.Restart?
    ensures Budget(g, Step(g, s, a), limit)
  {
    StepInv(g, s, a);
    OtherKeeps(g, s, a);
    SameBudget(g, s, Step(g, s, a), limit);
  }

  lemma StepBudget(g: Config, s: Cluster, a: Action, limit: nat)
    requires Budget(g, s, limit) && Enabled(g, s, a) && Frozen(a)
    ensures Budget(g, Step(g, s, a), limit)
  {
    match a
    case Write(fault) => WriteBudget(g, s, fault, limit);
    case List(order) => ListBudget(g, s, order, limit);
    case DeliverJobs => DeliverBudget(g, s, limit);
    case Restart => RestartBudget(g, s, limit);
    case _ => OtherBudget(g, s, a, limit);
  }

  lemma {:induction false} RunBudget(g: Config, states: seq<Cluster>, acts: seq<Action>, limit: nat, n: nat)
    requires Connects(g, states, acts) && AllFrozen(acts) && n <= |acts| && Budget(g, states[0], limit)
    ensures Budget(g, states[n], limit)
  {
    if n > 0 {
      RunBudget(g, states, acts, limit, n - 1);
      StepBudget(g, states[n - 1], acts[n - 1], limit);
    }
  }

  // ---------- Main result ----------

  /** Bounded writes.  With spec, Jobs and template frozen, if no relevant Job has succeeded without a
      template VMID being set and those that have not succeeded agree, or if the object is current, then
      any run of passes, late deliveries, stale reads, faults and restarts, from any state, stores at most
      three more versions, one more for each Job change not yet delivered, and one more if a pass is
      in flight that has already found its Job. */
  lemma WritesBounded(g: Config, states: seq<Cluster>, acts: seq<Action>, n: nat)
    requires Connects(g, states, acts) && AllFrozen(acts) && n <= |acts|
    requires Inv(g, states[0]) && Stored(states[0]).Some?
    requires Steady(g, Stored(states[0]).value, states[0].jobs)
    ensures states[n].nextVersion <= states[0].nextVersion + Potential(g, states[0])
    ensures Potential(g, states[0]) <= |states[0].jobs| + 2 + if states[0].pass.Listed? then 1 else 0
  {
    RunBudget(g, states, acts, states[0].nextVersion + Potential(g, states[0]), n);
  }

  /** Relevant Jobs of which some have succeeded and some have not. */
  ghost predicate Mixed(g: Config, im: Image, m: map<JobKey, Job>) {
    exists j, k :: j in m && k in m && Relevant(g, im, j, m[j]) && Relevant(g, im, k, m[k])
      && Verdict(Some(m[j])) == Succeeded && Verdict(Some(m[k])) != Succeeded
  }

  /** Once all Job changes are delivered, and read by the pass in flight if there is one, two writes
      are enough, unless a succeeded Job stands beside one that has not. */
  lemma AtMostTwoWrites(g: Config, states: seq<Cluster>, acts: seq<Action>, im: Image, m: map<JobKey, Job>, n: nat)
    requires Connects(g, states, acts) && AllFrozen(acts) && n <= |acts|
    requires Inv(g, states[0]) && Stored(states[0]) == Some(im) && states[0].jobs == [m] && Steady(g, im, [m])
    requires states[0].pass.Listed? ==> Attainable(g, states[0].pass.snap, m, states[0].pass.job)
    requires IsCurrent(g.hash(im.spec), im.status) || !Mixed(g, im, m)
    ensures states[n].nextVersion <= states[0].nextVersion + 2
  {
    WritesBounded(g, states, acts, n);
    TwoPotential(g, states[0], im, m);
  }

  lemma TwoPotential(g: Config, s: Cluster, im: Image, m: map<JobKey, Job>)
    requires Shaped(s) && Stored(s) == Some(im) && s.jobs == [m]
    requires s.pass.Listed? ==> Attainable(g, s.pass.snap, m, s.pass.job)
    requires IsCurrent(g.hash(im.spec), im.status) || !Mixed(g, im, m)
    ensures Potential(g, s) <= 2
  {
    if s.pass.Listed? {
      assert CanTell(g, s.pass.snap, m, Verdict(s.pass.job));
    }
    assert !Stray(g, s);
    if !IsCurrent(g.hash(im.spec), im.status) && Successes(g, s) == 2 {
      assert s.jobs[0] == m;
      assert CanTell(g, im, m, Succeeded);
      var o :| Attainable(g, im, m, o) && Verdict(o) == Succeeded;
      forall v | v != Succeeded
        ensures !CanTell(g, im, m, v)
      {
        forall o' | Attainable(g, im, m, o')
          ensures Verdict(o') == Succeeded
        {
        }
      }
    }
  }

  // ---------- The exception that the documentation of the code allows for ----------

  /** Every other frozen step leaves the stored object and the Jobs alone. */
  lemma FrozenKeeps(g: Config, s: Cluster, a: Action)
    requires Shaped(s) && Enabled(g, s, a) && Frozen(a) && !a.Write? && |s.jobs| == 1
    ensures var s' := Step(g, s, a);
            && Shaped(s') && Stored(s') == Stored(s) && s'.jobs == s.jobs && s'.nextVersion == s.nextVersion
            && (s'.pass.Listed? ==> a.List? || s'.pass == s.pass)
  {
  }

  /** A state with no pass under way, all Job changes delivered, and Jobs that agree on `v`. */
  ghost predicate Still(g: Config, s: Cluster, im: Image, m: map<JobKey, Job>, v: Phase) {
    Inv(g, s) && s.pass.Idle? && s.jobs == [m] && Stored(s) == Some(im) && Tells(g, im, m, v)
  }

  /** The object reports a success for its spec. */
  predicate Booked(g: Config, im: Image) {
    im.status.observedSpecHash == g.hash(im.spec) && Reported(im, Succeeded)
  }

  /** Without a template VMID a stored decision books the success, and once booked only its time moves. */
  lemma ForcedDecision(g: Config, im: Image, o: Option<Job>, now: nat)
    requires WellFormed(im) && im.status.templateVMID.None? && Verdict(o) == Succeeded
    ensures var out := Decide(g.hash(im.spec), im, o, now);
            && out.changed && out.status.lastBuildTime == Some(now)
            && out.status.templateVMID == im.status.templateVMID
            && Booked(g, im.(status := out.status))
            && (Booked(g, im) ==> SameButBuildTime(out.status, im.status))
  {
    DecideConditions(g.hash(im.spec), im, o, now);
    DecideQuiet(g.hash(im.spec), im, o, now);
  }

  ghost predicate Forced(g: Config, s: Cluster, im0: Image, m: map<JobKey, Job>, version: nat, base: Option<Status>) {
    && Inv(g, s) && s.jobs == [m]
    && Stored(s).Some? && SameObject(Stored(s).value, im0)
    && (s.pass.Listed? ==> Attainable(g, s.pass.snap, m, s.pass.job))
    && (s.nextVersion > version ==> Booked(g, Stored(s).value))
    && (base.Some? ==> s.nextVersion > version && SameButBuildTime(Stored(s).value.status, base.value))
  }

  lemma AfterForced(
    g: Config, s: Cluster, s': Cluster, st: Status, im0: Image, m: map<JobKey, Job>, version: nat, base: Option<Status>)
    requires Forced(g, s, im0, m, version, base) && (s.pass.Fetched? || s.pass.Listed?)
    requires Inv(g, s') && s'.jobs == s.jobs && s'.pass.Returning?
    requires
      || (s'.images == s.images && s'.nextVersion == s.nextVersion)
      || (&& Stored(s) == Some(s.pass.snap) && st.templateVMID == s.pass.snap.status.templateVMID
          && var im := s.pass.snap.(status := st, resourceVersion := s.nextVersion);
             s'.images == s.images + [Some(im)] && s'.nextVersion == s.nextVersion + 1
             && Booked(g, im) && (Booked(g, s.pass.snap) ==> SameButBuildTime(st, s.pass.snap.status)))
    ensures Forced(g, s', im0, m, version, base)
  {
  }

  lemma StoredForced(
    g: Config, s: Cluster, s': Cluster, out: Outcome, im0: Image, m: map<JobKey, Job>, version: nat,
    base: Option<Status>)
    requires Forced(g, s, im0, m, version, base) && Ready(g, s.pass) && out == OutcomeOf(g, s.pass)
    requires Inv(g, s') && Stores(s, out, s')
    requires Tells(g, im0, m, Succeeded) && im0.status.templateVMID.None?
    ensures Forced(g, s', im0, m, version, base)
  {
    if s'.images != s.images {
      assert Known(s, s.pass.snap);
      assert Attainable(g, im0, m, s.pass.job);
      ForcedDecision(g, s.pass.snap, s.pass.job, s.pass.now);
    }
    AfterForced(g, s, s', out.status, im0, m, version, base);
  }

  lemma StepForced(
    g: Config, s: Cluster, a: Action, im0: Image, m: map<JobKey, Job>, version: nat, base: Option<Status>)
    requires Forced(g, s, im0, m, version, base) && Enabled(g, s, a) && Frozen(a)
    requires Tells(g, im0, m, Succeeded) && im0.status.templateVMID.None?
    ensures Forced(g, Step(g, s, a), im0, m, version, base)
  {
    StepInv(g, s, a);
    if a.Write? {
      WriteStored(g, s, a.fault);
      StoredForced(g, s, WriteStep(g, s, a.fault), OutcomeOf(g, s.pass), im0, m, version, base);
    } else {
      FrozenKeeps(g, s, a);
      if a.List? {
        LookupExact(g, s.pass.snap, m, FindJob(m, a.order, s.pass.snap.uid));
      }
    }
  }

  lemma NextForced(
    g: Config, states: seq<Cluster>, acts: seq<Action>, im0: Image, m: map<JobKey, Job>, version: nat,
    base: Option<Status>, i: nat)
    requires Connects(g, states, acts) && AllFrozen(acts) && i < |acts|
    requires Forced(g, states[i], im0, m, version, base)
    requires Tells(g, im0, m, Succeeded) && im0.status.templateVMID.None?
    ensures Forced(g, states[i + 1], im0, m, version, base)
  {
    StepForced(g, states[i], acts[i], im0, m, version, base);
  }

  lemma {:induction false} RunForced(
    g: Config, states: seq<Cluster>, acts: seq<Action>, im0: Image, m: map<JobKey, Job>, version: nat,
    base: Option<Status>, i: nat, j: nat)
    requires Connects(g, states, acts) && i <= j <= |acts|
    requires AllFrozen(acts)
    requires Forced(g, states[i], im0, m, version, base)
    requires Tells(g, im0, m, Succeeded) && im0.status.templateVMID.None?
    ensures Forced(g, states[j], im0, m, version, base)
  {
    if i < j {
      RunForced(g, states, acts, im0, m, version, base, i, j - 1);
      NextForced(g, states, acts, im0, m, version, base, j - 1);
    }
  }

  /** In the exceptional case every write after the first changes at most the build time. */
  lemma OnlyBuildTimeMoves(
    g: Config, states: seq<Cluster>, acts: seq<Action>, im: Image, m: map<JobKey, Job>, i: nat, j: nat)
    requires Connects(g, states, acts) && i <= j <= |acts| && Still(g, states[0], im, m, Succeeded)
    requires AllFrozen(acts)
    requires im.status.templateVMID.None? && states[i].nextVersion > states[0].nextVersion
    ensures Stored(states[i]).Some? && Stored(states[j]).Some?
    ensures SameButBuildTime(Stored(states[j]).value.status, Stored(states[i]).value.status)
  {
    var version := states[0].nextVersion;
    RunForced(g, states, acts, im, m, version, None, 0, i);
    RunForced(g, states, acts, im, m, version, Some(Stored(states[i]).value.status), i, j);
  }
}
