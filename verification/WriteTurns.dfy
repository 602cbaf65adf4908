/** What the controller does when left alone: turns of passes that write and wake each other, and how
    many of them there are. */
module WriteTurns {
  import opened Options
  import opened NodeImages
  import opened Decisions
  import opened Clusters
  import opened Invariants
  import opened Wakeup
  import opened StatusWrites

  // ---------- Frozen runs put together ----------

  lemma ReachesInv(g: Config, s: Cluster, t: Cluster)
    requires Reaches(g, s, t) && Inv(g, s)
    ensures Inv(g, t)
  {
    var states, acts :| ReachesBy(g, s, t, states, acts);
    ConnectsInv(g, states, acts, |acts|);
  }

  lemma {:induction false} ConnectsInv(g: Config, states: seq<Cluster>, acts: seq<Action>, n: nat)
    requires Connects(g, states, acts) && Inv(g, states[0]) && n <= |acts|
    ensures Inv(g, states[n])
  {
    if n > 0 {
      ConnectsInv(g, states, acts, n - 1);
      StepInv(g, states[n - 1], acts[n - 1]);
    }
  }

  lemma ReachesTrans(g: Config, s: Cluster, t: Cluster, u: Cluster)
    requires Reaches(g, s, t) && Reaches(g, t, u)
    ensures Reaches(g, s, u)
  {
    var ys, b :| ReachesBy(g, t, u, ys, b);
    ReachesAlong(g, s, ys, b, |b|);
  }

  lemma {:induction false} ReachesAlong(g: Config, s: Cluster, ys: seq<Cluster>, b: seq<Action>, n: nat)
    requires Connects(g, ys, b) && Reaches(g, s, ys[0]) && AllFrozen(b) && n <= |b|
    ensures Reaches(g, s, ys[n])
  {
    if n > 0 {
      ReachesAlong(g, s, ys, b, n - 1);
      ReachesNext(g, s, ys[n - 1], b[n - 1], ys[n]);
    }
  }

  // ---------- One turn ----------

  /** A state from which the controller will at once look at the live object again. */
  ghost predicate Poised(g: Config, s: Cluster, im: Image, m: map<JobKey, Job>) {
    && Inv(g, s) && s.pass.Idle? && s.queued
    && s.images == [Some(im)] && s.jobs[0] == m && !im.deleting
    && (im.status.lastBuildTime.Some? ==> im.status.lastBuildTime.value <= s.clock)
  }

  /** A pass reads the live object, one second later. */
  lemma PassReads(g: Config, s: Cluster, im: Image) returns (t: Cluster)
    requires Shaped(s) && s.pass.Idle? && s.queued && s.images == [Some(im)] && !im.deleting
    ensures t == s.(clock := s.clock + 1, queued := false, pass := Fetched(im, s.clock + 1))
    ensures Reaches(g, s, t)
  {
    var s1 := s.(clock := s.clock + 1);
    var s2 := s1.(queued := false, pass := Started);
    t := s2.(pass := Fetched(im, s2.clock));
    ReachesSelf(g, s);
    ReachesNext(g, s, s, Tick, s1);
    ReachesNext(g, s, s1, Dequeue, s2);
    ReachesNext(g, s, s2, Read, t);
  }

  /** And finds any Job that the cached Jobs allow, if it has to look for one. */
  lemma PassFinds(g: Config, s: Cluster, s2: Cluster, im: Image, m: map<JobKey, Job>, o: Option<Job>)
    returns (t: Cluster)
    requires Reaches(g, s, s2) && s2.images == [Some(im)] && s2.pass == Fetched(im, s2.clock)
    requires s2.jobs != [] && s2.jobs[0] == m
    requires Attainable(g, im, m, o)
    ensures Reaches(g, s, t) && t == s2.(pass := t.pass) && Ready(g, t.pass) && t.pass.snap == im
    ensures OutcomeOf(g, t.pass) == Decide(g.hash(im.spec), im, o, s2.clock)
  {
    if IsCurrent(g.hash(im.spec), im.status) {
      t := s2;
    } else {
      LookupExact(g, im, m, o);
      var order :| Enumerates(g, g.hash(im.spec), m, order) && FindJob(m, order, im.uid) == o;
      t := s2.(pass := Listed(im, s2.clock, o));
      ReachesNext(g, s, s2, List(order), t);
    }
  }

  /** A write of a new status is stored. */
  lemma WriteLands(g: Config, s: Cluster, im: Image, out: Outcome)
    requires Shaped(s) && Stored(s) == Some(im) && Ready(g, s.pass) && s.pass.snap == im
    requires OutcomeOf(g, s.pass) == out && out.changed && out.status != im.status
    ensures WriteStep(g, s, NoFault) ==
              s.(images := s.images + [Some(im.(status := out.status, resourceVersion := s.nextVersion))],
                 nextVersion := s.nextVersion + 1, pass := Returning(out.requeue))
  {
  }

  /** The write is stored, the pass ends, and the watch queues the object. */
  lemma PassWrites(g: Config, s0: Cluster, s: Cluster, im: Image, out: Outcome) returns (t: Cluster)
    requires Reaches(g, s0, s) && s.images == [Some(im)] && s.jobs != [] && Ready(g, s.pass) && s.pass.snap == im
    requires OutcomeOf(g, s.pass) == out && out.changed && out.status != im.status && out.requeue != Backoff
    ensures t == s.(images := [Some(im.(status := out.status, resourceVersion := s.nextVersion))],
                    nextVersion := s.nextVersion + 1, queued := true, pass := Idle, timer := t.timer)
    ensures out.requeue == NoRequeue ==> t.timer == s.timer
    ensures Reaches(g, s0, t)
  {
    var im' := im.(status := out.status, resourceVersion := s.nextVersion);
    var s1 := WriteStep(g, s, NoFault);
    ReachesNext(g, s0, s, Write(NoFault), s1);
    WriteLands(g, s, im, out);
    t := PassEnds(g, s0, s1, im, im');
  }

  lemma PassEnds(g: Config, s0: Cluster, s: Cluster, im: Image, im': Image) returns (t: Cluster)
    requires Reaches(g, s0, s) && s.images == [Some(im), Some(im')] && s.jobs != []
    requires s.pass.Returning? && s.pass.requeue != Backoff
    ensures t == s.(images := [Some(im')], queued := true, pass := Idle, timer := t.timer)
    ensures s.pass.requeue == NoRequeue ==> t.timer == s.timer
    ensures Reaches(g, s0, t)
  {
    var s1 := ReturnStep(s);
    t := s1.(images := [Some(im')], queued := true);
    ReachesNext(g, s0, s, Return, s1);
    ReachesNext(g, s0, s1, DeliverImage, t);
  }

  /** The object after a pass that stored its decision. */
  function Written(g: Config, im: Image, o: Option<Job>, now: nat, version: nat): Image {
    im.(status := Decide(g.hash(im.spec), im, o, now).status, resourceVersion := version)
  }

  /** One turn: a pass that writes, and whose write wakes the next pass. */
  lemma Turn(g: Config, s: Cluster, im: Image, m: map<JobKey, Job>, o: Option<Job>) returns (t: Cluster)
    requires Poised(g, s, im, m) && Attainable(g, im, m, o)
    requires Decide(g.hash(im.spec), im, o, s.clock + 1).status != im.status
    ensures Reaches(g, s, t) && Poised(g, t, Written(g, im, o, s.clock + 1, s.nextVersion), m)
    ensures t.nextVersion == s.nextVersion + 1 && t.jobs == s.jobs
    ensures Decide(g.hash(im.spec), im, o, s.clock + 1).requeue == NoRequeue ==> t.timer == s.timer
  {
    var read := PassReads(g, s, im);
    var found := PassFinds(g, s, read, im, m, o);
    assert Known(s, im);
    DecisionReports(g, im, o, s.clock + 1, s.nextVersion);
    t := PassWrites(g, s, found, im, OutcomeOf(g, found.pass));
    ReachesInv(g, s, t);
  }

  /** A pass that has nothing to write and asks for no requeue leaves the controller at rest. */
  lemma QuietTurn(g: Config, s: Cluster, im: Image, m: map<JobKey, Job>, o: Option<Job>) returns (t: Cluster)
    requires Poised(g, s, im, m) && Attainable(g, im, m, o)
    requires var out := Decide(g.hash(im.spec), im, o, s.clock + 1); !out.changed && out.requeue == NoRequeue
    ensures Reaches(g, s, t) && t == s.(clock := s.clock + 1, queued := false)
  {
    var read := PassReads(g, s, im);
    var found := PassFinds(g, s, read, im, m, o);
    var done := found.(pass := Returning(NoRequeue));
    t := done.(pass := Idle);
    ReachesNext(g, s, found, Write(NoFault), done);
    ReachesNext(g, s, done, Return, t);
  }

  /** One turn of the exceptional case: a pass that writes although only the build time changes. */
  lemma OneTurn(g: Config, s: Cluster, im: Image, m: map<JobKey, Job>, order: seq<JobKey>)
    returns (t: Cluster, im': Image)
    requires Poised(g, s, im, m) && im.status.templateVMID.None?
    requires Enumerates(g, g.hash(im.spec), m, order) && Verdict(FindJob(m, order, im.uid)) == Succeeded
    ensures Reaches(g, s, t) && Poised(g, t, im', m) && t.nextVersion == s.nextVersion + 1
    ensures im'.status.templateVMID.None? && im'.uid == im.uid && im'.spec == im.spec
  {
    var o := FindJob(m, order, im.uid);
    LookupExact(g, im, m, o);
    assert Known(s, im);
    DecisionReports(g, im, o, s.clock + 1, s.nextVersion);
    t := Turn(g, s, im, m, o);
    im' := Written(g, im, o, s.clock + 1, s.nextVersion);
  }

  // ---------- Turns without end ----------

  /** The lookup can find a success that does not make the object current, or now a running and now a
      failed Job. */
  ghost predicate Restless(g: Config, im: Image, m: map<JobKey, Job>) {
    !IsCurrent(g.hash(im.spec), im.status) && !Tame(g, im, m)
  }

  lemma NextCause(g: Config, s: Cluster, im: Image, m: map<JobKey, Job>) returns (o: Option<Job>)
    requires Poised(g, s, im, m) && Restless(g, im, m)
    ensures Attainable(g, im, m, o) && Decide(g.hash(im.spec), im, o, s.clock + 1).status != im.status
    ensures Verdict(o) == Succeeded ==> im.status.templateVMID.None?
  {
    assert Known(s, im);
    if k :| k in m && Relevant(g, im, k, m[k]) && im.status.templateVMID.None? && Verdict(Some(m[k])) == Succeeded {
      o := Some(m[k]);
      DecisionReports(g, im, o, s.clock + 1, s.nextVersion);
    } else {
      var j, k :| j in m && k in m && Relevant(g, im, j, m[j]) && Relevant(g, im, k, m[k])
                  && Verdict(Some(m[j])) != Verdict(Some(m[k]))
                  && Verdict(Some(m[j])) != Succeeded && Verdict(Some(m[k])) != Succeeded;
      var reported := Reported(im, Verdict(Some(m[j])));
      if reported && Reported(im, Verdict(Some(m[k]))) {
        ReportsOne(im, Verdict(Some(m[j])), Verdict(Some(m[k])));
      }
      o := Some(if reported then m[k] else m[j]);
      DecisionReports(g, im, o, s.clock + 1, s.nextVersion);
    }
  }

  lemma StaysRestless(g: Config, s: Cluster, im: Image, im': Image, m: map<JobKey, Job>, o: Option<Job>)
    requires Inv(g, s) && Known(s, im) && Restless(g, im, m)
    requires im' == Written(g, im, o, s.clock + 1, s.nextVersion)
    requires Verdict(o) == Succeeded ==> im.status.templateVMID.None?
    ensures Restless(g, im', m)
  {
    DecisionReports(g, im, o, s.clock + 1, s.nextVersion);
    if Tame(g, im', m) {
      assert Tame(g, im, m) by {
        assert forall k, job: Job :: Relevant(g, im', k, job) <==> Relevant(g, im, k, job);
      }
    }
  }

  lemma {:induction false} Turns(g: Config, s: Cluster, im: Image, m: map<JobKey, Job>, n: nat) returns (t: Cluster)
    requires Poised(g, s, im, m) && Restless(g, im, m)
    ensures Reaches(g, s, t) && t.nextVersion == s.nextVersion + n
    decreases n
  {
    if n == 0 {
      t := s;
      ReachesSelf(g, s);
    } else {
      var o := NextCause(g, s, im, m);
      var mid := Turn(g, s, im, m, o);
      var im' := Written(g, im, o, s.clock + 1, s.nextVersion);
      assert Known(s, im);
      StaysRestless(g, s, im, im', m, o);
      t := Turns(g, mid, im', m, n - 1);
      ReachesTrans(g, s, mid, t);
    }
  }

  // ---------- How many turns there are otherwise ----------

  /** The number of writes that the object and its Jobs allow. */
  ghost function MostWrites(g: Config, im: Image, m: map<JobKey, Job>): nat {
    if IsCurrent(g.hash(im.spec), im.status) then if Reported(im, Current) then 0 else 1
    else
      (if im.status.templateVMID.Some? && CanTell(g, im, m, Succeeded) then 2 else 0)
      + (if Unreported(g, im, m) then 1 else 0)
  }

  lemma MostIsPotential(g: Config, s: Cluster, im: Image, m: map<JobKey, Job>)
    requires Poised(g, s, im, m) && |s.jobs| == 1
    ensures Potential(g, s) == MostWrites(g, im, m) <= 3
  {
    assert s.jobs[0] == m;
  }

  /** While writes are left, some pass makes one of them. */
  lemma NextWriteCause(g: Config, im: Image, m: map<JobKey, Job>) returns (o: Option<Job>)
    requires MostWrites(g, im, m) > 0
    ensures Attainable(g, im, m, o)
    ensures var p := PhaseOf(g.hash(im.spec), im.status, o);
            if p == Succeeded then im.status.templateVMID.Some? && !Unreported(g, im, m)
            else !Reported(im, p) && (p == Current || Unreported(g, im, m))
  {
    if IsCurrent(g.hash(im.spec), im.status) {
      o := SomeAttainable(g, im, m);
    } else if Unreported(g, im, m) {
      var v :| v != Succeeded && CanTell(g, im, m, v) && !Reported(im, v);
      o :| Attainable(g, im, m, o) && Verdict(o) == v;
    } else {
      o :| Attainable(g, im, m, o) && Verdict(o) == Succeeded;
    }
  }

  /** A pass that found `p` leaves at most one write less to be made. */
  lemma OneLess(g: Config, im: Image, im': Image, m: map<JobKey, Job>, p: Phase)
    requires im'.uid == im.uid && im'.spec == im.spec && im'.status.templateVMID == im.status.templateVMID
    requires Reported(im', p) && (p == Current <==> IsCurrent(g.hash(im.spec), im.status))
    requires im'.status.observedSpecHash == if p == Succeeded then g.hash(im.spec) else im.status.observedSpecHash
    requires p == Succeeded ==> im.status.templateVMID.Some? && !Unreported(g, im, m)
    ensures MostWrites(g, im', m) + 1 >= MostWrites(g, im, m)
  {
    CanTellSame(g, im, im', m, Succeeded);
    if p == Succeeded && Reported(im', Current) {
      ReportsOne(im', Current, Succeeded);
    }
  }

  /** While writes are left, some pass makes one of them. */
  lemma NextWrite(g: Config, s: Cluster, im: Image, m: map<JobKey, Job>) returns (o: Option<Job>, im': Image)
    requires Poised(g, s, im, m) && Steady(g, im, [m]) && MostWrites(g, im, m) > 0
    ensures Attainable(g, im, m, o) && Decide(g.hash(im.spec), im, o, s.clock + 1).status != im.status
    ensures im' == Written(g, im, o, s.clock + 1, s.nextVersion)
    ensures Steady(g, im', [m]) && MostWrites(g, im', m) + 1 >= MostWrites(g, im, m)
  {
    assert Known(s, im);
    o := NextWriteCause(g, im, m);
    DecisionReports(g, im, o, s.clock + 1, s.nextVersion);
    im' := Written(g, im, o, s.clock + 1, s.nextVersion);
    SteadySame(g, im, im', [m]);
    OneLess(g, im, im', m, PhaseOf(g.hash(im.spec), im.status, o));
  }

  lemma {:induction false} AllWrites(g: Config, s: Cluster, im: Image, m: map<JobKey, Job>, n: nat)
    returns (t: Cluster)
    requires Poised(g, s, im, m) && Steady(g, im, [m]) && n <= MostWrites(g, im, m)
    ensures Reaches(g, s, t) && t.nextVersion == s.nextVersion + n
    decreases n
  {
    if n == 0 {
      t := s;
      ReachesSelf(g, s);
    } else {
      var o, im' := NextWrite(g, s, im, m);
      var mid := Turn(g, s, im, m, o);
      t := AllWrites(g, mid, im', m, n - 1);
      ReachesTrans(g, s, mid, t);
    }
  }

  // ---------- Main results ----------

  /** No frozen run from `s` stores more than `b` versions. */
  ghost predicate BoundedBy(g: Config, s: Cluster, b: nat) {
    forall t :: Reaches(g, s, t) ==> t.nextVersion <= s.nextVersion + b
  }

  lemma SteadyBounds(g: Config, s: Cluster)
    requires Inv(g, s) && Stored(s).Some? && Steady(g, Stored(s).value, s.jobs)
    ensures BoundedBy(g, s, Potential(g, s))
  {
    forall t | Reaches(g, s, t)
      ensures t.nextVersion <= s.nextVersion + Potential(g, s)
    {
      var states, acts :| ReachesBy(g, s, t, states, acts);
      WritesBounded(g, states, acts, |acts|);
    }
  }

  /** From a state in which a pass is about to start with all changes delivered, the exact number of
      writes that frozen runs can make. */
  lemma MostWritesExactly(g: Config, s: Cluster, im: Image, m: map<JobKey, Job>, b: nat)
    requires Poised(g, s, im, m) && s.jobs == [m] && Steady(g, im, [m])
    ensures BoundedBy(g, s, b) <==> MostWrites(g, im, m) <= b
    ensures MostWrites(g, im, m) <= 3
  {
    MostIsPotential(g, s, im, m);
    SteadyBounds(g, s);
    var t := AllWrites(g, s, im, m, MostWrites(g, im, m));
  }

  lemma {:induction false} TickTo(g: Config, s0: Cluster, s: Cluster, c: nat) returns (t: Cluster)
    requires Reaches(g, s0, s) && Shaped(s) && s.clock <= c
    ensures Reaches(g, s0, t) && t == s.(clock := c)
    decreases c - s.clock
  {
    if s.clock == c {
      t := s;
    } else {
      var s1 := s.(clock := s.clock + 1);
      ReachesNext(g, s0, s, Tick, s1);
      t := TickTo(g, s0, s1, c);
    }
  }

  /** A restart puts an end to whatever is under way, and makes the controller look again. */
  lemma RestartPoises(g: Config, s: Cluster, im: Image) returns (t: Cluster)
    requires Inv(g, s) && Stored(s) == Some(im) && !im.deleting
    ensures Reaches(g, s, t) && Poised(g, t, im, LatestJobs(s)) && t.nextVersion == s.nextVersion
  {
    var s1 := Step(g, s, Restart);
    ReachesSelf(g, s);
    ReachesNext(g, s, s, Restart, s1);
    var c := if im.status.lastBuildTime.Some? then im.status.lastBuildTime.value else 0;
    t := TickTo(g, s, s1, if c > s1.clock then c else s1.clock);
    ReachesInv(g, s, t);
  }

  // ---------- Leading the controller to given Jobs ----------

  /** Whatever pass is in flight can end without storing anything. */
  lemma EndPass(g: Config, s: Cluster) returns (t: Cluster)
    requires Shaped(s)
    ensures Reaches(g, s, t) && t == s.(pass := Idle, queued := t.queued, timer := t.timer)
    ensures !Dormant(g, s) ==> t.queued || t.timer.Some? || |t.images| > 1
    ensures s.queued ==> t.queued
  {
    ReachesSelf(g, s);
    if s.pass.Idle? {
      t := s;
    } else if s.pass.Returning? {
      t := ReturnStep(s);
      ReachesNext(g, s, s, Return, t);
    } else {
      var mid := AbandonPass(g, s);
      t := ReturnStep(mid);
      ReachesNext(g, s, mid, Return, t);
    }
  }

  /** A pass that has not decided can fail; one that has can lose its request. */
  lemma AbandonPass(g: Config, s: Cluster) returns (t: Cluster)
    requires Shaped(s) && (s.pass.Started? || s.pass.Fetched? || s.pass.Listed?)
    ensures Reaches(g, s, t) && t.pass.Returning? && t == s.(pass := Returning(t.pass.requeue))
    ensures !(Ready(g, s.pass) && !OutcomeOf(g, s.pass).changed) ==> t.pass.requeue == Backoff
    ensures Ready(g, s.pass) && !OutcomeOf(g, s.pass).changed ==> t.pass.requeue == OutcomeOf(g, s.pass).requeue
  {
    ReachesSelf(g, s);
    if Ready(g, s.pass) {
      t := WriteStep(g, s, LostRequest);
      ReachesNext(g, s, s, Write(LostRequest), t);
    } else {
      t := s.(pass := Returning(Backoff));
      ReachesNext(g, s, s, GiveUp, t);
    }
  }

  /** Nothing will make the controller look again, short of a restart or a Job change that wakes it. */
  predicate Dormant(g: Config, s: Cluster)
    requires Shaped(s)
  {
    && !s.queued && |s.images| == 1 && s.timer.None?
    && (|| s.pass.Idle? || s.pass == Returning(NoRequeue)
        || (Ready(g, s.pass) && !OutcomeOf(g, s.pass).changed && OutcomeOf(g, s.pass).requeue == NoRequeue))
  }

  /** Some Job change on the way to list i wakes the controller. */
  ghost predicate WokenBy(g: Config, jobs: seq<map<JobKey, Job>>, i: nat) {
    exists k :: 0 <= k < i && k + 1 < |jobs| && Wakes(g, jobs[k], jobs[k + 1])
  }

  lemma {:induction false} DeliverTo(g: Config, s0: Cluster, s: Cluster, i: nat) returns (t: Cluster)
    requires Reaches(g, s0, s) && Shaped(s) && i < |s.jobs|
    ensures Reaches(g, s0, t) && t == s.(jobs := s.jobs[i..], queued := t.queued)
    ensures s.queued || WokenBy(g, s.jobs, i) ==> t.queued
  {
    if i == 0 {
      t := s;
    } else {
      var mid := DeliverTo(g, s0, s, i - 1);
      t := mid.(jobs := mid.jobs[1..], queued := mid.queued || Wakes(g, mid.jobs[0], mid.jobs[1]));
      ReachesNext(g, s0, mid, DeliverJobs, t);
      assert mid.jobs[0] == s.jobs[i - 1] && mid.jobs[1] == s.jobs[i];
    }
  }

  lemma {:induction false} DeliverImages(g: Config, s0: Cluster, s: Cluster) returns (t: Cluster)
    requires Reaches(g, s0, s) && Shaped(s) && (s.queued || |s.images| > 1)
    ensures Reaches(g, s0, t) && t == s.(images := [Stored(s)], queued := true)
    decreases |s.images|
  {
    if |s.images| == 1 {
      t := s;
    } else {
      var mid := s.(images := s.images[1..], queued := true);
      ReachesNext(g, s0, s, DeliverImage, mid);
      t := DeliverImages(g, s0, mid);
    }
  }

  lemma FireIfNeeded(g: Config, s0: Cluster, s: Cluster) returns (t: Cluster)
    requires Reaches(g, s0, s) && Shaped(s) && (s.queued || |s.images| > 1 || s.timer.Some?)
    ensures Reaches(g, s0, t) && t == s.(clock := t.clock, queued := t.queued, timer := t.timer)
    ensures t.queued || |t.images| > 1
  {
    if s.queued || |s.images| > 1 {
      t := s;
    } else {
      var due := s.timer.value;
      var mid := TickTo(g, s0, s, if due > s.clock then due else s.clock);
      t := mid.(timer := None, queued := true);
      ReachesNext(g, s0, mid, FireTimer, t);
    }
  }

  /** The controller can be made to look at the object while list i is in its cache. */
  ghost predicate WillLook(g: Config, s: Cluster, i: nat)
    requires Shaped(s)
  {
    !Dormant(g, s) || i == |s.jobs| - 1 || WokenBy(g, s.jobs, i)
  }

  lemma LookPoises(g: Config, s: Cluster, im: Image, i: nat) returns (t: Cluster)
    requires Inv(g, s) && Stored(s) == Some(im) && !im.deleting && i < |s.jobs| && WillLook(g, s, i)
    ensures Reaches(g, s, t) && Poised(g, t, im, s.jobs[i]) && t.nextVersion == s.nextVersion
  {
    if i == |s.jobs| - 1 {
      t := RestartPoises(g, s, im);
    } else {
      var ended := EndPass(g, s);
      var delivered := DeliverTo(g, s, ended, i);
      t := ShowImage(g, s, delivered, im);
      ReachesInv(g, s, t);
    }
  }

  /** The controller, with no pass in flight but a reason to look, is shown the stored object. */
  lemma ShowImage(g: Config, s0: Cluster, s: Cluster, im: Image) returns (t: Cluster)
    requires Reaches(g, s0, s) && Shaped(s) && s.pass.Idle? && Stored(s) == Some(im)
    requires s.queued || |s.images| > 1 || s.timer.Some?
    ensures Reaches(g, s0, t) && t.images == [Some(im)] && t.queued && t.pass.Idle?
    ensures t.jobs == s.jobs && t.nextVersion == s.nextVersion
    ensures im.status.lastBuildTime.Some? ==> im.status.lastBuildTime.value <= t.clock
  {
    var fired := FireIfNeeded(g, s0, s);
    var shown := DeliverImages(g, s0, fired);
    var c := if im.status.lastBuildTime.Some? then im.status.lastBuildTime.value else 0;
    t := TickTo(g, s0, shown, if c > shown.clock then c else shown.clock);
  }

  // ---------- A dormant controller ----------

  /** Every list of Jobs that the controller can be made to look at is tame. */
  ghost predicate SteadyWhereSeen(g: Config, s: Cluster, im: Image)
    requires Shaped(s)
  {
    || IsCurrent(g.hash(im.spec), im.status)
    || forall i :: 0 <= i < |s.jobs| && WillLook(g, s, i) ==> Tame(g, im, s.jobs[i])
  }

  ghost predicate Sleeps(g: Config, s: Cluster, limit: nat) {
    && Inv(g, s) && Dormant(g, s) && Stored(s).Some? && SteadyWhereSeen(g, s, Stored(s).value)
    && s.nextVersion + |s.jobs| + 2 <= limit
  }

  /** A dormant controller stores nothing; it goes on sleeping, or wakes over steady Jobs. */
  lemma SleepsOrWakes(g: Config, s: Cluster, a: Action, limit: nat)
    requires Sleeps(g, s, limit) && !IsCurrent(g.hash(Stored(s).value.spec), Stored(s).value.status)
    requires Enabled(g, s, a) && Frozen(a)
    ensures var s' := Step(g, s, a);
            && Shaped(s') && Stored(s') == Stored(s) && (Sleeps(g, s', limit) || Budget(g, s', limit))
  {
    StepInv(g, s, a);
    var s' := Step(g, s, a);
    if a.DeliverJobs? {
      SleeperDelivers(g, s, s', Stored(s).value, limit);
    } else if a.Restart? {
      SleeperRestarts(g, s, s', Stored(s).value, limit);
    } else {
      SleeperStays(g, s, a);
      SameSleep(g, s, s', Stored(s).value, limit);
    }
  }

  lemma SleeperStays(g: Config, s: Cluster, a: Action)
    requires Inv(g, s) && Dormant(g, s) && Enabled(g, s, a) && Frozen(a) && !a.DeliverJobs? && !a.Restart?
    ensures var s' := Step(g, s, a);
            && Shaped(s') && s'.images == s.images && s'.jobs == s.jobs && s'.nextVersion == s.nextVersion
            && Dormant(g, s')
  {
  }

  lemma SameSleep(g: Config, s: Cluster, s': Cluster, im: Image, limit: nat)
    requires Sleeps(g, s, limit) && Stored(s) == Some(im) && Inv(g, s') && Dormant(g, s')
    requires s'.images == s.images && s'.jobs == s.jobs && s'.nextVersion == s.nextVersion
    ensures Sleeps(g, s', limit)
  {
    assert forall i: nat :: WillLook(g, s', i) <==> WillLook(g, s, i);
  }

  lemma WokenLater(g: Config, jobs: seq<map<JobKey, Job>>, i: nat)
    requires jobs != [] && WokenBy(g, jobs[1..], i)
    ensures WokenBy(g, jobs, i + 1)
  {
    var k :| 0 <= k < i && k + 1 < |jobs[1..]| && Wakes(g, jobs[1..][k], jobs[1..][k + 1]);
    assert Wakes(g, jobs[k + 1], jobs[k + 1 + 1]);
  }

  lemma LooksLater(g: Config, s: Cluster, s': Cluster, i: nat)
    requires Shaped(s) && Shaped(s') && |s.jobs| > 1 && Dormant(g, s) && i < |s'.jobs|
    requires s' == s.(jobs := s.jobs[1..], queued := s.queued || Wakes(g, s.jobs[0], s.jobs[1]))
    requires WillLook(g, s', i)
    ensures WillLook(g, s, i + 1) && s'.jobs[i] == s.jobs[i + 1]
  {
    if s'.queued {
      assert Wakes(g, s.jobs[0], s.jobs[0 + 1]);
      assert WokenBy(g, s.jobs, i + 1);
    } else if WokenBy(g, s'.jobs, i) {
      WokenLater(g, s.jobs, i);
    }
  }

  lemma SeenLater(g: Config, s: Cluster, s': Cluster, im: Image)
    requires Shaped(s) && Shaped(s') && |s.jobs| > 1 && Dormant(g, s)
    requires s' == s.(jobs := s.jobs[1..], queued := s.queued || Wakes(g, s.jobs[0], s.jobs[1]))
    requires SteadyWhereSeen(g, s, im)
    ensures SteadyWhereSeen(g, s', im) && (s'.queued ==> Steady(g, im, s'.jobs))
  {
    if !IsCurrent(g.hash(im.spec), im.status) {
      forall i | 0 <= i < |s'.jobs| && WillLook(g, s', i)
        ensures Tame(g, im, s'.jobs[i])
      {
        LooksLater(g, s, s', i);
      }
      assert s'.queued ==> forall i: nat :: WillLook(g, s', i);
    }
  }

  lemma SleeperDelivers(g: Config, s: Cluster, s': Cluster, im: Image, limit: nat)
    requires Sleeps(g, s, limit) && Stored(s) == Some(im) && |s.jobs| > 1 && Inv(g, s')
    requires s' == s.(jobs := s.jobs[1..], queued := s.queued || Wakes(g, s.jobs[0], s.jobs[1]))
    ensures Sleeps(g, s', limit) || Budget(g, s', limit)
  {
    SeenLater(g, s, s', im);
    if s'.queued {
      AwakeBudget(g, s', im, limit);
    } else {
      assert Dormant(g, s');
    }
  }

  lemma SleeperRestarts(g: Config, s: Cluster, s': Cluster, im: Image, limit: nat)
    requires Sleeps(g, s, limit) && Stored(s) == Some(im) && Inv(g, s') && s'.nextVersion == s.nextVersion
    requires !IsCurrent(g.hash(im.spec), im.status)
    requires s'.images == [Stored(s)] && s'.jobs == [LatestJobs(s)] && s'.pass.Idle?
    ensures Budget(g, s', limit)
  {
    assert WillLook(g, s, |s.jobs| - 1);
    assert Steady(g, im, s'.jobs);
  }

  lemma AwakeBudget(g: Config, s: Cluster, im: Image, limit: nat)
    requires Inv(g, s) && Stored(s) == Some(im) && Steady(g, im, s.jobs)
    requires s.nextVersion + |s.jobs| + 3 <= limit
    ensures Budget(g, s, limit)
  {
  }

  lemma {:induction false} RunSleeps(g: Config, states: seq<Cluster>, acts: seq<Action>, limit: nat, n: nat)
    requires Connects(g, states, acts) && AllFrozen(acts) && n <= |acts| && Sleeps(g, states[0], limit)
    requires !IsCurrent(g.hash(Stored(states[0]).value.spec), Stored(states[0]).value.status)
    ensures (Sleeps(g, states[n], limit) && Stored(states[n]) == Stored(states[0])) || Budget(g, states[n], limit)
  {
    if n > 0 {
      RunSleeps(g, states, acts, limit, n - 1);
      if Sleeps(g, states[n - 1], limit) && Stored(states[n - 1]) == Stored(states[0]) {
        SleepsOrWakes(g, states[n - 1], acts[n - 1], limit);
      } else {
        StepBudget(g, states[n - 1], acts[n - 1], limit);
      }
    }
  }

  lemma SeenBounds(g: Config, s: Cluster, im: Image)
    requires Inv(g, s) && Stored(s) == Some(im) && SteadyWhereSeen(g, s, im)
    ensures exists b: nat :: BoundedBy(g, s, b)
  {
    if !Dormant(g, s) || IsCurrent(g.hash(im.spec), im.status) {
      assert Steady(g, im, s.jobs) by {
        assert !Dormant(g, s) ==> forall i: nat :: WillLook(g, s, i);
      }
      SteadyBounds(g, s);
    } else {
      var b := |s.jobs| + 2;
      forall t | Reaches(g, s, t)
        ensures t.nextVersion <= s.nextVersion + b
      {
        var states, acts :| ReachesBy(g, s, t, states, acts);
        RunSleeps(g, states, acts, s.nextVersion + b, |acts|);
      }
      assert BoundedBy(g, s, b);
    }
  }

  // ---------- The exact condition ----------

  /** Bounded writes, exactly.  From any state with a live object, however far a pass in flight has come and
      whatever is not yet delivered: the writes of frozen runs are bounded if and only if the object is
      current, or in every list of Jobs, cached or on its way, that the controller can be made to look at,
      no relevant Job has succeeded while the template VMID is unset and no two that have not succeeded
      differ.  It can be made to look at the latest list, at any that it is woken by the time of, and
      unless it is dormant at all of them. */
  lemma WritesBoundedExactly(g: Config, s: Cluster, im: Image)
    requires Inv(g, s) && Stored(s) == Some(im) && !im.deleting
    ensures (exists b: nat :: BoundedBy(g, s, b)) <==> SteadyWhereSeen(g, s, im)
    ensures !Dormant(g, s) ==> (SteadyWhereSeen(g, s, im) <==> Steady(g, im, s.jobs))
    ensures |s.jobs| == 1 ==> (SteadyWhereSeen(g, s, im) <==> Steady(g, im, s.jobs))
  {
    if SteadyWhereSeen(g, s, im) {
      SeenBounds(g, s, im);
    } else {
      var i :| 0 <= i < |s.jobs| && WillLook(g, s, i) && !Tame(g, im, s.jobs[i]);
      var p := LookPoises(g, s, im, i);
      forall b: nat
        ensures !BoundedBy(g, s, b)
      {
        var t := Turns(g, p, im, s.jobs[i], b + 1);
        ReachesTrans(g, s, p, t);
      }
    }
    assert !Dormant(g, s) ==> forall i: nat :: WillLook(g, s, i);
  }
}
