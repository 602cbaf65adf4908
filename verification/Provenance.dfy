/** Where an observed spec hash comes from. */
module Provenance {
  import opened Options
  import opened NodeImages
  import opened Decisions
  import opened Clusters
  import opened Invariants

  /** At state k of the run the API server held a Job for `hash`, owned by `uid`, that had completed. */
  ghost predicate BuiltBy(g: Config, states: seq<Cluster>, k: nat, hash: string, uid: nat)
    requires k < |states| && Shaped(states[k])
  {
    var m := LatestJobs(states[k]);
    exists key :: key in m && Matches(g, hash, key, m[key]) && IsOwnedBy(m[key], uid) && HasSucceeded(m[key])
  }

  /** At state j of the run this object had a spec with the given hash. */
  ghost predicate HadSpec(g: Config, states: seq<Cluster>, j: nat, hash: string, uid: nat)
    requires j < |states| && Shaped(states[j])
  {
    Stored(states[j]).Some? && Stored(states[j]).value.uid == uid && g.hash(Stored(states[j]).value.spec) == hash
  }

  ghost predicate Shapes(states: seq<Cluster>) {
    forall i :: 0 <= i < |states| ==> Shaped(states[i])
  }

  /** The observed hash is empty, or a Job had completed for it before the object, then specified
      so, recorded it. */
  ghost predicate Recorded(g: Config, states: seq<Cluster>, n: nat, im: Image)
    requires n < |states| && Shapes(states)
  {
    || im.status.observedSpecHash == ""
    || exists k: nat, j: nat :: k <= j <= n
         && BuiltBy(g, states, k, im.status.observedSpecHash, im.uid)
         && HadSpec(g, states, j, im.status.observedSpecHash, im.uid)
  }

  /** The Job a lookup returned was the API server's at some earlier moment. */
  ghost predicate Seen(g: Config, states: seq<Cluster>, n: nat, snap: Image, job: Job)
    requires n < |states| && Shapes(states)
  {
    exists k: nat :: k <= n && SeenAt(g, states, k, snap, job)
  }

  ghost predicate SeenAt(g: Config, states: seq<Cluster>, k: nat, snap: Image, job: Job)
    requires k < |states| && Shaped(states[k])
  {
    var m := LatestJobs(states[k]);
    exists key :: key in m && m[key] == job && Relevant(g, snap, key, job)
  }

  ghost predicate WasLatest(states: seq<Cluster>, n: nat, m: map<JobKey, Job>)
    requires n < |states| && Shapes(states)
  {
    exists k :: 0 <= k <= n && LatestJobs(states[k]) == m
  }

  ghost predicate History(g: Config, states: seq<Cluster>, n: nat)
    requires n < |states| && Shapes(states)
  {
    && (forall im :: Known(states[n], im) ==> Recorded(g, states, n, im))
    && (forall m :: m in states[n].jobs ==> WasLatest(states, n, m))
    && (states[n].pass.Listed? && states[n].pass.job.Some? ==>
          Seen(g, states, n, states[n].pass.snap, states[n].pass.job.value))
  }

  lemma Later(g: Config, states: seq<Cluster>, n: nat, im: Image)
    requires n + 1 < |states| && Shapes(states) && Recorded(g, states, n, im)
    ensures Recorded(g, states, n + 1, im)
  {
  }

  /** Job lists on their way to the cache were the latest one once. */
  lemma StepJobs(g: Config, s: Cluster, a: Action, m: map<JobKey, Job>)
    requires Shaped(s) && Enabled(g, s, a)
    requires m in Step(g, s, a).jobs
    ensures m in s.jobs || m == LatestJobs(Step(g, s, a))
  {
    if a.DeliverJobs? {
      assert s.jobs == [s.jobs[0]] + s.jobs[1..];
    }
  }

  lemma JobsHistory(g: Config, states: seq<Cluster>, acts: seq<Action>, n: nat, m: map<JobKey, Job>)
    requires Connects(g, states, acts) && n < |acts| && History(g, states, n)
    requires m in states[n + 1].jobs
    ensures WasLatest(states, n + 1, m)
  {
    StepJobs(g, states[n], acts[n], m);
    if m in states[n].jobs {
      assert WasLatest(states, n, m);
    }
  }

  lemma {:induction false} FoundIsListed(m: map<JobKey, Job>, order: seq<JobKey>, uid: nat) returns (key: JobKey)
    requires forall k :: k in order ==> k in m
    requires FindJob(m, order, uid).Some?
    ensures key in order && m[key] == FindJob(m, order, uid).value && IsOwnedBy(m[key], uid)
  {
    if IsOwnedBy(m[order[0]], uid) {
      key := order[0];
    } else {
      key := FoundIsListed(m, order[1..], uid);
    }
  }

  /** A lookup sees a Job of the cache, which was the latest list once. */
  lemma ListSeen(
    g: Config, states: seq<Cluster>, n: nat, m: map<JobKey, Job>, order: seq<JobKey>, snap: Image, job: Job)
    requires n < |states| && Shapes(states) && WasLatest(states, n, m)
    requires Enumerates(g, g.hash(snap.spec), m, order) && FindJob(m, order, snap.uid) == Some(job)
    ensures exists k: nat :: k <= n && SeenAt(g, states, k, snap, job)
  {
    var key := FoundIsListed(m, order, snap.uid);
    var k :| 0 <= k <= n && LatestJobs(states[k]) == m;
    assert SeenAt(g, states, k, snap, job);
  }

  lemma SeenLater(g: Config, states: seq<Cluster>, n: nat, snap: Image, job: Job)
    requires n + 1 < |states| && Shapes(states)
    requires exists k: nat :: k <= n && SeenAt(g, states, k, snap, job)
    ensures Seen(g, states, n + 1, snap, job)
  {
  }

  /** A pass past its lookup was so before, or the step was the lookup. */
  lemma ListedStep(g: Config, s: Cluster, a: Action)
    requires Shaped(s) && Enabled(g, s, a) && Step(g, s, a).pass.Listed?
    ensures var p := Step(g, s, a).pass;
            || p == s.pass
            || (&& a.List? && s.pass.Fetched? && p.snap == s.pass.snap
                && Enumerates(g, g.hash(p.snap.spec), CachedJobs(s), a.order)
                && p.job == FindJob(CachedJobs(s), a.order, p.snap.uid))
  {
  }

  lemma SeenHistory(g: Config, states: seq<Cluster>, acts: seq<Action>, n: nat)
    requires Connects(g, states, acts) && n < |acts| && History(g, states, n)
    requires states[n + 1].pass.Listed? && states[n + 1].pass.job.Some?
    ensures Seen(g, states, n + 1, states[n + 1].pass.snap, states[n + 1].pass.job.value)
  {
    var s, p := states[n], states[n + 1].pass;
    ListedStep(g, s, acts[n]);
    if p == s.pass {
      assert Seen(g, states, n, p.snap, p.job.value);
    } else {
      assert WasLatest(states, n, s.jobs[0]);
      ListSeen(g, states, n, s.jobs[0], acts[n].order, p.snap, p.job.value);
    }
    SeenLater(g, states, n, p.snap, p.job.value);
  }

  /** A committed success is recorded: the lookup saw the completed Job, the write met the spec. */
  lemma WriteRecorded(g: Config, states: seq<Cluster>, acts: seq<Action>, n: nat, im: Image)
    requires Connects(g, states, acts) && n < |acts| && History(g, states, n) && Inv(g, states[n])
    requires acts[n].Write? && Known(states[n + 1], im)
    ensures Recorded(g, states, n + 1, im)
  {
    var s, s' := states[n], states[n + 1];
    WriteStored(g, s, acts[n].fault);
    if Known(s, im) {
      Later(g, states, n, im);
    } else {
      var snap, out := s.pass.snap, OutcomeOf(g, s.pass);
      assert im == snap.(status := out.status, resourceVersion := s.nextVersion);
      assert Known(s, snap) && Recorded(g, states, n, snap);
      if out.status.observedSpecHash == snap.status.observedSpecHash {
        assert Recorded(g, states, n, im);
        Later(g, states, n, im);
      } else {
        assert s.pass.Listed? && HasSucceeded(s.pass.job.value);
        var k: nat :| k <= n && SeenAt(g, states, k, snap, s.pass.job.value);
        assert BuiltBy(g, states, k, im.status.observedSpecHash, im.uid);
        assert HadSpec(g, states, n, im.status.observedSpecHash, im.uid);
      }
    }
  }

  lemma OtherRecorded(g: Config, states: seq<Cluster>, acts: seq<Action>, n: nat, im: Image)
    requires Connects(g, states, acts) && n < |acts| && History(g, states, n)
    requires !acts[n].Write? && Known(states[n + 1], im)
    ensures Recorded(g, states, n + 1, im)
  {
    var s, s', a := states[n], states[n + 1], acts[n];
    if Known(s, im) {
      Later(g, states, n, im);
    } else if Edits(a) {
      if !a.Create? {
        var was := Stored(s).value;
        assert Known(s, was) && Recorded(g, states, n, was);
        assert im.status.observedSpecHash == was.status.observedSpecHash && im.uid == was.uid;
        assert Recorded(g, states, n, im);
        Later(g, states, n, im);
      }
    } else {
      OtherKnown(g, s, a, im);
    }
  }

  lemma StepHistory(g: Config, states: seq<Cluster>, acts: seq<Action>, n: nat)
    requires Connects(g, states, acts) && n < |acts| && Inv(g, states[n]) && History(g, states, n)
    ensures History(g, states, n + 1)
  {
    var s' := states[n + 1];
    forall m | m in s'.jobs
      ensures WasLatest(states, n + 1, m)
    {
      JobsHistory(g, states, acts, n, m);
    }
    if s'.pass.Listed? && s'.pass.job.Some? {
      SeenHistory(g, states, acts, n);
    }
    forall im | Known(s', im)
      ensures Recorded(g, states, n + 1, im)
    {
      if acts[n].Write? {
        WriteRecorded(g, states, acts, n, im);
      } else {
        OtherRecorded(g, states, acts, n, im);
      }
    }
  }

  lemma InitHistory(g: Config, states: seq<Cluster>)
    requires states != [] && Shapes(states) && Init(states[0])
    ensures History(g, states, 0)
  {
    assert LatestJobs(states[0]) == states[0].jobs[0];
  }

  lemma {:induction false} RunHistory(g: Config, states: seq<Cluster>, acts: seq<Action>, n: nat)
    requires IsRun(g, states, acts) && n <= |acts|
    ensures History(g, states, n)
  {
    if n == 0 {
      InitHistory(g, states);
    } else {
      RunHistory(g, states, acts, n - 1);
      RunInv(g, states, acts, n - 1);
      StepHistory(g, states, acts, n - 1);
    }
  }

  /** What it takes for a Job to have built a spec, spelled out. */
  lemma BuiltMeans(g: Config, s: Cluster, h: string, uid: nat) returns (key: JobKey)
    requires Shaped(s) && BuiltBy(g, [s], 0, h, uid)
    ensures key in LatestJobs(s)
    ensures var job := LatestJobs(s)[key];
            && JobCondition("Complete", IsTrue) in job.conditions
            && key.namespace == g.namespace
            && "karpenter.algo7.dev/spec-hash" in job.labels
            && job.labels["karpenter.algo7.dev/spec-hash"] == h
            && "karpenter.algo7.dev/pvenodeimage" in job.labels
            && job.labels["karpenter.algo7.dev/pvenodeimage"] == g.name
            && exists i :: 0 <= i < |job.owners| && job.owners[i].uid == uid
  {
    var m := LatestJobs(s);
    key :| key in m && Matches(g, h, key, m[key]) && IsOwnedBy(m[key], uid) && HasSucceeded(m[key]);
  }

  /** Provenance under interleaving: a stored, non-empty observed hash is the hash of a spec this very
      object had, at a moment when a Job owned by it and labelled with that hash had already been
      stored as complete. */
  lemma ObservedHashWasBuilt(g: Config, states: seq<Cluster>, acts: seq<Action>, n: nat)
    requires IsRun(g, states, acts) && n <= |acts| && Stored(states[n]).Some?
    requires Stored(states[n]).value.status.observedSpecHash != ""
    ensures var im := Stored(states[n]).value;
            exists k: nat, j: nat :: k <= j <= n
              && BuiltBy(g, states, k, im.status.observedSpecHash, im.uid)
              && HadSpec(g, states, j, im.status.observedSpecHash, im.uid)
    ensures var im := Stored(states[n]).value;
            var h := im.status.observedSpecHash;
            exists k: nat, j: nat, key: JobKey :: (
              && k <= j <= n && key in LatestJobs(states[k])
              && Stored(states[j]).Some? && Stored(states[j]).value.uid == im.uid
              && g.hash(Stored(states[j]).value.spec) == h
              && var job := LatestJobs(states[k])[key];
                 && JobCondition("Complete", IsTrue) in job.conditions
                 && key.namespace == g.namespace
                 && "karpenter.algo7.dev/spec-hash" in job.labels
                 && job.labels["karpenter.algo7.dev/spec-hash"] == h
                 && "karpenter.algo7.dev/pvenodeimage" in job.labels
                 && job.labels["karpenter.algo7.dev/pvenodeimage"] == g.name
                 && exists i :: 0 <= i < |job.owners| && job.owners[i].uid == im.uid)
  {
    RunHistory(g, states, acts, n);
    var im := Stored(states[n]).value;
    assert Known(states[n], im);
    var k: nat, j: nat :| k <= j <= n
      && BuiltBy(g, states, k, im.status.observedSpecHash, im.uid)
      && HadSpec(g, states, j, im.status.observedSpecHash, im.uid);
    var key := BuiltMeans(g, states[k], im.status.observedSpecHash, im.uid);
  }
}
