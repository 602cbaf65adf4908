/** What one reconcile pass concludes from the object it read and the Job it found. */
module Decisions {
  import opened Options
  import opened NodeImages
  import opened Conditions

  const BUILDING := "Building"
  const BUILD_SUCCEEDED := "BuildSucceeded"

  const LABEL_SPEC_HASH := "karpenter.algo7.dev/spec-hash"
  const LABEL_MANAGED_BY := "karpenter.algo7.dev/pvenodeimage"

  const JOB_COMPLETE := "Complete"
  const JOB_FAILED := "Failed"

  // ---------- Jobs ----------

  predicate IsOwnedBy(job: Job, uid: nat) {
    exists i :: 0 <= i < |job.owners| && job.owners[i].uid == uid
  }

  predicate Reports(job: Job, kind: string) {
    exists i :: 0 <= i < |job.conditions| && job.conditions[i] == JobCondition(kind, IsTrue)
  }

  predicate IsFinished(job: Job) {
    Reports(job, JOB_COMPLETE) || Reports(job, JOB_FAILED)
  }

  predicate HasSucceeded(job: Job) {
    Reports(job, JOB_COMPLETE)
  }

  // ---------- The decision ----------

  /** The five situations a pass can find itself in. */
  datatype Phase = Current | NoJob | Running | Succeeded | Failed

  predicate IsCurrent(hash: string, st: Status) {
    st.observedSpecHash == hash && st.templateVMID.Some?
  }

  function Verdict(job: Option<Job>): Phase {
    if job.None? then NoJob
    else if !IsFinished(job.value) then Running
    else if HasSucceeded(job.value) then Succeeded
    else Failed
  }

  function PhaseOf(hash: string, st: Status, job: Option<Job>): Phase {
    if IsCurrent(hash, st) then Current else Verdict(job)
  }

  function BuildingMark(p: Phase): Mark {
    match p
    case Current => Mark(IsFalse, "BuildComplete", "Template is up to date")
    case NoJob => Mark(IsTrue, "BuildPending", "Build Job not yet created")
    case Running => Mark(IsTrue, "BuildInProgress", "Packer build is running")
    case Succeeded => Mark(IsFalse, "BuildComplete", "Build completed successfully")
    case Failed => Mark(IsFalse, "BuildFailed", "Packer build failed; see Job logs")
  }

  function SucceededMark(p: Phase): Mark {
    match p
    case Current => Mark(IsTrue, "TemplateCurrent", "Template matches current spec")
    case NoJob => Mark(IsFalse, "SpecChanged", "Build in progress for new spec")
    case Running => Mark(IsFalse, "BuildInProgress", "Build in progress")
    case Succeeded => Mark(IsTrue, "BuildComplete", "Template built and available")
    case Failed => Mark(IsFalse, "BuildFailed", "Most recent build failed")
  }

  /** The status whose two conditions report phase `p` and which is otherwise `st`. */
  function Reporting(st: Status, p: Phase, generation: int, now: nat): Status {
    st.(conditions := Upsert(Upsert(st.conditions, BUILDING, BuildingMark(p), generation, now),
                             BUILD_SUCCEEDED, SucceededMark(p), generation, now))
  }

  datatype Requeue = NoRequeue | AfterInterval | Backoff

  datatype Outcome = Outcome(status: Status, changed: bool, requeue: Requeue)

  /** The whole decision.  `changed` is exact except after a successful build, where it is forced. */
  function Decide(hash: string, im: Image, job: Option<Job>, now: nat): Outcome {
    var p := PhaseOf(hash, im.status, job);
    var base := if p == Succeeded
                then im.status.(observedSpecHash := hash, lastBuildTime := Some(now))
                else im.status;
    var st := Reporting(base, p, im.generation, now);
    Outcome(st, p == Succeeded || st != im.status,
            if p == NoJob || p == Running then AfterInterval else NoRequeue)
  }

  /** Equality of statuses that ignores when the last build was recorded. */
  predicate SameButBuildTime(a: Status, b: Status) {
    a == b.(lastBuildTime := a.lastBuildTime)
  }

  // ---------- What the decision does to well-formed conditions ----------

  /** Either nothing has been reported yet, or exactly the two conditions have, by one pass. */
  predicate WellFormed(im: Image) {
    var cs := im.status.conditions;
    || cs == []
    || (&& |cs| == 2
        && cs[0].kind == BUILDING && cs[1].kind == BUILD_SUCCEEDED
        && cs[0].observedGeneration == cs[1].observedGeneration <= im.generation
        && !(cs[0].status == IsTrue && cs[1].status == IsTrue))
  }

  /** Entry `c` says `m` for the given generation. */
  predicate Says(c: Condition, kind: string, m: Mark, generation: int) {
    c == Condition(kind, m.status, m.reason, m.message, generation, c.lastTransition)
  }

  /** The decision's conditions: exactly the two of its phase, with the transition time of each kept
      unless its status flips. */
  lemma DecideConditions(hash: string, im: Image, job: Option<Job>, now: nat)
    requires WellFormed(im)
    ensures var p, cs, cs' := PhaseOf(hash, im.status, job), im.status.conditions,
                              Decide(hash, im, job, now).status.conditions;
            && |cs'| == 2
            && Says(cs'[0], BUILDING, BuildingMark(p), im.generation)
            && Says(cs'[1], BUILD_SUCCEEDED, SucceededMark(p), im.generation)
            && (forall i :: 0 <= i < 2 ==>
                  cs'[i].lastTransition ==
                    if |cs| == 2 && cs[i].status == cs'[i].status then cs[i].lastTransition else now)
            && WellFormed(im.(status := Decide(hash, im, job, now).status))
  {
    var p, cs := PhaseOf(hash, im.status, job), im.status.conditions;
    var mid := Upsert(cs, BUILDING, BuildingMark(p), im.generation, now);
    if |cs| == 2 {
      PositionUnique(cs, 0);
    }
    assert mid[0].kind == BUILDING;
    PositionUnique(mid, 0);
    if |cs| == 2 {
      PositionUnique(mid, 1);
    } else {
      assert Position(mid, BUILD_SUCCEEDED) == 1;
    }
  }

  /** Deciding twice in the same phase: the second time changes nothing. */
  lemma DecideQuiet(hash: string, im: Image, job: Option<Job>, now: nat)
    requires WellFormed(im)
    ensures var p, cs, out := PhaseOf(hash, im.status, job), im.status.conditions, Decide(hash, im, job, now);
            var reported := |cs| == 2 && Says(cs[0], BUILDING, BuildingMark(p), im.generation)
                                      && Says(cs[1], BUILD_SUCCEEDED, SucceededMark(p), im.generation);
            && (out.status.conditions == cs <==> reported)
            && (p != Succeeded ==> (out.changed <==> !reported))
  {
    DecideConditions(hash, im, job, now);
    var cs, cs' := im.status.conditions, Decide(hash, im, job, now).status.conditions;
    if |cs| == 2 && cs'[0] == cs[0] && cs'[1] == cs[1] {
      assert cs' == cs;
    }
  }

  // ---------- What a pass says, spelled out ----------

  /** Building is True exactly while the template is not current and no Job has ended; BuildSucceeded is
      True exactly if the template is current or a Job has completed; both are False otherwise, and both
      are for the generation that was read. */
  lemma ConditionsMean(hash: string, im: Image, job: Option<Job>, now: nat)
    requires WellFormed(im)
    ensures var current := im.status.observedSpecHash == hash && im.status.templateVMID.Some?;
            var complete := job.Some? && JobCondition("Complete", IsTrue) in job.value.conditions;
            var ended := complete || (job.Some? && JobCondition("Failed", IsTrue) in job.value.conditions);
            var cs := Decide(hash, im, job, now).status.conditions;
            && |cs| == 2 && cs[0].kind == "Building" && cs[1].kind == "BuildSucceeded"
            && cs[0].status == (if current || ended then IsFalse else IsTrue)
            && cs[1].status == (if current || complete then IsTrue else IsFalse)
            && cs[0].observedGeneration == cs[1].observedGeneration == im.generation
  {
    DecideConditions(hash, im, job, now);
    VerdictMeans(job);
  }

  lemma VerdictMeans(job: Option<Job>)
    ensures var complete := job.Some? && JobCondition("Complete", IsTrue) in job.value.conditions;
            var ended := complete || (job.Some? && JobCondition("Failed", IsTrue) in job.value.conditions);
            Verdict(job) ==
              if job.None? then NoJob else if complete then Succeeded else if ended then Failed else Running
  {
  }

  /** What the two conditions give as their reasons and messages. */
  lemma ReasonsMean(hash: string, im: Image, job: Option<Job>, now: nat)
    requires WellFormed(im)
    ensures var cs := Decide(hash, im, job, now).status.conditions;
            && |cs| == 2
            && var said := [(cs[0].reason, cs[0].message), (cs[1].reason, cs[1].message)];
               if im.status.observedSpecHash == hash && im.status.templateVMID.Some? then
                 said == [("BuildComplete", "Template is up to date"),
                          ("TemplateCurrent", "Template matches current spec")]
               else if job.None? then
                 said == [("BuildPending", "Build Job not yet created"),
                          ("SpecChanged", "Build in progress for new spec")]
               else if JobCondition("Complete", IsTrue) in job.value.conditions then
                 said == [("BuildComplete", "Build completed successfully"),
                          ("BuildComplete", "Template built and available")]
               else if JobCondition("Failed", IsTrue) in job.value.conditions then
                 said == [("BuildFailed", "Packer build failed; see Job logs"),
                          ("BuildFailed", "Most recent build failed")]
               else
                 said == [("BuildInProgress", "Packer build is running"), ("BuildInProgress", "Build in progress")]
  {
    DecideConditions(hash, im, job, now);
    VerdictMeans(job);
  }

  /** The rest of the status: a completed Job that was looked at records the hash and the time, and forces
      the update; nothing else changes it.  Without a current template or a Job that has ended, the pass
      asks to be repeated. */
  lemma RecordMeans(hash: string, im: Image, job: Option<Job>, now: nat)
    ensures var current := im.status.observedSpecHash == hash && im.status.templateVMID.Some?;
            var complete := job.Some? && JobCondition("Complete", IsTrue) in job.value.conditions;
            var ended := complete || (job.Some? && JobCondition("Failed", IsTrue) in job.value.conditions);
            var out, st := Decide(hash, im, job, now), im.status;
            && out.status.templateVMID == st.templateVMID && out.status.templateNode == st.templateNode
            && out.status.observedSpecHash == (if complete && !current then hash else st.observedSpecHash)
            && out.status.lastBuildTime == (if complete && !current then Some(now) else st.lastBuildTime)
            && (out.changed <==> (complete && !current) || out.status != st)
            && out.requeue == (if current || ended then NoRequeue else AfterInterval)
  {
    VerdictMeans(job);
  }
}
