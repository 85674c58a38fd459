/** The readiness flags of the status: what they say of each driver, in failing passes too. */
module Readiness {
  import opened Base
  import opened DriverTypes
  import opened Cluster
  import opened History
  import opened Tasks
  import opened Plan
  import opened PlanFacts
  import opened PlanShape
  import opened CalmRuns
  import opened Lawful
  import opened Ordering
  import opened PassSafety
  import opened Ensured
  import opened StatusHonesty
  import opened StaleStatus
  import opened Incarnations

  // The world in which the steps of the pass that starts in w begin.
  function Begun(w: World): World {
    Do(w, GetDriver).1
  }

  // The steps up to those of the disk driver.
  function UpToDisk(spec: Spec): seq<Task> {
    RBAC_TASKS + DiskTasks(spec)
  }

  // The shared RBAC and the disk driver are enabled and finished, from w on.
  ghost predicate DiskDone(w: World, cr: Driver) {
    cr.spec.disk.enabled && RunAll(w, cr, UpToDisk(cr.spec)).0 == None
  }

  // The NAS driver is enabled, and everything finished.
  ghost predicate AllDone(w: World, cr: Driver) {
    cr.spec.nas.enabled && RunAll(w, cr, FullPlan(cr.spec)).0 == None
  }

  lemma FlagsOfPhases(w: World, cr: Driver)
    ensures Phases(w, cr).diskReady <==> DiskDone(w, cr)
    ensures Phases(w, cr).nasReady <==> AllDone(w, cr)
  {
    hide RunAll, DiskTasks, NasTasks, FullPlan;
    RunConcat(w, cr, RBAC_TASKS, DiskTasks(cr.spec));
    PhasesRunPlan(w, cr);
  }

  // The three conditions, in order, as the pass with this error reports them at this time.
  predicate Reports(conditions: seq<Condition>, err: Option<Error>, now: nat) {
    && |conditions| == 3
    && (conditions[0].ctype, conditions[1].ctype, conditions[2].ctype) == ("Available", "Degraded", "Progressing")
    && (conditions[0].status == "True" <==> err.None?)
    && (conditions[1].status == "False" <==> err.None?)
    && (forall i | 0 <= i < 3 :: conditions[i].status in {"True", "False"} && conditions[i].since == now)
    && conditions[2].status == "False"
    && (conditions[0].reason, conditions[1].reason, conditions[2].reason) ==
       (if err.None? then ("AsExpected", "AsExpected", "AsExpected") else ("ReconcileError", "ReconcileError", "Error"))
    && (conditions[0].cause, conditions[1].cause, conditions[2].cause) == (err, err, None)
  }

  // The status a pass computes, field by field.
  lemma ComputedFields(w: World, cr: Driver)
    ensures var st := NextStatus(cr, Phases(w, cr));
            && st.observedGeneration == cr.generation
            && (st.diskReady <==> DiskDone(w, cr))
            && (st.nasReady <==> AllDone(w, cr))
            && !st.ossReady
            && Reports(st.conditions, RunAll(w, cr, FullPlan(cr.spec)).0, Phases(w, cr).world.state.now)
  {
    hide RunAll, DiskDone, AllDone, FullPlan, DiskTasks, NasTasks;
    FlagsOfPhases(w, cr);
    PhasesRunPlan(w, cr);
    TrueIsNotFalse();
  }

  lemma TrueIsNotFalse()
    ensures "True" != "False"
  {
    assert |"True"| == 4 && |"False"| == 5;
  }

  // A pass on a fresh read whose status write takes effect on the custom resource it read
  // stores just this: the disk driver is ready exactly when it is enabled and every step
  // up to its last returned nil, also if the NAS driver fails later; the NAS driver exactly
  // when it is enabled and every step returned nil; OSS never.
  lemma StoredFields(w: World, cr: Driver)
    requires WellFormed(w) && FreshUids(w) && FreshReads(w.script) && ReadDriver(w) == Some(cr)
    requires Written(w, cr).alive && Served(Written(w, cr)) && Turned(Written(w, cr)).state.driver.Some?
    requires !Misdirected(w)
    ensures Pass(w).1.state.driver.Some?
    ensures var d := Pass(w).1.state.driver.value;
            && d.uid == cr.uid
            && d.status.observedGeneration == cr.generation
            && (d.status.diskReady <==> DiskDone(Begun(w), cr))
            && (d.status.nasReady <==> AllDone(Begun(w), cr))
            && !d.status.ossReady
            && Reports(d.status.conditions, RunAll(Begun(w), cr, FullPlan(cr.spec)).0, Written(w, cr).state.now)
  {
    hide WellFormed, FreshUids, FreshReads, Do, Phases, Turned, Reaches, Own, Conditions, AllReady, NextStatus,
        DiskDone, AllDone, RunAll, FullPlan, Reports;
    var got := Do(w, GetDriver);
    var p := Phases(got.1, cr);
    var t := Turned(p.world);
    DoReaches(w, GetDriver);
    ReachedWellFormed(w, got.1);
    ReachedUids(w, got.1);
    FreshDriver(w);
    UntilTheWrite(got.1, cr);
    StretchKeepsOwn(got.1, t, cr);
    OwnMeans(t.state, cr);
    PatchEffect(p.world, cr.status, NextStatus(cr, p));
    MergeSame(cr.status, NextStatus(cr, p));
    ComputedFields(got.1, cr);
  }

  lemma MergeSame(base: Status, next: Status)
    ensures MergeStatus(base, base, next) == next
  {
  }

  // ---- What ready means ----

  // Each step of a list was in place when its turn ended.
  ghost predicate EachInPlace(w: World, cr: Driver, tasks: seq<Task>) {
    forall i | 0 <= i < |tasks| :: InPlace(cr, tasks[i], After(w, cr, tasks, i + 1).state)
  }

  lemma FinishedInPlace(w: World, cr: Driver, tasks: seq<Task>)
    requires FreshReads(w.script) && AllTyped(tasks) && RunAll(w, cr, tasks).0 == None
    ensures EachInPlace(w, cr, tasks)
  {
    hide RunAll, InPlace, After, FreshReads, AllTyped, Reaches;
    forall i | 0 <= i < |tasks|
      ensures InPlace(cr, tasks[i], After(w, cr, tasks, i + 1).state)
    {
      AllInPlace(w, cr, tasks, i);
    }
  }

  lemma UpToDiskIsTyped(spec: Spec)
    requires spec.disk.enabled
    ensures AllTyped(UpToDisk(spec))
  {
    hide DiskTasks, NasTasks, Typed;
    PlanTyped(spec);
    forall i | 0 <= i < |UpToDisk(spec)|
      ensures Typed(UpToDisk(spec)[i])
    {
      assert UpToDisk(spec)[i] == FullPlan(spec)[i];
    }
  }

  // A driver that is done had each of its objects in place when its turn ended.
  lemma DoneInPlace(w: World, cr: Driver)
    requires FreshReads(w.script)
    ensures DiskDone(w, cr) ==> EachInPlace(w, cr, UpToDisk(cr.spec))
    ensures AllDone(w, cr) ==> EachInPlace(w, cr, FullPlan(cr.spec))
  {
    hide RunAll, EachInPlace, FreshReads, AllTyped, UpToDisk, FullPlan;
    PlanTyped(cr.spec);
    if DiskDone(w, cr) {
      UpToDiskIsTyped(cr.spec);
      FinishedInPlace(w, cr, UpToDisk(cr.spec));
    }
    if AllDone(w, cr) {
      FinishedInPlace(w, cr, FullPlan(cr.spec));
    }
  }

  // ---- Whole runs ----

  // Pass m read generation g, and each step up to the last of the disk driver, or each step
  // of the plan, was in place when its turn ended.
  ghost predicate DiskEnsuredBy(w: World, m: nat, g: nat) {
    var start := Restart(Run(w, m));
    ReadDriver(start).Some? &&
    var cr := ReadDriver(start).value;
    cr.generation == g && cr.spec.disk.enabled && EachInPlace(Begun(start), cr, UpToDisk(cr.spec))
  }

  ghost predicate NasEnsuredBy(w: World, m: nat, g: nat) {
    var start := Restart(Run(w, m));
    ReadDriver(start).Some? &&
    var cr := ReadDriver(start).value;
    cr.generation == g && cr.spec.nas.enabled && EachInPlace(Begun(start), cr, FullPlan(cr.spec))
  }

  // Readiness was stored before the run, or one of its first n passes had the objects of
  // the driver in place that the observed generation asks for.
  ghost predicate HonestFlags(w: World, n: nat, st: Status) {
    (w.state.driver.Some? && st == w.state.driver.value.status)
    || (&& !st.ossReady
        && (st.diskReady ==> exists m | 0 <= m < n :: DiskEnsuredBy(w, m, st.observedGeneration))
        && (st.nasReady ==> exists m | 0 <= m < n :: NasEnsuredBy(w, m, st.observedGeneration)))
  }

  lemma FlagsLater(w: World, n: nat, st: Status)
    requires HonestFlags(w, n, st)
    ensures HonestFlags(w, n + 1, st)
  {
    hide DiskEnsuredBy, NasEnsuredBy;
  }

  lemma ComputedFlags(w: World, n: nat)
    requires FreshReads(Restart(Run(w, n)).script) && Computed(Restart(Run(w, n)), Run(w, n + 1).state)
    ensures HonestFlags(w, n + 1, Run(w, n + 1).state.driver.value.status)
  {
    hide Run, Phases, Do, NextStatus, FreshReads, EachInPlace, DiskDone, AllDone, FullPlan, UpToDisk, Reaches, Reports,
        RunAll;
    var start := Restart(Run(w, n));
    var cr := ReadDriver(start).value;
    var st := Run(w, n + 1).state.driver.value.status;
    var begun := Begun(start);
    DoReaches(start, GetDriver);
    FreshScript(start, begun);
    ComputedFields(begun, cr);
    DoneInPlace(begun, cr);
    DoneIsEnabled(begun, cr);
    if st.diskReady {
      assert DiskEnsuredBy(w, n, st.observedGeneration);
    }
    if st.nasReady {
      assert NasEnsuredBy(w, n, st.observedGeneration);
    }
  }

  lemma DoneIsEnabled(w: World, cr: Driver)
    ensures DiskDone(w, cr) ==> cr.spec.disk.enabled
    ensures AllDone(w, cr) ==> cr.spec.nas.enabled
  {
  }

  // With one worker and fresh reads, and spec edits in between, over any run: a driver that
  // is stored as ready was so before the run, or some pass had each of its objects in place
  // that the observed generation asks for, also if that pass failed later.
  lemma {:induction false} StoredReadinessIsHonest(w: World, n: nat)
    requires WellFormed(w) && FreshReads(w.script) && NoRemoval(w.script)
    requires w.state.driver.Some? && w.state.driver.value.status.observedGeneration <= w.state.driver.value.generation
    ensures Run(w, n).state.driver.Some?
    ensures HonestFlags(w, n, Run(w, n).state.driver.value.status)
  {
    hide WellFormed, FreshReads, NoRemoval, Reaches, Pass, HonestFlags, HonestRun, Computed;
    if n == 0 {
      FirstFlags(w);
    } else {
      StoredReadinessIsHonest(w, n - 1);
      StoredStatusIsHonest(w, n - 1);
      StatusStep(w, n - 1);
      ReadyForPass(w, n - 1);
      var was := Run(w, n - 1).state.driver.value;
      var now := Run(w, n).state.driver.value;
      if now.status == was.status {
        FlagsLater(w, n - 1, now.status);
      } else {
        ComputedFlags(w, n - 1);
      }
    }
  }

  lemma FirstFlags(w: World)
    requires w.state.driver.Some?
    ensures HonestFlags(w, 0, Run(w, 0).state.driver.value.status)
  {
  }
}
