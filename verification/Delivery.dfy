/**
 What an undisturbed pass delivers: it succeeds and makes every object a pure function of
 that object and the custom resource; a second one changes nothing.
 */
module Delivery {
  import opened Base
  import opened DriverTypes
  import opened Cluster
  import opened History
  import opened Tasks
  import opened Plan
  import opened PlanFacts
  import opened Runs
  import opened CalmRuns
  import opened Outcome
  import opened PlanShape

  predicate Succeeds(w: World) {
    Pass(w).0 == None && Pass(w).1.alive
  }

  // ---- What is delivered ----

  // What the plan makes of the object at a key, in closed form, for any class lists and
  // duplicate names.
  function Expected(cr: Driver, apis: Apis, k: Key, b: Option<Body>): Option<Body> {
    var plan := FullPlan(cr.spec);
    if AdoptKind(k.kind) then
      var first := FirstAdopted(plan, apis, k);
      if first.Some? then Adopted(cr, first.value, b) else b
    else if k.kind in {Deployment, DaemonSet} then
      var last := LastReplaced(plan, k);
      if last.Some? then Some(Fresh(cr, last.value)) else b
    else if k.kind == SnapshotClass then
      var first := FirstIgnored(plan, k);
      if b.None? && first.Some? && apis.snapshots then Some(Fresh(cr, first.value)) else b
    else if k.kind == StorageProfile then
      if b.Some? && apis.cdi && Patches(plan, k) then Some(Patch(b.value, AllPatches(plan, k))) else b
    else if k == NAMESPACE_KEY && b.Some? && !SccServed(apis) then
      Some(b.value.(labels := b.value.labels + PRIVILEGED_LABELS))
    else b
  }

  lemma PlanAdmits(spec: Spec)
    ensures Admits(FullPlan(spec))
  {
    hide DriverTasks;
    assert FullPlan(spec)[3] == Admit;
  }

  // The first entry of a name decides for a create-or-adopt kind, the last one for a
  // workload; what no task names is untouched.
  lemma PlanDelivers(cr: Driver, apis: Apis, k: Key, s: State)
    requires Friendly(cr, FullPlan(cr.spec), s)
    ensures PlanOn(cr, FullPlan(cr.spec), apis, k, At(s, k)) == Expected(cr, apis, k, At(s, k))
  {
    hide FullPlan, PlanOn, AllTyped, FlatPatches, Patch, Adopted, Friendly;
    var plan := FullPlan(cr.spec);
    var b := At(s, k);
    PlanTyped(cr.spec);
    PlanAdmits(cr.spec);
    if AdoptKind(k.kind) {
      AdoptOrUntouched(cr, plan, apis, k, s);
    } else if k.kind in {Deployment, DaemonSet} {
      ReplaceOutcome(cr, plan, apis, k, b);
    } else if k.kind == SnapshotClass {
      SnapshotOutcome(cr, plan, apis, k, b);
    } else if k.kind == StorageProfile {
      ProfileOutcome(cr, plan, apis, k, b);
    } else if k.kind == Namespace {
      NamespaceOutcome(cr, plan, apis, k, b);
    } else {
      OtherOutcome(cr, plan, apis, k, b);
    }
  }

  // A key that no task adopts may well be controlled by someone else.
  lemma AdoptOrUntouched(cr: Driver, plan: seq<Task>, apis: Apis, k: Key, before: State)
    requires AllTyped(plan) && AdoptKind(k.kind) && Friendly(cr, plan, before)
    ensures PlanOn(cr, plan, apis, k, At(before, k)) ==
            if FirstAdopted(plan, apis, k).Some? then Adopted(cr, FirstAdopted(plan, apis, k).value, At(before, k))
              else At(before, k)
  {
    hide PlanOn, Adopted;
    if FirstAdopted(plan, apis, k).Some? {
      FirstIsAdoptKey(plan, apis, k);
      AdoptOutcome(cr, plan, apis, k, At(before, k));
    } else {
      NeverAdopted(cr, plan, apis, k, At(before, k));
    }
  }

  lemma {:induction false} FirstIsAdoptKey(plan: seq<Task>, apis: Apis, k: Key)
    requires FirstAdopted(plan, apis, k).Some?
    ensures exists i | 0 <= i < |plan| :: k in AdoptKeys(plan[i])
    decreases |plan|
  {
    if AdoptsAt(plan[0], apis, k).Some? {
      assert k in AdoptKeys(plan[0]);
    } else {
      FirstIsAdoptKey(plan[1..], apis, k);
      var i :| 0 <= i < |plan[1..]| && k in AdoptKeys(plan[1..][i]);
      assert plan[i + 1] == plan[1..][i];
    }
  }

  lemma {:induction false} NeverAdopted(cr: Driver, plan: seq<Task>, apis: Apis, k: Key, b: Option<Body>)
    requires AllTyped(plan) && AdoptKind(k.kind) && FirstAdopted(plan, apis, k).None?
    ensures PlanOn(cr, plan, apis, k, b) == b
    decreases |plan|
  {
    if plan != [] {
      assert Typed(plan[0]);
      NeverAdopted(cr, plan[1..], apis, k, b);
    }
  }

  // ---- An undisturbed pass ----

  function ReadyStatus(cr: Driver, now: nat): Status {
    Status(cr.generation, cr.spec.disk.enabled, cr.spec.nas.enabled, false, Conditions(true, None, now))
  }

  // Refinement: an undisturbed pass is the pure function Expected on every object, and the
  // status says so.
  lemma UndisturbedPass(w: World, cr: Driver)
    requires w.alive && w.state.driver == Some(cr) && Friendly(cr, FullPlan(cr.spec), w.state)
    requires Undisturbed(w, Pass(w).1)
    ensures Succeeds(w)
    ensures var s := Pass(w).1.state;
            && s.apis == w.state.apis && s.now == w.state.now
            && s.driver == Some(cr.(status := ReadyStatus(cr, w.state.now)))
            && UidsKept(w.state, s)
            && (forall k :: At(s, k) == Expected(cr, w.state.apis, k, At(w.state, k)))
  {
    hide Do, Reaches, Phases, FullPlan, AllTyped, FlatPatches, PlanOn, Friendly, Conditions, Expected;
    var got := Do(w, GetDriver);
    DoReaches(w, GetDriver);
    var cr' := if got.0.FoundDriver? then got.0.driver else cr;
    var p := Phases(got.1, cr');
    PhasesReach(got.1, cr');
    var patch := PatchStatus(cr'.status, NextStatus(cr', p));
    DoReaches(p.world, patch);
    AfterRead(w, got.1, p.world, patch);
    CalmDo(w, GetDriver);
    PlanTyped(cr.spec);
    PhasesRunPlan(got.1, cr);
    SameFriends(cr, w, got.1);
    CalmAll(got.1, cr, FullPlan(cr.spec));
    PhasesReady(got.1, cr);
    CalmDo(p.world, patch);
    forall k
      ensures PlanOn(cr, FullPlan(cr.spec), w.state.apis, k, At(w.state, k)) ==
          Expected(cr, w.state.apis, k, At(w.state, k))
    {
      PlanDelivers(cr, w.state.apis, k, w.state);
    }
  }

  lemma AfterRead(w: World, got: World, worked: World, patch: Request)
    requires got == Do(w, GetDriver).1
    requires Do(w, GetDriver).0.FoundDriver? ==> Reaches(got, worked) && Pass(w).1 == Do(worked, patch).1
    requires Undisturbed(w, Pass(w).1)
    ensures Undisturbed(w, got)
    ensures Do(w, GetDriver).0.FoundDriver? ==> Undisturbed(got, worked) && Undisturbed(worked, Pass(w).1)
  {
    hide Do, Reaches, Phases, Pass;
    DoReaches(w, GetDriver);
    PassReaches(w);
    if Do(w, GetDriver).0.FoundDriver? {
      DoReaches(worked, patch);
      ReachesTransitive(got, worked, Pass(w).1);
      UndisturbedParts(w, got, Pass(w).1);
      UndisturbedParts(got, worked, Pass(w).1);
    } else {
      PassStops(w);
    }
  }

  lemma PassStops(w: World)
    requires !Do(w, GetDriver).0.FoundDriver?
    ensures Pass(w).1 == Do(w, GetDriver).1
  {
    hide Do, Phases;
  }

  lemma SameFriends(cr: Driver, w: World, w': World)
    requires Friendly(cr, FullPlan(cr.spec), w.state) && w'.state == w.state
    ensures Friendly(cr, FullPlan(cr.spec), w'.state)
  {
    hide FullPlan;
  }

  lemma PhasesReady(w: World, cr: Driver)
    requires Phases(w, cr).err == None
    ensures var p := Phases(w, cr);
            p.diskReady == cr.spec.disk.enabled && p.nasReady == cr.spec.nas.enabled && AllReady(cr.spec, p)
  {
    hide RunAll, DiskTasks, NasTasks;
  }

  // ---- A second pass ----

  lemma ExpectedTwice(cr: Driver, apis: Apis, k: Key, b: Option<Body>)
    requires AdoptKind(k.kind) && FirstAdopted(FullPlan(cr.spec), apis, k).Some? ==> Adoptable(cr, b)
    ensures var once := Expected(cr, apis, k, b); Expected(cr, apis, k, once) == once
  {
    hide FullPlan, Adoptable, Patch, Upsert;
    var plan := FullPlan(cr.spec);
    if AdoptKind(k.kind) {
      var first := FirstAdopted(plan, apis, k);
      if first.Some? {
        AdoptedIsControlled(cr, first.value, b);
      }
    } else if k.kind == StorageProfile && b.Some? {
      var f := AllPatches(plan, k);
      PatchTwice(b.value, f, f);
      assert f + f == f;
    } else if k == NAMESPACE_KEY && b.Some? {
      assert b.value.labels + PRIVILEGED_LABELS + PRIVILEGED_LABELS == b.value.labels + PRIVILEGED_LABELS;
    }
  }

  lemma FriendlyKeys(cr: Driver, apis: Apis, k: Key, s: State)
    requires Friendly(cr, FullPlan(cr.spec), s)
    ensures FirstAdopted(FullPlan(cr.spec), apis, k).Some? ==> Adoptable(cr, At(s, k))
  {
    hide FullPlan, Adoptable;
    if FirstAdopted(FullPlan(cr.spec), apis, k).Some? {
      FirstIsAdoptKey(FullPlan(cr.spec), apis, k);
    }
  }

  // Fixpoint: an undisturbed pass after an undisturbed pass leaves every object as it is,
  // up to its resourceVersion, for any class lists and any duplicate names.
  lemma SecondPassIsIdle(w: World, cr: Driver)
    requires w.alive && w.state.driver == Some(cr) && Friendly(cr, FullPlan(cr.spec), w.state)
    requires Undisturbed(w, Pass(w).1) && Undisturbed(Pass(w).1, Pass(Pass(w).1).1)
    ensures Succeeds(Pass(w).1)
    ensures var s, s' := Pass(w).1.state, Pass(Pass(w).1).1.state;
            s'.driver == s.driver && s'.apis == s.apis && UidsKept(s, s') && forall k :: At(s', k) == At(s, k)
  {
    hide Pass, FullPlan, Friendly, Undisturbed, Expected, Adoptable;
    UndisturbedPass(w, cr);
    var w1 := Pass(w).1;
    var cr1 := cr.(status := ReadyStatus(cr, w.state.now));
    StillFriendly(cr, cr1, w.state, w1.state);
    UndisturbedPass(w1, cr1);
    forall k
      ensures At(Pass(w1).1.state, k) == At(w1.state, k)
    {
      FriendlyKeys(cr, w.state.apis, k, w.state);
      ExpectedTwice(cr, w.state.apis, k, At(w.state, k));
      StatusIsIrrelevant(cr, cr1.status, w.state.apis, k, At(w1.state, k));
    }
  }

  lemma StatusIsIrrelevant(cr: Driver, status: Status, apis: Apis, k: Key, b: Option<Body>)
    ensures Expected(cr.(status := status), apis, k, b) == Expected(cr, apis, k, b)
  {
    hide FullPlan, FirstAdopted, LastReplaced, FirstIgnored, Patches, AllPatches, Upsert;
  }

  lemma StillFriendly(cr: Driver, cr1: Driver, s: State, s1: State)
    requires cr1 == cr.(status := cr1.status) && Friendly(cr, FullPlan(cr.spec), s)
    requires forall k :: At(s1, k) == Expected(cr, s.apis, k, At(s, k))
    ensures Friendly(cr1, FullPlan(cr1.spec), s1)
  {
    hide FullPlan, Expected, PlanOn, TaskOn;
    var plan := FullPlan(cr.spec);
    forall i, k | 0 <= i < |plan| && k in AdoptKeys(plan[i])
      ensures Adoptable(cr1, At(s1, k))
    {
      PlanDelivers(cr, s.apis, k, s);
      PlanKeepsAdoptable(cr, plan, s.apis, k, At(s, k));
      SameRef(cr, cr1, At(s1, k));
    }
  }

  lemma SameRef(cr: Driver, cr1: Driver, b: Option<Body>)
    requires cr1 == cr.(status := cr1.status)
    ensures Adoptable(cr1, b) <==> Adoptable(cr, b)
  {
  }

  lemma {:induction false} PlanKeepsAdoptable(cr: Driver, tasks: seq<Task>, apis: Apis, k: Key, b: Option<Body>)
    requires Adoptable(cr, b)
    ensures Adoptable(cr, PlanOn(cr, tasks, apis, k, b))
    decreases |tasks|
  {
    hide Adoptable, TaskOn;
    if tasks != [] {
      TaskKeepsAdoptable(cr, tasks[0], apis, k, b);
      PlanKeepsAdoptable(cr, tasks[1..], apis, k, TaskOn(cr, tasks[0], apis, k, b));
    }
  }
}
