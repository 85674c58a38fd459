/** What a pass that returned nil leaves in the store, and what deletions can undo meanwhile. */
module NilPass {
  import opened Base
  import opened DriverTypes
  import opened Cluster
  import opened History
  import opened Tasks
  import opened Plan
  import opened PlanFacts
  import opened Runs
  import opened CalmRuns
  import opened Outcome
  import opened PlanShape
  import opened Lawful
  import opened Ordering
  import opened PassSafety
  import opened Ownership
  import opened Ensured
  import opened Admission
  import opened Delivery
  import opened StatusHonesty
  import ClassNames

  // ---- Nil means that everything others spared is there ----

  lemma StatusEventKeepsSettled(t: Task, live: bool, e: Event)
    requires Settled(t, live, e.before) && e.byOperator && OperatorShape(e) && e.target == OnDriver
    ensures Settled(t, live, e.after)
  {
  }

  lemma StatusKeepsSettled(w: World, patch: Request, t: Task, live: bool)
    requires patch.PatchStatus? && Settled(t, live, w.state) && |w.log| <= |Do(w, patch).1.log|
    requires Spared(t, Do(w, patch).1.log, |w.log|, |Do(w, patch).1.log|)
    ensures Settled(t, live, Do(w, patch).1.state)
  {
    hide Do, Settled, WellFormed, Path, FromScript, OperatorShape, Permitted, Extends, Spares;
    var w' := Do(w, patch).1;
    DoReaches(w, patch);
    DoEvents(w, patch);
    var events := Trace(w, w');
    forall i | 0 <= i < |events|
      ensures Settled(t, live, events[i].before) ==> Settled(t, live, events[i].after)
    {
      assert events[i] == w'.log[|w.log| + i];
      if Settled(t, live, events[i].before) {
        if events[i].byOperator {
          StatusEventKeepsSettled(t, live, events[i]);
        } else {
          OthersKeepSettled(t, live, events[i]);
        }
      }
    }
    PathInvariant(w.state, events, w'.state, (s: State) => Settled(t, live, s));
  }

  // When a pass returns nil, every object of the plan that others spared during it is in
  // place, whatever faults, stale reads and other edits it met; in particular every object
  // whose key the script never removes.
  lemma NilMeansDelivered(w: World, live: bool, m: nat)
    requires WellFormed(w) && (live ==> FreshReads(w.script))
    requires Pass(w).0 == None && ReadDriver(w).Some? && m < |FullPlan(ReadDriver(w).value.spec)|
    ensures |w.log| <= |Pass(w).1.log|
    ensures var t := FullPlan(ReadDriver(w).value.spec)[m];
            var w' := Pass(w).1;
            && (Spared(t, w'.log, |w.log|, |w'.log|) ==> Settled(t, live, w'.state))
            && ((t.Adopt? || t.Replace?) && NeverRemoved(w.script, t.key) ==> t.key in w'.state.objects)
  {
    hide Do, WellFormed, FreshReads, Reaches, FullPlan, Phases, Settled, Spared, NeverRemoved;
    var cr := ReadDriver(w).value;
    var t := FullPlan(cr.spec)[m];
    var w' := Pass(w).1;
    PassReaches(w);
    LogGrows(w, w');
    if Spared(t, w'.log, |w.log|, |w'.log|) {
      SparedDelivered(w, live, m);
    }
    if (t.Adopt? || t.Replace?) && NeverRemoved(w.script, t.key) {
      NeverRemovedSpares(w, w', t, |w.log|);
      SparedDelivered(w, live, m);
      SettledMeansPresent(t, live, w'.state);
    }
  }

  lemma SettledMeansPresent(t: Task, live: bool, s: State)
    requires (t.Adopt? || t.Replace?) && Settled(t, live, s)
    ensures t.key in s.objects
  {
  }

  lemma SparedDelivered(w: World, live: bool, m: nat)
    requires WellFormed(w) && (live ==> FreshReads(w.script))
    requires Pass(w).0 == None && ReadDriver(w).Some? && m < |FullPlan(ReadDriver(w).value.spec)|
    requires |w.log| <= |Pass(w).1.log|
    requires Spared(FullPlan(ReadDriver(w).value.spec)[m], Pass(w).1.log, |w.log|, |Pass(w).1.log|)
    ensures Settled(FullPlan(ReadDriver(w).value.spec)[m], live, Pass(w).1.state)
  {
    hide Do, WellFormed, FreshReads, Reaches, FullPlan, Phases, InOrder, Settled, Spared;
    var cr := ReadDriver(w).value;
    var tasks := FullPlan(cr.spec);
    var p := Phases(Do(w, GetDriver).1, cr);
    var patch := PatchStatus(cr.status, NextStatus(cr, p));
    var log := Pass(w).1.log;
    PhasesInOrder(w, live, cr);
    DoReaches(p.world, patch);
    LogGrows(p.world, Pass(w).1);
    SparedHead(tasks[m], log, |w.log|, |p.world.log|, |log|);
    SparedPrefix(tasks[m], p.world.log, log, |w.log|, |p.world.log|);
    SparedTail(tasks[m], log, |w.log|, |p.world.log|, |log|);
    assert Settled(tasks[m], live, p.world.state);
    StatusKeepsSettled(p.world, patch, tasks[m], live);
  }

  // ---- What is there at the end, exactly ----

  ghost predicate Removes(key: Key, e: Event) {
    key in e.before.objects && key !in e.after.objects
  }

  ghost predicate Restores(key: Key, e: Event) {
    key !in e.before.objects && key in e.after.objects
  }

  // Every removal of the key is followed by a write that brings it back.
  ghost predicate Rewritten(key: Key, events: seq<Event>) {
    forall i | 0 <= i < |events| && Removes(key, events[i]) :: exists j | i < j < |events| :: Restores(key, events[j])
  }

  lemma {:induction false} LastRemoval(s: State, events: seq<Event>, s': State, key: Key)
    requires Path(s, events, s') && key in s.objects && key !in s'.objects
    ensures exists i | 0 <= i < |events| ::
              Removes(key, events[i]) && forall j | i < j < |events| :: !Restores(key, events[j])
    decreases |events|
  {
    var front, last := events[..|events| - 1], events[|events| - 1];
    if key in last.before.objects {
      assert Removes(key, events[|events| - 1]);
    } else {
      LastRemoval(s, front, last.before, key);
      var i :| 0 <= i < |front| && Removes(key, front[i]) && forall j | i < j < |front| :: !Restores(key, front[j]);
      assert Removes(key, events[i]);
      forall j | i < j < |events|
        ensures !Restores(key, events[j])
      {
        if j < |front| {
          assert events[j] == front[j];
        }
      }
    }
  }

  // An object that was there is there at the end exactly when it was rewritten after every
  // removal.
  lemma PresentIffRewritten(s: State, events: seq<Event>, s': State, key: Key)
    requires Path(s, events, s') && key in s.objects
    ensures key in s'.objects <==> Rewritten(key, events)
  {
    hide Path;
    if key !in s'.objects {
      LastRemoval(s, events, s', key);
    } else {
      forall i | 0 <= i < |events| && Removes(key, events[i])
        ensures exists j | i < j < |events| :: Restores(key, events[j])
      {
        var rest := events[i + 1..];
        PathTail(s, events, s', i);
        if forall j | 0 <= j < |rest| :: !Restores(key, rest[j]) {
          PathInvariant(events[i].after, rest, s', (x: State) => key !in x.objects);
          assert false;
        }
        var j :| 0 <= j < |rest| && Restores(key, rest[j]);
        assert events[i + 1 + j] == rest[j];
      }
    }
  }

  ghost predicate Untouched(key: Key, e: Event) {
    Lookup(e.after, key) == Lookup(e.before, key)
  }

  // Others leave the object alone between two worlds.
  ghost predicate LeftAlone(key: Key, w: World, w': World) {
    w.log <= w'.log && forall i | |w.log| <= i < |w'.log| && !w'.log[i].byOperator :: Untouched(key, w'.log[i])
  }

  // Two entries of a plan that replace the same object are the same.
  lemma OneReplacement(spec: Spec, t: Task, t': Task)
    requires t in FullPlan(spec) && t' in FullPlan(spec) && t.Replace? && t'.Replace? && t.key == t'.key
    ensures t == t'
  {
    hide FullPlan;
    Replacement(spec, t);
    Replacement(spec, t');
  }

  lemma Replacement(spec: Spec, t: Task)
    requires t in FullPlan(spec) && t.Replace?
    ensures t in DiskWorkloadTasks(spec)[1..] + NasWorkloadTasks(spec)[1..]
  {
    hide FullPlan, ControllerPayload, NodePayload, ProfilePatch, DiskClassPayload, NasClassPayload;
    PlanDescribed(spec, t);
  }

  // The operator's later writes keep what a step put in place.
  lemma OperatorKeepsInPlace(cr: Driver, t: Task, e: Event)
    requires t in FullPlan(cr.spec) && (t.Adopt? || t.Replace?) && PlannedBy(cr, e) && InPlace(cr, t, e.before)
    ensures e.target.OnObject? ==> InPlace(cr, t, e.after)
  {
    hide FullPlan, Permitted, Typed, FlatPatches, Fresh;
    if e.target.OnObject? {
      PlannedKeepsOwnership(cr, e);
      PlanTyped(cr.spec);
      var own :| own in FullPlan(cr.spec) && Permitted(cr, own, e);
      assert Typed(t) && Typed(own);
      if e.target.key == t.key {
        if t.Adopt? {
          AdoptKindIsOwned(t);
        } else {
          ReplacedAgain(cr, t, own, e);
        }
      } else {
        OtherKeyUntouched(cr, own, e, t.key);
      }
    }
  }

  lemma AdoptKindIsOwned(t: Task)
    requires Typed(t) && t.Adopt?
    ensures OwnedKind(t.key.kind)
  {
  }

  lemma ReplacedAgain(cr: Driver, t: Task, own: Task, e: Event)
    requires t in FullPlan(cr.spec) && own in FullPlan(cr.spec) && Typed(t) && Typed(own)
    requires t.Replace? && Permitted(cr, own, e) && e.target.key == t.key
    ensures At(e.after, t.key) == Some(Fresh(cr, t.payload))
  {
    hide FullPlan, AdoptStep, Patched, Fresh;
    assert own.Replace?;
    OneReplacement(cr.spec, t, own);
  }

  lemma OtherKeyUntouched(cr: Driver, own: Task, e: Event, key: Key)
    requires Permitted(cr, own, e) && e.target.key != key
    ensures Untouched(key, e) && At(e.after, key) == At(e.before, key)
  {
    hide StepAt;
  }

  lemma UntouchedInPlace(cr: Driver, t: Task, s: State, s': State)
    requires (t.Adopt? || t.Replace?) && InPlace(cr, t, s) && Lookup(s', t.key) == Lookup(s, t.key)
    ensures InPlace(cr, t, s')
  {
  }

  lemma StaysInPlace(a: World, b: World, cr: Driver, t: Task)
    requires t in FullPlan(cr.spec) && (t.Adopt? || t.Replace?) && Reaches(a, b) && LeftAlone(t.key, a, b)
    requires InPlace(cr, t, a.state)
    requires forall i | |a.log| <= i < |b.log| && b.log[i].byOperator ::
               PlannedBy(cr, b.log[i]) && (!b.log[i].target.OnObject? ==> OperatorShape(b.log[i]))
    ensures InPlace(cr, t, b.state)
  {
    hide Path, WellFormed, Allowed, Extends, FreshUids, FullPlan, InPlace, PlannedBy, Lookup;
    var events := Trace(a, b);
    forall i | 0 <= i < |events|
      ensures InPlace(cr, t, events[i].before) ==> InPlace(cr, t, events[i].after)
    {
      var e := events[i];
      assert e == b.log[|a.log| + i];
      if InPlace(cr, t, e.before) {
        if !e.byOperator || !e.target.OnObject? {
          if e.byOperator {
            SameObjects(e, t.key);
          }
          UntouchedInPlace(cr, t, e.before, e.after);
        } else {
          OperatorKeepsInPlace(cr, t, e);
        }
      }
    }
    PathInvariant(a.state, events, b.state, (s: State) => InPlace(cr, t, s));
  }

  lemma SameObjects(e: Event, key: Key)
    requires OperatorShape(e) && !e.target.OnObject?
    ensures Lookup(e.after, key) == Lookup(e.before, key)
  {
  }

  // The operator events after step m of a pass that returned nil are planned.
  lemma AfterStep(w: World, cr: Driver, m: nat)
    requires WellFormed(w) && FreshReads(w.script) && ReadDriver(w) == Some(cr) && Pass(w).0 == None
    requires m < |FullPlan(cr.spec)|
    ensures var mid := After(Do(w, GetDriver).1, cr, FullPlan(cr.spec), m + 1);
            var last := Pass(w).1;
            && InPlace(cr, FullPlan(cr.spec)[m], mid.state)
            && Reaches(mid, last) && mid.log <= last.log
            && forall i | |mid.log| <= i < |last.log| && last.log[i].byOperator ::
                 PlannedBy(cr, last.log[i]) && (!last.log[i].target.OnObject? ==> OperatorShape(last.log[i]))
  {
    hide Do, WellFormed, FreshReads, Reaches, FullPlan, Phases, RunAll, InPlace, Typed, FlatPatches, Permitted, PlannedBy,
        OperatorShape;
    var got := Do(w, GetDriver).1;
    var plan := FullPlan(cr.spec);
    var mid := After(got, cr, plan, m + 1);
    var p := Phases(got, cr);
    var patch := PatchStatus(cr.status, NextStatus(cr, p));
    var last := Pass(w).1;
    DoReaches(w, GetDriver);
    FreshScript(w, got);
    ReachedWellFormed(w, got);
    PlanTyped(cr.spec);
    PhasesRunPlan(got, cr);
    AllInPlace(got, cr, plan, m);
    ReachedWellFormed(got, mid);
    assert plan == plan[..m + 1] + plan[m + 1..];
    RunConcat(got, cr, plan[..m + 1], plan[m + 1..]);
    RunAllLaw(mid, cr, plan[m + 1..]);
    DoReaches(p.world, patch);
    ReachesTransitive(mid, p.world, last);
    LogGrows(mid, last);
    PassLaw(w);
    OperatorShapes(mid, last);
    LogGrows(w, got);
    LogGrows(got, mid);
  }

  lemma OperatorShapes(a: World, b: World)
    requires Reaches(a, b)
    ensures forall i | |a.log| <= i < |b.log| && b.log[i].byOperator :: OperatorShape(b.log[i])
  {
    hide WellFormed, Path, FreshUids, OperatorShape, FromScript;
    forall i | |a.log| <= i < |b.log| && b.log[i].byOperator
      ensures OperatorShape(b.log[i])
    {
      assert b.log[i] == Trace(a, b)[i - |a.log|];
    }
  }

  // With fresh reads, and a pass that returns nil: the object of an adopting or replacing
  // step is there at the end exactly when every removal after that step was followed by a
  // write, and if others left it alone it is still controlled by the custom resource, or
  // exactly the desired object.
  lemma NilLeavesExactly(w: World, cr: Driver, m: nat)
    requires WellFormed(w) && FreshReads(w.script) && ReadDriver(w) == Some(cr) && Pass(w).0 == None
    requires m < |FullPlan(cr.spec)|
    requires FullPlan(cr.spec)[m].Adopt? || FullPlan(cr.spec)[m].Replace?
    ensures var t := FullPlan(cr.spec)[m];
            var mid := After(Do(w, GetDriver).1, cr, FullPlan(cr.spec), m + 1);
            var last := Pass(w).1;
            && mid.log <= last.log
            && (t.key in last.state.objects <==> Rewritten(t.key, Trace(mid, last)))
            && (LeftAlone(t.key, mid, last) ==> InPlace(cr, t, last.state))
  {
    hide Do, WellFormed, FreshReads, FullPlan, Pass, After, Path, Allowed, Extends, FreshUids, PlannedBy, OperatorShape,
        InPlace, Rewritten, LeftAlone;
    var t := FullPlan(cr.spec)[m];
    var mid := After(Do(w, GetDriver).1, cr, FullPlan(cr.spec), m + 1);
    AfterStep(w, cr, m);
    InPlaceIsPresent(cr, t, mid.state);
    PresentIffRewritten(mid.state, Trace(mid, Pass(w).1), Pass(w).1.state, t.key);
    if LeftAlone(t.key, mid, Pass(w).1) {
      StaysInPlace(mid, Pass(w).1, cr, t);
    }
  }

  lemma InPlaceIsPresent(cr: Driver, t: Task, s: State)
    requires (t.Adopt? || t.Replace?) && InPlace(cr, t, s)
    ensures t.key in s.objects
  {
  }

  // ---- With a deletion, nil may leave a gap ----

  // Only the first step of a plan adopts the service account.
  lemma DriverTaskKinds(spec: Spec, t: Task)
    requires t in DriverTasks(spec)
    ensures !t.Admit? && t.key.kind != ServiceAccount
  {
    hide DiskTasks, NasTasks;
    if spec.disk.enabled && t in DiskTasks(spec) {
      DiskTaskKind(spec, t);
    } else {
      NasTaskKind(spec, t);
    }
  }

  lemma AccountOnlyFirst(spec: Spec, apis: Apis)
    ensures 4 <= |FullPlan(spec)|
    ensures FullPlan(spec)[0] == Adopt(ACCOUNT_KEY, AccountPayload)
    ensures FullPlan(spec)[1] == Adopt(ROLE_KEY, RolePayload)
    ensures FirstAdopted(FullPlan(spec)[1..], apis, ACCOUNT_KEY) == None
  {
    hide DriverTasks, FirstAdopted;
    var rest := FullPlan(spec)[1..];
    assert rest == RBAC_TASKS[1..] + DriverTasks(spec);
    forall i | 0 <= i < |rest|
      ensures AdoptsAt(rest[i], apis, ACCOUNT_KEY).None?
    {
      if i >= 3 {
        assert rest[i] == DriverTasks(spec)[i - 3];
        DriverTaskKinds(spec, rest[i]);
      }
    }
    ClassNames.NoneAdopts(rest, apis, ACCOUNT_KEY);
  }

  // A list that starts with an adoption depends on the world only through its first call.
  lemma FirstCallDecides(a: World, b: World, cr: Driver, tasks: seq<Task>)
    requires tasks != [] && tasks[0].Adopt?
    requires var req := Create(tasks[0].key, Manifest(cr, tasks[0].payload)); Do(a, req) == Do(b, req)
    ensures RunAll(a, cr, tasks) == RunAll(b, cr, tasks)
  {
    hide Do, AdoptLoop;
    assert RunTask(a, cr, tasks[0]) == RunTask(b, cr, tasks[0]);
  }

  const DELETION := Turn([Remove(ACCOUNT_KEY)], NoFault, 0)

  // The account is created and deleted again before the next call.
  lemma CreatedAndDeleted(w: World, cr: Driver, req: Request)
    requires w.alive && ACCOUNT_KEY !in w.state.objects && w.script == [CALM, DELETION]
    ensures var r := RunTask(w, cr, Adopt(ACCOUNT_KEY, AccountPayload));
            && r.0 == None
            && var w3 := ApplyEdit(Tail(r.1), Remove(ACCOUNT_KEY));
               w3.alive && w3.script == [] && w3.state == w.state && Do(r.1, req) == Do(w3, req)
  {
    hide Effect;
    var made := Create(ACCOUNT_KEY, Manifest(cr, AccountPayload));
    var t := Tail(w);
    assert Turned(w) == t && t.script == [DELETION];
    CreatesAccount(t, cr);
    var w2 := Effect(t, made, 0).1;
    assert Do(w, made) == (Done, w2);
    var w3 := ApplyEdit(Tail(w2), Remove(ACCOUNT_KEY));
    assert DELETION.edits[1..] == [];
    assert ApplyEdits(w3, []) == w3;
    assert Turned(w2) == w3;
    assert Turned(w3) == w3;
  }

  lemma CreatesAccount(t: World, cr: Driver)
    requires ACCOUNT_KEY !in t.state.objects
    ensures var r := Effect(t, Create(ACCOUNT_KEY, Manifest(cr, AccountPayload)), 0);
            && r.0 == Done && r.1.alive == t.alive && r.1.script == t.script
            && ApplyEdit(Tail(r.1), Remove(ACCOUNT_KEY)).state == t.state
  {
    var r := Effect(t, Create(ACCOUNT_KEY, Manifest(cr, AccountPayload)), 0);
    assert r.1.state.objects - {ACCOUNT_KEY} == t.state.objects;
  }

  // The pass returns nil and reports success, yet the service account is missing: a nil
  // result alone does not mean that everything is there.
  lemma NilIsNotEnough(w: World, cr: Driver)
    requires w.alive && w.state.driver == Some(cr) && Friendly(cr, FullPlan(cr.spec), w.state)
    requires ACCOUNT_KEY !in w.state.objects && w.script == [CALM, CALM, DELETION]
    ensures Succeeds(w) && ACCOUNT_KEY !in Pass(w).1.state.objects
    ensures var d := Pass(w).1.state.driver;
            d.Some? && Available(d.value.status) && d.value.status.observedGeneration == cr.generation
  {
    hide Do, FullPlan, RunTask, Reaches, Phases, Friendly, AllTyped, FlatPatches, PlanOn, FirstAdopted, Conditions,
        Available, HasCondition;
    var plan := FullPlan(cr.spec);
    var t := Tail(w);
    ReadsDriver(w, cr);
    PhasesRunPlan(t, cr);
    PlanTyped(cr.spec);
    AccountOnlyFirst(cr.spec, w.state.apis);
    var req := Create(ROLE_KEY, Manifest(cr, RolePayload));
    CreatedAndDeleted(t, cr, req);
    var w2 := RunTask(t, cr, plan[0]).1;
    var w3 := ApplyEdit(Tail(w2), Remove(ACCOUNT_KEY));
    var rest := plan[1..];
    FirstCallDecides(w2, w3, cr, rest);
    RestIsCalm(w3, cr);
    var p := Phases(t, cr);
    QuietPatch(p.world, cr, NextStatus(cr, p));
    ComputedStatusIsHonest(t, cr);
  }

  lemma ReadsDriver(w: World, cr: Driver)
    requires w.alive && w.state.driver == Some(cr) && w.script != [] && w.script[0] == CALM
    ensures Do(w, GetDriver) == (FoundDriver(cr), Tail(w))
  {
  }

  lemma QuietPatch(w: World, cr: Driver, next: Status)
    requires w.alive && w.script == [] && w.state.driver == Some(cr)
    ensures Do(w, PatchStatus(cr.status, next)).1.alive
    ensures Do(w, PatchStatus(cr.status, next)).1.state == w.state.(driver := Some(cr.(status := next)))
  {
  }

  lemma RestIsCalm(w: World, cr: Driver)
    requires w.alive && w.script == [] && ACCOUNT_KEY !in w.state.objects && Friendly(cr, FullPlan(cr.spec), w.state)
    ensures var r := RunAll(w, cr, FullPlan(cr.spec)[1..]);
            && r.0 == None && r.1.alive && r.1.script == []
            && ACCOUNT_KEY !in r.1.state.objects && r.1.state.driver == w.state.driver
  {
    hide RunAll, PlanOn, Reaches, FirstAdopted, FullPlan, Typed, Adoptable;
    var plan := FullPlan(cr.spec);
    PlanTyped(cr.spec);
    AccountOnlyFirst(cr.spec, w.state.apis);
    var rest := plan[1..];
    forall i | 0 <= i < |rest|
      ensures rest[i] == plan[i + 1]
    {
    }
    RunAllReaches(w, cr, rest);
    EmptySuffix(w, RunAll(w, cr, rest).1);
    CalmAll(w, cr, rest);
    NeverAdopted(cr, rest, w.state.apis, ACCOUNT_KEY, None);
    assert At(RunAll(w, cr, rest).1.state, ACCOUNT_KEY) == None;
  }

  lemma EmptySuffix(w: World, w': World)
    requires Reaches(w, w') && w.script == []
    ensures w'.script == [] && Undisturbed(w, w')
  {
  }

  // ---- A pass that returns nil without the SCC binding ----

  // On a cluster that serves the SCC API, with both drivers disabled: the mapper call and
  // the discovery fail, the pass falls back, returns nil and reports success, and there is
  // no SCC binding.
  lemma NilWithoutBinding(w: World, cr: Driver)
    requires w.alive && w.hasConfig && w.state.objects == map[] && SccServed(w.state.apis) && w.state.driver == Some(cr)
    requires !cr.spec.disk.enabled && !cr.spec.nas.enabled
    requires w.script == [CALM, CALM, CALM, CALM, REJECTED, REJECTED]
    ensures Succeeds(w) && SccServed(Pass(w).1.state.apis) && SCC_BINDING_KEY !in Pass(w).1.state.objects
    ensures var d := Pass(w).1.state.driver; d.Some? && Available(d.value.status)
  {
    hide Do, RunAll, Phases, Conditions, Available, HasCondition, SccServed;
    var t := Tail(w);
    var p := Phases(t, cr);
    ReadsDriver(w, cr);
    assert t.script == [CALM, CALM, CALM, REJECTED, REJECTED];
    assert FullPlan(cr.spec) == RBAC_TASKS;
    PhasesRunPlan(t, cr);
    BindingMissed(t, cr);
    QuietPatch(p.world, cr, NextStatus(cr, p));
    ComputedStatusIsHonest(t, cr);
  }
}
