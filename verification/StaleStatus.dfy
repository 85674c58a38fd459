/**
 The observed generation when the custom resource is read from a stale cache, or is deleted
 and created again during a pass.
 */
module StaleStatus {
  import opened Base
  import opened DriverTypes
  import opened Cluster
  import opened History
  import opened Tasks
  import opened Plan
  import opened PlanFacts
  import opened Runs
  import opened CalmRuns
  import opened PlanShape
  import opened Lawful
  import opened Ordering
  import opened PassSafety
  import opened Delivery
  import opened StatusHonesty
  import NilPass

  // ---- The status write of a pass ----

  // The next call of w takes effect.
  predicate Served(w: World) {
    w.alive && Head(w.script).fault !in {Reject, CrashBefore}
  }

  // The world in which the pass that starts in w and reads cr writes the status.
  function Written(w: World, cr: Driver): World {
    Phases(Do(w, GetDriver).1, cr).world
  }

  lemma PatchEffect(w: World, base: Status, next: Status)
    requires w.alive && Turned(w).state.driver.Some?
    ensures var live := Turned(w).state.driver.value;
            Do(w, PatchStatus(base, next)).1.state.driver ==
            Some(if Served(w) then live.(status := MergeStatus(live.status, base, next)) else live)
  {
    hide Turned;
  }

  // Exactly when a pass makes the stored observedGeneration fall: its status write takes
  // effect, the generation it read is behind the one that is stored by then, and the copy
  // it read had not observed its own generation. And exactly when a pass makes it exceed
  // the generation: the write takes effect and the live custom resource is of an earlier
  // generation than the one that was read.
  lemma ObservedGenerationFalls(w: World, cr: Driver)
    requires ReadDriver(w) == Some(cr) && Written(w, cr).alive && Turned(Written(w, cr)).state.driver.Some?
    ensures Pass(w).1.state.driver.Some?
    ensures var live, after := Turned(Written(w, cr)).state.driver.value, Pass(w).1.state.driver.value;
            && (after.status.observedGeneration < live.status.observedGeneration <==>
                Served(Written(w, cr)) && cr.generation < live.status.observedGeneration
                && cr.status.observedGeneration != cr.generation)
            && (live.status.observedGeneration <= live.generation ==>
                (after.status.observedGeneration > after.generation <==>
                 Served(Written(w, cr)) && live.generation < cr.generation
                 && cr.status.observedGeneration != cr.generation))
  {
    hide Do, Phases, Turned, Conditions, AllReady;
    var p := Phases(Do(w, GetDriver).1, cr);
    PatchEffect(p.world, cr.status, NextStatus(cr, p));
  }

  // ---- A run in which it falls ----

  // A first pass observes generation g + 1; the operator restarts, and its next read still
  // sees generation g, which nobody had observed: the stored value falls back to g.
  lemma FallsOnStaleRead(w: World, d: Driver, spec: Spec)
    requires w.alive && w.script == [] && w.log == [] && w.state.driver == Some(d) && spec != d.spec
    requires d.status.observedGeneration != d.generation
    requires Friendly(d, FullPlan(d.spec), w.state) && Friendly(d, FullPlan(spec), w.state)
    ensures var first := Pass(ApplyEdit(w, PutSpec(spec))).1;
            var stale := first.(script := [Turn([], NoFault, |first.log|)]);
            && stale.alive
            && stale.state.driver.Some? && stale.state.driver.value.status.observedGeneration == d.generation + 1
            && Pass(stale).1.state.driver.Some?
            && Pass(stale).1.state.driver.value.status.observedGeneration == d.generation
  {
    hide Pass, FullPlan, Friendly, Conditions, Expected, Phases, Reaches;
    var w1 := ApplyEdit(w, PutSpec(spec));
    var d1 := d.(generation := d.generation + 1, spec := spec);
    var first := Pass(w1).1;
    FriendlyToBoth(d, d1, spec, w.state, w1.state);
    SameFriendsBut(d, w, w1);
    PassReaches(w1);
    NilPass.EmptySuffix(w1, first);
    UndisturbedPass(w1, d1);
    LogGrows(w1, first);
    var stale := first.(script := [Turn([], NoFault, |first.log|)]);
    ReadsTheOldest(stale, w.state);
    StillFriendlyToOld(w1, first, d, d1);
    StalePass(stale, d);
  }

  lemma FriendlyToBoth(d: Driver, d1: Driver, spec: Spec, s: State, s1: State)
    requires d1.name == d.name && d1.uid == d.uid && d1.spec == spec && s1.objects == s.objects
    requires Friendly(d, FullPlan(spec), s)
    ensures Friendly(d1, FullPlan(d1.spec), s1)
  {
    hide FullPlan;
    var plan := FullPlan(spec);
    forall i, k | 0 <= i < |plan| && k in AdoptKeys(plan[i])
      ensures Adoptable(d1, At(s1, k))
    {
      assert Adoptable(d, At(s, k));
      assert ControllerRef(d1) == ControllerRef(d);
    }
  }

  // After the pass for d1 every key that d may claim can still be claimed.
  lemma StillFriendlyToOld(w1: World, first: World, d: Driver, d1: Driver)
    requires d1.name == d.name && d1.uid == d.uid
    requires Friendly(d, FullPlan(d.spec), w1.state) && Friendly(d1, FullPlan(d1.spec), w1.state)
    requires forall k :: At(first.state, k) == Expected(d1, w1.state.apis, k, At(w1.state, k))
    ensures Friendly(d, FullPlan(d.spec), first.state)
  {
    hide FullPlan, Expected, PlanOn;
    var plan := FullPlan(d.spec);
    forall i, k | 0 <= i < |plan| && k in AdoptKeys(plan[i])
      ensures Adoptable(d, At(first.state, k))
    {
      assert Adoptable(d, At(w1.state, k));
      assert ControllerRef(d1) == ControllerRef(d);
      PlanDelivers(d1, w1.state.apis, k, w1.state);
      PlanKeepsAdoptable(d1, FullPlan(d1.spec), w1.state.apis, k, At(w1.state, k));
    }
  }

  lemma ReadsTheOldest(w: World, s: State)
    requires w.alive && w.log != [] && w.log[0].before == s && s.driver.Some?
    requires w.script == [Turn([], NoFault, |w.log|)]
    ensures Do(w, GetDriver) == (FoundDriver(s.driver.value), w.(script := []))
  {
    assert Turned(w) == w.(script := []);
  }

  // A pass that reads d, while the live custom resource is the one to be written, and is
  // not disturbed any further.
  lemma StalePass(w: World, d: Driver)
    requires w.alive && Do(w, GetDriver) == (FoundDriver(d), w.(script := []))
    requires w.state.driver.Some? && Friendly(d, FullPlan(d.spec), w.state)
    requires d.status.observedGeneration != d.generation
    ensures Pass(w).1.state.driver.Some?
    ensures Pass(w).1.state.driver.value.status.observedGeneration == d.generation
  {
    hide Do, FullPlan, Phases, Friendly, RunAll, Conditions, AllReady, Reaches;
    var t := w.(script := []);
    var p := Phases(t, d);
    QuietPhases(t, d);
    SameFriends(d, w, t);
    assert Turned(p.world) == p.world;
    PatchEffect(p.world, d.status, NextStatus(d, p));
  }

  // With an exhausted script the three phases succeed, deliver what d asks for, and touch
  // the custom resource not.
  lemma QuietPhases(w: World, d: Driver)
    requires w.alive && w.script == [] && Friendly(d, FullPlan(d.spec), w.state)
    ensures var p := Phases(w, d);
            && p.err == None && p.world.alive && p.world.script == [] && p.world.state.driver == w.state.driver
            && forall k :: At(p.world.state, k) == Expected(d, w.state.apis, k, At(w.state, k))
  {
    hide FullPlan, Friendly, RunAll, Reaches, PlanOn, AllTyped, Expected;
    PhasesRunPlan(w, d);
    PhasesReach(w, d);
    NilPass.EmptySuffix(w, Phases(w, d).world);
    PlanTyped(d.spec);
    CalmAll(w, d, FullPlan(d.spec));
    forall k
      ensures At(Phases(w, d).world.state, k) == Expected(d, w.state.apis, k, At(w.state, k))
    {
      PlanDelivers(d, w.state.apis, k, w.state);
    }
  }

  const SMALL_SPEC := Spec(
    DiskSpec(false, false, [], SnapshotConfig(false, ""), ProfileConfig(false, "")),
    NasSpec(false, [], ProfileConfig(false, "")), false, "", "", [], "", ControllerSpec(0, None, []))

  // Such a run exists: one on an empty cluster.
  lemma ObservedGenerationCanFall()
    ensures exists w: World ::
              && w.alive && WellFormed(w) && w.state.driver.Some? && Pass(w).1.state.driver.Some?
              && Pass(w).1.state.driver.value.status.observedGeneration < w.state.driver.value.status.observedGeneration
  {
    hide Pass, FullPlan, Reaches;
    var d := Driver("cluster", 1, 1, SMALL_SPEC, EMPTY_STATUS);
    var w := World("cluster", true, State(map[], Some(d), Apis(None, false, false), 0), 2, map[], [], [], true);
    var spec := SMALL_SPEC.(imageTag := "v1.36.0");
    FallsOnStaleRead(w, d, spec);
    var w1 := ApplyEdit(w, PutSpec(spec));
    PassReaches(w1);
    EditWellFormed(w, PutSpec(spec));
    ReachedWellFormed(w1, Pass(w1).1);
    var stale := Pass(w1).1.(script := [Turn([], NoFault, |Pass(w1).1.log|)]);
    WellFormedScript(Pass(w1).1, stale);
  }

  // ---- A pass during which the custom resource is deleted and created again ----

  // The status patch goes by name, so the new custom resource, of generation 1, is told
  // that the generation of the old one is observed and available, while the pass ensured
  // the objects of the old spec and nothing else. Reads are fresh. If the old resource was
  // never edited, the status does not even show it.
  lemma RecreatedDuringPass(w: World, cr: Driver, spec: Spec)
    requires w.alive && w.state.driver == Some(cr) && cr.status == EMPTY_STATUS && cr.generation >= 1
    requires w.script == [CALM, Turn([RemoveDriver, PutSpec(spec)], NoFault, 0)]
    requires Friendly(cr, FullPlan(cr.spec), w.state)
    ensures ReadDriver(w) == Some(cr) && Pass(w).1.state.driver.Some?
    ensures var d := Pass(w).1.state.driver.value;
            && d == Driver(w.name, w.clock, 1, spec, d.status)
            && d.status.observedGeneration == cr.generation && Available(d.status)
    ensures forall k :: At(Pass(w).1.state, k) == Expected(cr, w.state.apis, k, At(w.state, k))
  {
    hide Do, FullPlan, Phases, Friendly, RunAll, Conditions, Available, HasCondition, Reaches, Expected;
    var plan := FullPlan(cr.spec);
    var t := Tail(w);
    var w3 := ApplyEdit(ApplyEdit(Tail(t), RemoveDriver), PutSpec(spec));
    NilPass.ReadsDriver(w, cr);
    NilPass.AccountOnlyFirst(cr.spec, w.state.apis);
    RecreatedCall(t, spec, Create(ACCOUNT_KEY, Manifest(cr, AccountPayload)));
    NilPass.FirstCallDecides(t, w3, cr, plan);
    PhasesRunPlan(t, cr);
    PhasesRunPlan(w3, cr);
    SameFriendsBut(cr, w, w3);
    QuietPhases(w3, cr);
    var p := Phases(t, cr);
    assert p.world == Phases(w3, cr).world;
    assert Turned(p.world) == p.world;
    PatchEffect(p.world, cr.status, NextStatus(cr, p));
    PatchKeepsObjects(p.world, cr.status, NextStatus(cr, p));
    ComputedStatusIsHonest(t, cr);
    assert Pass(w).1.state.objects == p.world.state.objects;
    forall k
      ensures At(Pass(w).1.state, k) == Expected(cr, w.state.apis, k, At(w.state, k))
    {
      assert At(p.world.state, k) == Expected(cr, w3.state.apis, k, At(w3.state, k));
    }
  }

  lemma PatchKeepsObjects(w: World, base: Status, next: Status)
    requires w.script == []
    ensures Do(w, PatchStatus(base, next)).1.state.objects == w.state.objects
  {
  }

  lemma RecreatedCall(t: World, spec: Spec, req: Request)
    requires t.alive && t.script == [Turn([RemoveDriver, PutSpec(spec)], NoFault, 0)]
    ensures var w3 := ApplyEdit(ApplyEdit(Tail(t), RemoveDriver), PutSpec(spec));
            && Do(t, req) == Do(w3, req) && w3.alive && w3.script == []
            && w3.state.objects == t.state.objects && w3.state.apis == t.state.apis
            && w3.state.driver == Some(Driver(t.name, t.clock, 1, spec, EMPTY_STATUS))
  {
    hide Effect;
    var edits := t.script[0].edits;
    var w3 := ApplyEdit(ApplyEdit(Tail(t), RemoveDriver), PutSpec(spec));
    assert edits[1..] == [PutSpec(spec)] && edits[1..][1..] == [];
    assert ApplyEdits(w3, []) == w3;
    assert ApplyEdits(ApplyEdit(Tail(t), RemoveDriver), [PutSpec(spec)]) == w3;
    assert Turned(t) == w3;
    assert Turned(w3) == w3;
  }

  lemma SameFriendsBut(cr: Driver, w: World, w': World)
    requires Friendly(cr, FullPlan(cr.spec), w.state) && w'.state.objects == w.state.objects
    ensures Friendly(cr, FullPlan(cr.spec), w'.state)
  {
    hide FullPlan;
    var plan := FullPlan(cr.spec);
    forall i, k | 0 <= i < |plan| && k in AdoptKeys(plan[i])
      ensures Adoptable(cr, At(w'.state, k))
    {
      assert Adoptable(cr, At(w.state, k));
    }
  }

  // ---- Reads that never go back in time ----

  // The state after `pos` changes.
  function StateAt(w: World, pos: nat): State {
    if pos < |w.log| then w.log[pos].before else w.state
  }

  // How many changes the read of the pass that starts in w sees.
  function ReadAt(w: World): nat {
    var t := Turned(w);
    var lag := Head(w.script).lag;
    if lag <= |t.log| then |t.log| - lag else 0
  }

  // What the latest read before pass n saw; before the first, the start of the run.
  function Floor(w: World, n: nat): nat {
    if n == 0 then |w.log|
    else
      var start := Restart(Run(w, n - 1));
      if ReadDriver(start).Some? then ReadAt(start) else Floor(w, n - 1)
  }

  // No pass among the first n reads the custom resource as it was before an earlier read.
  ghost predicate ForwardReads(w: World, n: nat) {
    forall m | 0 <= m < n && ReadDriver(Restart(Run(w, m))).Some? :: Floor(w, m) <= ReadAt(Restart(Run(w, m)))
  }

  lemma {:induction false} PathAdjacent(s: State, events: seq<Event>, s': State, i: nat)
    requires Path(s, events, s') && i < |events|
    ensures events[i].after == if i + 1 < |events| then events[i + 1].before else s'
    decreases |events|
  {
    var front := events[..|events| - 1];
    if i < |front| {
      PathAdjacent(s, front, events[|events| - 1].before, i);
    }
  }

  ghost predicate NoYounger(s: State, s': State) {
    s.driver.Some? ==> s'.driver.Some? && s.driver.value.generation <= s'.driver.value.generation
  }

  lemma GenerationStep(script: seq<Turn>, name: string, e: Event)
    requires Allowed(script, name, e) && NoRemoval(script)
    ensures NoYounger(e.before, e.after)
  {
    if !e.byOperator {
      var i, j :| 0 <= i < |script| && 0 <= j < |script[i].edits| && Made(script[i].edits[j], name, e);
      assert !script[i].edits[j].RemoveDriver?;
    }
  }

  // Later states have no smaller generation.
  lemma {:induction false} GenerationsGrow(w: World, w': World, a: nat, b: nat)
    requires Reaches(w, w') && NoRemoval(w.script) && |w.log| <= a <= b <= |w'.log|
    ensures NoYounger(StateAt(w', a), StateAt(w', b))
    decreases b - a
  {
    hide WellFormed, Path, Allowed, NoRemoval, Extends;
    if a < b {
      var events := Trace(w, w');
      var i := a - |w.log|;
      assert events[i] == w'.log[a];
      PathAdjacent(w.state, events, w'.state, i);
      GenerationStep(w.script, w.name, events[i]);
      assert StateAt(w', a + 1) == events[i].after;
      GenerationsGrow(w, w', a + 1, b);
    }
  }

  // The past does not change.
  lemma StateAtStays(w: World, w': World, pos: nat)
    requires Reaches(w, w') && pos <= |w.log|
    ensures StateAt(w', pos) == StateAt(w, pos)
  {
    hide WellFormed, Path, Allowed, Extends;
    if pos == |w.log| {
      var events := Trace(w, w');
      PathInvariantTo(w.state, events, w'.state, (s: State) => s == w.state, 0);
      if events != [] {
        assert w'.log[pos] == events[0];
      }
    }
  }

  lemma ReadsStateAt(w: World)
    requires ReadDriver(w).Some?
    ensures ReadAt(w) <= |Pass(w).1.log|
    ensures StateAt(Pass(w).1, ReadAt(w)).driver == ReadDriver(w)
  {
    hide Turned, Reaches, Pass;
    var t := Turned(w);
    ServedDo(w, GetDriver);
    AfterReadReaches(w);
    LogGrows(t, Pass(w).1);
    StateAtStays(t, Pass(w).1, ReadAt(w));
  }

  // A pass keeps the observed generation or stores the generation it read.
  lemma PassObserves(w: World, st: Status, generation: nat)
    requires WellFormed(w) && NoRemoval(w.script) && StatusIs(w.state, st, generation)
    ensures Pass(w).1.state.driver.Some?
    ensures var observed := Pass(w).1.state.driver.value.status.observedGeneration;
            || observed == st.observedGeneration
            || (ReadDriver(w).Some? && observed == ReadDriver(w).value.generation)
  {
    hide Do, Phases, WellFormed, NoRemoval, Reaches, Conditions, Turned, AllReady;
    var got := Do(w, GetDriver);
    DoReaches(w, GetDriver);
    DoEvents(w, GetDriver);
    StretchKeepsStatus(w, got.1, st, generation);
    if got.0.FoundDriver? {
      var cr := got.0.driver;
      var p := Phases(got.1, cr);
      ReachedWellFormed(w, got.1);
      ReachedScriptKeeps(w, got.1);
      PhasesKeepStatus(got.1, cr, st, generation);
      PhasesReach(got.1, cr);
      ReachedScriptKeeps(got.1, p.world);
      if p.world.alive {
        TurnKeepsStatus(p.world, st, generation);
        PatchEffect(p.world, cr.status, NextStatus(cr, p));
      } else {
        DeadCall(p.world, PatchStatus(cr.status, NextStatus(cr, p)));
      }
    }
  }

  lemma DeadCall(w: World, req: Request)
    requires !w.alive
    ensures Do(w, req).1 == w
  {
  }

  ghost predicate Bounded(w: World, pos: nat) {
    && pos <= |w.log|
    && w.state.driver.Some? && StateAt(w, pos).driver.Some?
    && w.state.driver.value.status.observedGeneration <= StateAt(w, pos).driver.value.generation
  }

  // The stored value never exceeds the generation at the latest read.
  lemma {:induction false} BoundedRun(w: World, n: nat)
    requires WellFormed(w) && NoRemoval(w.script) && Bounded(w, |w.log|) && ForwardReads(w, n)
    ensures |w.log| <= Floor(w, n) && Bounded(Run(w, n), Floor(w, n))
  {
    hide WellFormed, NoRemoval, Reaches, Pass, Turned, ReadDriver, ReadAt, StateAt, Bounded, Run, Floor;
    if n == 0 {
      NothingRun(w);
    } else {
      assert ForwardReads(w, n - 1);
      BoundedRun(w, n - 1);
      NeverFallsStep(w, n - 1);
    }
  }

  lemma NothingRun(w: World)
    ensures Floor(w, 0) == |w.log| && Run(w, 0) == w
  {
  }

  lemma NeverFallsStep(w: World, n: nat)
    requires WellFormed(w) && NoRemoval(w.script) && ForwardReads(w, n + 1)
    requires |w.log| <= Floor(w, n) && Bounded(Run(w, n), Floor(w, n))
    ensures |w.log| <= Floor(w, n + 1) && Bounded(Run(w, n + 1), Floor(w, n + 1))
    ensures var d, d' := Run(w, n).state.driver.value, Run(w, n + 1).state.driver.value;
            d.status.observedGeneration <= d'.status.observedGeneration
  {
    hide WellFormed, NoRemoval, Reaches, Pass, Turned, ReadDriver, ReadAt, StateAt;
    var past, next := Run(w, n), Run(w, n + 1);
    var start := Restart(past);
    var d := past.state.driver.value;
    RunReaches(w, n);
    RestartReaches(past);
    ReachesTransitive(w, past, start);
    ReachedWellFormed(w, start);
    ReachedScriptKeeps(w, start);
    PassReaches(start);
    ReachesTransitive(w, start, next);
    assert next == Pass(start).1;
    PassObserves(start, d.status, d.generation);
    LogGrows(start, next);
    StateAtStays(past, start, Floor(w, n));
    StateAtStays(start, next, Floor(w, n));
    if ReadDriver(start).Some? {
      assert Floor(w, n) <= ReadAt(start);
      ReadsStateAt(start);
      GenerationsGrow(w, next, Floor(w, n), ReadAt(start));
    }
  }

  // If no pass reads the custom resource as it was before an earlier read of the run, or
  // before its start, the stored observedGeneration never falls and never exceeds the
  // generation: without a restart on an older cache it cannot happen.
  lemma NeverFallsOnForwardReads(w: World, n: nat)
    requires WellFormed(w) && NoRemoval(w.script) && ForwardReads(w, n + 1)
    requires w.state.driver.Some? && w.state.driver.value.status.observedGeneration <= w.state.driver.value.generation
    ensures Run(w, n).state.driver.Some? && Run(w, n + 1).state.driver.Some?
    ensures var d, d' := Run(w, n).state.driver.value, Run(w, n + 1).state.driver.value;
            d.status.observedGeneration <= d'.status.observedGeneration <= d'.generation
  {
    hide WellFormed, NoRemoval, Reaches, Run, ReadDriver, ReadAt, Floor;
    assert Bounded(w, |w.log|);
    assert ForwardReads(w, n);
    BoundedRun(w, n);
    NeverFallsStep(w, n);
    RunReaches(w, n + 1);
    GenerationsGrow(w, Run(w, n + 1), Floor(w, n + 1), |Run(w, n + 1).log|);
  }
}
