/** What the status of the custom resource says is true. */
module StatusHonesty {
  import opened Base
  import opened DriverTypes
  import opened Cluster
  import opened History
  import opened Tasks
  import opened Plan
  import opened PlanFacts
  import opened Runs
  import opened Lawful
  import opened Ordering
  import opened PassSafety
  import opened Ownership
  import opened Ensured
  import opened PlanShape
  import opened CalmRuns

  predicate HasCondition(st: Status, ctype: string, status: string) {
    exists i | 0 <= i < |st.conditions| :: st.conditions[i].ctype == ctype && st.conditions[i].status == status
  }

  predicate Available(st: Status) {
    HasCondition(st, "Available", "True")
  }

  // ---- The computed status ----

  lemma ConditionsSay(cr: Driver, p: Progress)
    ensures var st := NextStatus(cr, p);
            && (Available(st) <==> p.err.None? && AllReady(cr.spec, p))
            && (HasCondition(st, "Degraded", "False") <==> p.err.None?)
            && (HasCondition(st, "Degraded", "True") <==> p.err.Some?)
  {
    var st := NextStatus(cr, p);
    var a, d, g := st.conditions[0], st.conditions[1], st.conditions[2];
    assert a.ctype == "Available" && d.ctype == "Degraded" && g.ctype == "Progressing";
    assert "True" != "False" && "Available" != "Degraded" && "Available" != "Progressing" && "Degraded" != "Progressing";
  }

  // Available=True is computed exactly when the pass returns nil and exactly when
  // Degraded=False is, also when the shared RBAC failed and no driver is enabled.
  lemma ComputedStatusIsHonest(w: World, cr: Driver)
    ensures var p := Phases(w, cr);
            var st := NextStatus(cr, p);
            && (Available(st) <==> p.err == None)
            && (Available(st) <==> HasCondition(st, "Degraded", "False"))
            && (Available(st) <==> !HasCondition(st, "Degraded", "True"))
            && (p.err.Some? && !cr.spec.disk.enabled && !cr.spec.nas.enabled ==> AllReady(cr.spec, p) && !Available(st))
  {
    hide RunAll, DiskTasks, NasTasks, HasCondition, Conditions;
    ConditionsSay(cr, Phases(w, cr));
  }

  // ---- One pass on a fresh read ----

  // The custom resource still has this status, at this generation or a later one.
  ghost predicate StatusIs(s: State, st: Status, generation: nat) {
    s.driver.Some? && s.driver.value.status == st && s.driver.value.generation >= generation
  }

  ghost predicate NoRemoval(script: seq<Turn>) {
    KeepsDriver(script, (spec: Spec) => true)
  }

  lemma EditKeepsStatus(script: seq<Turn>, name: string, e: Event, st: Status, generation: nat)
    requires FromScript(script, name, e) && NoRemoval(script) && StatusIs(e.before, st, generation)
    ensures StatusIs(e.after, st, generation)
  {
    var i, j :| 0 <= i < |script| && 0 <= j < |script[i].edits| && Made(script[i].edits[j], name, e);
    assert !script[i].edits[j].RemoveDriver?;
  }

  lemma StretchKeepsStatus(w: World, w': World, st: Status, generation: nat)
    requires Reaches(w, w') && NoRemoval(w.script) && StatusIs(w.state, st, generation)
    requires forall i | |w.log| <= i < |w'.log| && w'.log[i].byOperator ::
               w'.log[i].after.driver == w'.log[i].before.driver
    ensures StatusIs(w'.state, st, generation)
  {
    hide Path, WellFormed, FromScript, NoRemoval;
    var events := Trace(w, w');
    forall i | 0 <= i < |events|
      ensures StatusIs(events[i].before, st, generation) ==> StatusIs(events[i].after, st, generation)
    {
      assert events[i] == w'.log[|w.log| + i];
      if !events[i].byOperator && StatusIs(events[i].before, st, generation) {
        EditKeepsStatus(w.script, w.name, events[i], st, generation);
      }
    }
    PathInvariant(w.state, events, w'.state, (s: State) => StatusIs(s, st, generation));
  }

  lemma PermittedKeepsDriver(cr: Driver, t: Task, e: Event)
    requires Permitted(cr, t, e)
    ensures e.after.driver == e.before.driver
  {
    hide StepAt;
  }

  lemma PhasesKeepStatus(w: World, cr: Driver, st: Status, generation: nat)
    requires WellFormed(w) && NoRemoval(w.script) && StatusIs(w.state, st, generation)
    ensures StatusIs(Phases(w, cr).world.state, st, generation)
  {
    hide WellFormed, NoRemoval, StatusIs, Phases, RunAll, FullPlan, Reaches, Permitted;
    PhasesReach(w, cr);
    PhasesRunPlan(w, cr);
    RunAllLaw(w, cr, FullPlan(cr.spec));
    var w' := Phases(w, cr).world;
    forall i | |w.log| <= i < |w'.log| && w'.log[i].byOperator
      ensures w'.log[i].after.driver == w'.log[i].before.driver
    {
      var t :| t in FullPlan(cr.spec) && Permitted(cr, t, w'.log[i]);
      PermittedKeepsDriver(cr, t, w'.log[i]);
    }
    StretchKeepsStatus(w, w', st, generation);
  }

  lemma ReachedScriptKeeps(w: World, w': World)
    requires Reaches(w, w') && NoRemoval(w.script)
    ensures NoRemoval(w'.script)
    ensures FreshReads(w.script) ==> FreshReads(w'.script)
  {
    hide Path, WellFormed, Allowed;
    forall i | 0 <= i < |w'.script|
      ensures w'.script[i] == w.script[|w.script| - |w'.script| + i]
    {
    }
  }

  lemma TurnKeepsStatus(w: World, st: Status, generation: nat)
    requires NoRemoval(w.script) && StatusIs(w.state, st, generation)
    ensures StatusIs(Turned(w).state, st, generation)
  {
    hide Reaches, NoRemoval, StatusIs, Turned;
    TurnedReaches(w);
    TurnedEvents(w);
    StretchKeepsStatus(w, Turned(w), st, generation);
  }

  // A fresh read returns the live custom resource.
  lemma FreshDriver(w: World)
    requires FreshReads(w.script) && ReadDriver(w).Some?
    ensures Do(w, GetDriver).1.state.driver == ReadDriver(w)
  {
    hide Turned;
    ServedDo(w, GetDriver);
  }

  // After a read the status is what it was, or what the pass computed for the generation
  // it read; the generation only grows.
  lemma StatusWrite(w: World, cr: Driver, p: Progress)
    requires NoRemoval(w.script) && StatusIs(w.state, cr.status, cr.generation)
    ensures var w' := Do(w, PatchStatus(cr.status, NextStatus(cr, p))).1;
            StatusIs(w'.state, cr.status, cr.generation) || StatusIs(w'.state, NextStatus(cr, p), cr.generation)
  {
    hide Turned, NextStatus, NoRemoval;
    var req := PatchStatus(cr.status, NextStatus(cr, p));
    if w.alive {
      TurnKeepsStatus(w, cr.status, cr.generation);
      DoCases(w, req);
    } else {
      assert Do(w, req).1 == w;
    }
  }

  ghost predicate Computed(w: World, s': State) {
    ReadDriver(w).Some? &&
    var cr := ReadDriver(w).value;
    StatusIs(s', NextStatus(cr, Phases(Do(w, GetDriver).1, cr)), cr.generation)
  }

  lemma PassStatus(w: World, st: Status, generation: nat)
    requires WellFormed(w) && FreshReads(w.script) && NoRemoval(w.script) && StatusIs(w.state, st, generation)
    ensures StatusIs(Pass(w).1.state, st, generation) || Computed(w, Pass(w).1.state)
    ensures ReadDriver(w).Some? ==> ReadDriver(w).value.status == st && ReadDriver(w).value.generation >= generation
  {
    hide Do, Phases, WellFormed, NoRemoval, FreshReads, Reaches, NextStatus;
    var got := Do(w, GetDriver);
    DoReaches(w, GetDriver);
    DoEvents(w, GetDriver);
    StretchKeepsStatus(w, got.1, st, generation);
    if got.0.FoundDriver? {
      var cr := got.0.driver;
      FreshDriver(w);
      var p := Phases(got.1, cr);
      ReachedWellFormed(w, got.1);
      ReachedScriptKeeps(w, got.1);
      PhasesKeepStatus(got.1, cr, cr.status, cr.generation);
      PhasesReach(got.1, cr);
      ReachedScriptKeeps(got.1, p.world);
      StatusWrite(p.world, cr, p);
      Weaken(Pass(w).1.state, st, cr.generation, generation);
    }
  }

  lemma Weaken(s: State, st: Status, g: nat, generation: nat)
    requires g >= generation
    ensures StatusIs(s, st, g) ==> StatusIs(s, st, generation)
  {
  }

  // ---- Whole runs ----

  // Pass m of the run read generation g and returned nil from every task that generation
  // asks for; each was in place when its turn ended, whatever others did since.
  ghost predicate EnsuredBy(w: World, m: nat, g: nat) {
    var start := Restart(Run(w, m));
    ReadDriver(start).Some? &&
    var cr := ReadDriver(start).value;
    var plan := FullPlan(cr.spec);
    var begun := Do(start, GetDriver).1;
    && cr.generation == g
    && RunAll(begun, cr, plan).0 == None
    && forall i | 0 <= i < |plan| :: InPlace(cr, plan[i], After(begun, cr, plan, i + 1).state)
  }

  ghost predicate HonestRun(w: World, n: nat, st: Status) {
    Available(st) ==> (w.state.driver.Some? && st == w.state.driver.value.status) || exists m | 0 <= m < n ::
        EnsuredBy(w, m, st.observedGeneration)
  }

  // With one worker and fresh reads, spec edits in between: a stored Available=True with
  // observedGeneration g was there before the run, or some pass ensured everything that
  // generation g asks for; observedGeneration never exceeds the generation.
  lemma {:induction false} StoredStatusIsHonest(w: World, n: nat)
    requires WellFormed(w) && FreshReads(w.script) && NoRemoval(w.script)
    requires w.state.driver.Some? && w.state.driver.value.status.observedGeneration <= w.state.driver.value.generation
    ensures Run(w, n).state.driver.Some?
    ensures var d := Run(w, n).state.driver.value;
            HonestRun(w, n, d.status) && d.status.observedGeneration <= d.generation
  {
    hide WellFormed, FreshReads, NoRemoval, Reaches, Pass, Available, EnsuredBy, NextStatus, Phases;
    if n > 0 {
      StoredStatusIsHonest(w, n - 1);
      StatusStep(w, n - 1);
      var was := Run(w, n - 1).state.driver.value;
      var now := Run(w, n).state.driver.value;
      if now.status != was.status {
        ReadyForPass(w, n - 1);
        StepEnsures(w, n - 1);
      } else if Available(now.status) && exists m | 0 <= m < n - 1 :: EnsuredBy(w, m, was.status.observedGeneration) {
        var m :| 0 <= m < n - 1 && EnsuredBy(w, m, was.status.observedGeneration);
        assert 0 <= m < n && EnsuredBy(w, m, now.status.observedGeneration);
      }
    }
  }

  lemma ReadyForPass(w: World, n: nat)
    requires WellFormed(w) && FreshReads(w.script) && NoRemoval(w.script)
    ensures var start := Restart(Run(w, n)); WellFormed(start) && FreshReads(start.script) && NoRemoval(start.script)
  {
    hide WellFormed, FreshReads, NoRemoval, Reaches, Pass, Run;
    RunReaches(w, n);
    RestartReaches(Run(w, n));
    ReachesTransitive(w, Run(w, n), Restart(Run(w, n)));
    ReachedWellFormed(w, Restart(Run(w, n)));
    ReachedScriptKeeps(w, Restart(Run(w, n)));
  }

  // One more pass: the status is kept or is the one computed; observedGeneration does
  // not decrease and stays within the generation.
  lemma StatusStep(w: World, n: nat)
    requires WellFormed(w) && FreshReads(w.script) && NoRemoval(w.script) && Run(w, n).state.driver.Some?
    requires var d := Run(w, n).state.driver.value; d.status.observedGeneration <= d.generation
    ensures Run(w, n + 1).state.driver.Some?
    ensures var d, d' := Run(w, n).state.driver.value, Run(w, n + 1).state.driver.value;
            && (d'.status == d.status || Computed(Restart(Run(w, n)), Run(w, n + 1).state))
            && d.status.observedGeneration <= d'.status.observedGeneration <= d'.generation
  {
    hide WellFormed, FreshReads, NoRemoval, Reaches, Pass, Phases;
    var start := Restart(Run(w, n));
    var d := start.state.driver.value;
    ReadyForPass(w, n);
    PassStatus(start, d.status, d.generation);
    assert Run(w, n + 1) == Pass(start).1;
    if Computed(start, Run(w, n + 1).state) {
      assert NextStatus(ReadDriver(start).value,
          Phases(Do(start, GetDriver).1, ReadDriver(start).value)).observedGeneration ==
             ReadDriver(start).value.generation;
    }
  }

  // A pass that returns nil from all three phases ensures what it read.
  lemma NilEnsures(w: World, n: nat)
    requires FreshReads(Restart(Run(w, n)).script) && ReadDriver(Restart(Run(w, n))).Some?
    requires Phases(Do(Restart(Run(w, n)), GetDriver).1, ReadDriver(Restart(Run(w, n))).value).err == None
    ensures EnsuredBy(w, n, ReadDriver(Restart(Run(w, n))).value.generation)
  {
    hide RunAll, FullPlan, Run, Phases, Do, InPlace, After, Reaches, FreshReads, AllTyped;
    var start := Restart(Run(w, n));
    var cr := ReadDriver(start).value;
    var got := Do(start, GetDriver).1;
    PhasesRunPlan(got, cr);
    DoReaches(start, GetDriver);
    FreshScript(start, got);
    PlanTyped(cr.spec);
    forall i | 0 <= i < |FullPlan(cr.spec)|
      ensures InPlace(cr, FullPlan(cr.spec)[i], After(got, cr, FullPlan(cr.spec), i + 1).state)
    {
      AllInPlace(got, cr, FullPlan(cr.spec), i);
    }
  }

  lemma StepEnsures(w: World, n: nat)
    requires Computed(Restart(Run(w, n)), Run(w, n + 1).state) && FreshReads(Restart(Run(w, n)).script)
    ensures var st := Run(w, n + 1).state.driver.value.status; Available(st) ==> EnsuredBy(w, n, st.observedGeneration)
  {
    hide Available, HasCondition, Run, Phases, Do, Conditions, EnsuredBy, FreshReads;
    var start := Restart(Run(w, n));
    var cr := ReadDriver(start).value;
    ComputedStatusIsHonest(Do(start, GetDriver).1, cr);
    if Available(Run(w, n + 1).state.driver.value.status) {
      NilEnsures(w, n);
    }
  }
}
