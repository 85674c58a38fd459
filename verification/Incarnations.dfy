/**
 Honest status when the custom resource is deleted and created again: it can only go wrong
 by a status write that lands on another custom resource than the one the pass read.
 */
module Incarnations {
  import opened Base
  import opened DriverTypes
  import opened Cluster
  import opened History
  import opened Tasks
  import opened Plan
  import opened PlanFacts
  import opened Runs
  import opened Lawful
  import opened Ordering
  import opened PassSafety
  import opened StatusHonesty
  import opened StaleStatus

  // ---- Writes that land on another custom resource ----

  // The status write of the pass that starts in w takes effect on another uid than it read.
  predicate Misdirected(w: World) {
    ReadDriver(w).Some? &&
    var cr := ReadDriver(w).value;
    var live := Turned(Written(w, cr)).state.driver;
    Served(Written(w, cr)) && live.Some? && live.value.uid != cr.uid
  }

  // A pass changes the status of a custom resource it did not read exactly when its write
  // is misdirected and carries a change.
  lemma LandsOnOther(w: World, cr: Driver)
    requires ReadDriver(w) == Some(cr) && Written(w, cr).alive && Turned(Written(w, cr)).state.driver.Some?
    ensures Pass(w).1.state.driver.Some?
    ensures var live, after := Turned(Written(w, cr)).state.driver.value, Pass(w).1.state.driver.value;
            var next := NextStatus(cr, Phases(Do(w, GetDriver).1, cr));
            after.uid != cr.uid && after.status != live.status <==>
            Misdirected(w) && MergeStatus(live.status, cr.status, next) != live.status
  {
    hide Do, Phases, Turned, Conditions, AllReady, MergeStatus;
    var p := Phases(Do(w, GetDriver).1, cr);
    PatchEffect(p.world, cr.status, NextStatus(cr, p));
  }

  // ---- The status of one incarnation ----

  // If the custom resource is still the one of this uid, it has this status, at this
  // generation or a later one.
  ghost predicate Own(s: State, cr: Driver) {
    s.driver.Some? && s.driver.value.uid == cr.uid ==>
      s.driver.value.status == cr.status && s.driver.value.generation >= cr.generation
  }

  lemma EventKeepsOwn(script: seq<Turn>, name: string, e: Event, cr: Driver)
    requires FromScript(script, name, e) && Own(e.before, cr)
    requires Created(e) ==> e.after.driver.value.uid != cr.uid
    ensures Own(e.after, cr)
  {
    var i, j :| 0 <= i < |script| && 0 <= j < |script[i].edits| && Made(script[i].edits[j], name, e);
  }

  ghost predicate LeavesDriver(w: World, w': World) {
    w.log <= w'.log && forall i | |w.log| <= i < |w'.log| && w'.log[i].byOperator ::
      w'.log[i].after.driver == w'.log[i].before.driver
  }

  // A re-created custom resource has another uid, so the old one keeps its status for as
  // long as the operator writes none.
  lemma StretchKeepsOwn(w: World, w': World, cr: Driver)
    requires Reaches(w, w') && FreshUids(w) && w.state.driver == Some(cr) && LeavesDriver(w, w')
    ensures Own(w'.state, cr)
  {
    hide Path, WellFormed, FromScript, Own, Extends, Created;
    var events := Trace(w, w');
    forall i | 0 <= i < |events|
      ensures Own(events[i].before, cr) ==> Own(events[i].after, cr)
    {
      var e := events[i];
      assert e == w'.log[|w.log| + i];
      if Own(e.before, cr) {
        if e.byOperator {
          SameDriverIsOwn(e, cr);
        } else {
          NewUid(w, w', cr, i);
          EventKeepsOwn(w.script, w.name, e, cr);
        }
      }
    }
    StillOwn(w.state, cr);
    PathInvariant(w.state, events, w'.state, (s: State) => Own(s, cr));
  }

  lemma StillOwn(s: State, cr: Driver)
    requires s.driver == Some(cr)
    ensures Own(s, cr)
  {
  }

  lemma SameDriverIsOwn(e: Event, cr: Driver)
    requires Own(e.before, cr) && e.after.driver == e.before.driver
    ensures Own(e.after, cr)
  {
  }

  lemma NewUid(w: World, w': World, cr: Driver, i: nat)
    requires Reaches(w, w') && FreshUids(w) && w.state.driver == Some(cr) && i < |Trace(w, w')|
    ensures Created(Trace(w, w')[i]) ==> Trace(w, w')[i].after.driver.value.uid != cr.uid
  {
    hide Path, WellFormed, Allowed, Extends, DriverApart;
    var events := Trace(w, w');
    PathInvariantTo(w.state, events, w'.state, (s: State) => s == w.state, 0);
    assert events[0] == w'.log[|w.log|] && events[i] == w'.log[|w.log| + i];
  }

  lemma PhasesLeaveDriver(w: World, cr: Driver)
    requires WellFormed(w)
    ensures LeavesDriver(w, Phases(w, cr).world)
  {
    hide WellFormed, Phases, RunAll, FullPlan, Permitted;
    PhasesRunPlan(w, cr);
    RunAllLaw(w, cr, FullPlan(cr.spec));
    var w' := Phases(w, cr).world;
    forall i | |w.log| <= i < |w'.log| && w'.log[i].byOperator
      ensures w'.log[i].after.driver == w'.log[i].before.driver
    {
      var t :| t in FullPlan(cr.spec) && Permitted(cr, t, w'.log[i]);
      PermittedKeepsDriver(cr, t, w'.log[i]);
    }
  }

  // The world in which the status is written, after the edits before it, is reached from
  // the read without any write of the custom resource by the operator.
  lemma UntilTheWrite(w: World, cr: Driver)
    requires WellFormed(w)
    ensures var t := Turned(Phases(w, cr).world); Reaches(w, t) && LeavesDriver(w, t)
  {
    hide WellFormed, Phases, Turned, Reaches;
    var p := Phases(w, cr);
    PhasesReach(w, cr);
    PhasesLeaveDriver(w, cr);
    TurnedReaches(p.world);
    TurnedEvents(p.world);
    ReachesTransitive(w, p.world, Turned(p.world));
    LogGrows(p.world, Turned(p.world));
    LogGrows(w, Turned(p.world));
    assert forall i | 0 <= i < |p.world.log| :: Turned(p.world).log[i] == p.world.log[i];
  }

  // ---- Honest runs ----

  // Pass m of the run read generation g of the custom resource with this uid and ensured it.
  ghost predicate EnsuredFor(w: World, m: nat, uid: nat, g: nat) {
    EnsuredBy(w, m, g) && ReadDriver(Restart(Run(w, m))).value.uid == uid
  }

  // Available=True was there when the run began, or one of its first n passes ensured just
  // what it claims, for this very custom resource.
  ghost predicate HonestDriver(w: World, n: nat, d: Driver) {
    && d.status.observedGeneration <= d.generation
    && (Available(d.status) ==>
          || (w.state.driver.Some? && w.state.driver.value.uid == d.uid && w.state.driver.value.status == d.status)
          || exists m | 0 <= m < n :: EnsuredFor(w, m, d.uid, d.status.observedGeneration))
  }

  ghost predicate HonestState(w: World, n: nat, s: State) {
    s.driver.Some? ==> HonestDriver(w, n, s.driver.value)
  }

  lemma EmptyIsHonest(w: World, n: nat, d: Driver)
    requires d.status == EMPTY_STATUS
    ensures HonestDriver(w, n, d)
  {
    assert !Available(d.status);
  }

  lemma SameStatusIsHonest(w: World, n: nat, d: Driver, d': Driver)
    requires HonestDriver(w, n, d) && d'.uid == d.uid && d'.status == d.status && d'.generation >= d.generation
    ensures HonestDriver(w, n, d')
  {
    hide Available, EnsuredFor;
  }

  lemma EditKeepsHonest(w: World, n: nat, script: seq<Turn>, name: string, e: Event)
    requires FromScript(script, name, e) && HonestState(w, n, e.before)
    ensures HonestState(w, n, e.after)
  {
    hide HonestDriver;
    var i, j :| 0 <= i < |script| && 0 <= j < |script[i].edits| && Made(script[i].edits[j], name, e);
    if e.after.driver.Some? {
      if e.before.driver.Some? {
        SameStatusIsHonest(w, n, e.before.driver.value, e.after.driver.value);
      } else {
        EmptyIsHonest(w, n, e.after.driver.value);
      }
    }
  }

  lemma StretchKeepsHonest(w: World, n: nat, a: World, b: World)
    requires Reaches(a, b) && LeavesDriver(a, b) && HonestState(w, n, a.state)
    ensures HonestState(w, n, b.state)
  {
    hide Path, WellFormed, FromScript, HonestDriver, Extends, FreshUids;
    var events := Trace(a, b);
    forall i | 0 <= i < |events|
      ensures HonestState(w, n, events[i].before) ==> HonestState(w, n, events[i].after)
    {
      assert events[i] == b.log[|a.log| + i];
      if !events[i].byOperator && HonestState(w, n, events[i].before) {
        EditKeepsHonest(w, n, a.script, a.name, events[i]);
      }
    }
    PathInvariant(a.state, events, b.state, (s: State) => HonestState(w, n, s));
  }

  lemma HonestLater(w: World, n: nat, s: State)
    requires HonestState(w, n, s)
    ensures HonestState(w, n + 1, s)
  {
    hide EnsuredFor, Available;
  }

  // The status a pass writes, unless it is misdirected, is honest.
  lemma WriteIsHonest(w: World, n: nat, cr: Driver)
    requires var start := Restart(Run(w, n));
             && WellFormed(start) && FreshUids(start) && FreshReads(start.script)
             && ReadDriver(start) == Some(cr) && !Misdirected(start)
             && HonestState(w, n, Turned(Written(start, cr)).state)
    requires Written(Restart(Run(w, n)), cr).alive
    ensures HonestState(w, n + 1, Run(w, n + 1).state)
  {
    hide WellFormed, FreshUids, FreshReads, Run, Do, Phases, Turned, Reaches, HonestDriver, Own, Conditions, AllReady,
        EnsuredFor, Available, HasCondition;
    var start := Restart(Run(w, n));
    var got := Do(start, GetDriver);
    var p := Phases(got.1, cr);
    var t := Turned(p.world);
    RunOnce(w, n);
    HonestLater(w, n, t.state);
    if t.state.driver.Some? {
      PatchEffect(p.world, cr.status, NextStatus(cr, p));
      if Served(p.world) {
        DoReaches(start, GetDriver);
        ReachedWellFormed(start, got.1);
        FreshDriver(start);
        UntilTheWrite(got.1, cr);
        ReachedUids(start, got.1);
        StretchKeepsOwn(got.1, t, cr);
        OwnMeans(t.state, cr);
        WrittenIsHonest(w, n, cr, p, t.state.driver.value.(status := NextStatus(cr, p)));
      }
    } else {
      NoPatch(p.world, cr.status, NextStatus(cr, p));
    }
  }

  lemma RunOnce(w: World, n: nat)
    ensures Run(w, n + 1) == Pass(Restart(Run(w, n))).1
  {
  }

  lemma ReachedUids(w: World, w': World)
    requires Reaches(w, w') && FreshUids(w)
    ensures FreshUids(w')
  {
  }

  lemma OwnMeans(s: State, cr: Driver)
    requires Own(s, cr) && s.driver.Some? && s.driver.value.uid == cr.uid
    ensures s.driver.value.status == cr.status && s.driver.value.generation >= cr.generation
  {
  }

  lemma NoPatch(w: World, base: Status, next: Status)
    requires w.alive && Turned(w).state.driver.None?
    ensures Do(w, PatchStatus(base, next)).1.state.driver.None?
  {
    hide Turned;
  }

  lemma WrittenIsHonest(w: World, n: nat, cr: Driver, p: Progress, d: Driver)
    requires var start := Restart(Run(w, n));
             FreshReads(start.script) && ReadDriver(start) == Some(cr) && p == Phases(Do(start, GetDriver).1, cr)
    requires d.uid == cr.uid && d.generation >= cr.generation && d.status == NextStatus(cr, p)
    ensures HonestDriver(w, n + 1, d)
  {
    hide Do, Phases, Run, Available, HasCondition, Conditions, AllReady, EnsuredBy, FreshReads;
    ComputedStatusIsHonest(Do(Restart(Run(w, n)), GetDriver).1, cr);
    if Available(d.status) {
      NilEnsures(w, n);
      assert EnsuredFor(w, n, d.uid, d.status.observedGeneration);
    }
  }

  lemma HonestStep(w: World, n: nat)
    requires var start := Restart(Run(w, n));
             && WellFormed(start) && FreshUids(start) && FreshReads(start.script) && !Misdirected(start)
             && HonestState(w, n, start.state)
    ensures HonestState(w, n + 1, Run(w, n + 1).state)
  {
    hide WellFormed, FreshUids, FreshReads, Run, Do, Phases, Turned, Reaches, HonestState, Misdirected;
    var start := Restart(Run(w, n));
    var got := Do(start, GetDriver);
    RunOnce(w, n);
    DoReaches(start, GetDriver);
    DoEvents(start, GetDriver);
    StretchKeepsHonest(w, n, start, got.1);
    if got.0.FoundDriver? {
      var cr := got.0.driver;
      var p := Phases(got.1, cr);
      ReachedWellFormed(start, got.1);
      if p.world.alive {
        UntilTheWrite(got.1, cr);
        StretchKeepsHonest(w, n, got.1, Turned(p.world));
        WriteIsHonest(w, n, cr);
      } else {
        PhasesReach(got.1, cr);
        PhasesLeaveDriver(got.1, cr);
        StretchKeepsHonest(w, n, got.1, p.world);
        HonestLater(w, n, p.world.state);
        DeadCall(p.world, PatchStatus(cr.status, NextStatus(cr, p)));
      }
    } else {
      HonestLater(w, n, got.1.state);
    }
  }

  // With one worker and fresh reads, and with spec edits, deletions and re-creations of the
  // custom resource in between: if no status write lands on another custom resource, a
  // stored Available=True at observedGeneration g was there before the run, or some pass
  // ensured everything that generation g of this very custom resource asks for.
  lemma {:induction false} HonestUnlessMisdirected(w: World, n: nat)
    requires WellFormed(w) && FreshUids(w) && FreshReads(w.script)
    requires w.state.driver.Some? ==> w.state.driver.value.status.observedGeneration <= w.state.driver.value.generation
    requires forall m | 0 <= m < n :: !Misdirected(Restart(Run(w, m)))
    ensures HonestState(w, n, Run(w, n).state)
  {
    hide WellFormed, FreshUids, FreshReads, Run, Reaches, HonestState, Misdirected;
    if n == 0 {
      FirstIsHonest(w);
    } else {
      HonestUnlessMisdirected(w, n - 1);
      assert !Misdirected(Restart(Run(w, n - 1)));
      var past := Run(w, n - 1);
      var start := Restart(past);
      RunReaches(w, n - 1);
      RestartReaches(past);
      ReachesTransitive(w, past, start);
      ReachedWellFormed(w, start);
      ReachedUids(w, start);
      FreshScript(w, start);
      HonestStep(w, n - 1);
    }
  }

  lemma FirstIsHonest(w: World)
    requires w.state.driver.Some? ==> w.state.driver.value.status.observedGeneration <= w.state.driver.value.generation
    ensures HonestState(w, 0, Run(w, 0).state)
  {
    hide Available;
  }

  // ---- Without deletions no write is misdirected ----

  ghost predicate HasUid(s: State, uid: nat) {
    s.driver.Some? && s.driver.value.uid == uid
  }

  lemma UidStep(script: seq<Turn>, name: string, e: Event, uid: nat)
    requires Allowed(script, name, e) && NoRemoval(script) && HasUid(e.before, uid)
    ensures HasUid(e.after, uid)
  {
    if !e.byOperator {
      var i, j :| 0 <= i < |script| && 0 <= j < |script[i].edits| && Made(script[i].edits[j], name, e);
      assert !script[i].edits[j].RemoveDriver?;
    }
  }

  lemma UidKept(w: World, w': World, uid: nat)
    requires Reaches(w, w') && NoRemoval(w.script) && HasUid(w.state, uid)
    ensures HasUid(w'.state, uid)
  {
    hide Path, WellFormed, Allowed, NoRemoval, HasUid, FreshUids;
    var events := Trace(w, w');
    forall i | 0 <= i < |events|
      ensures HasUid(events[i].before, uid) ==> HasUid(events[i].after, uid)
    {
      if HasUid(events[i].before, uid) {
        UidStep(w.script, w.name, events[i], uid);
      }
    }
    PathInvariant(w.state, events, w'.state, (s: State) => HasUid(s, uid));
  }

  lemma NeverMisdirected(w: World)
    requires WellFormed(w) && FreshReads(w.script) && NoRemoval(w.script)
    ensures !Misdirected(w)
  {
    hide WellFormed, FreshReads, NoRemoval, Reaches, Do, Phases, Turned;
    if Misdirected(w) {
      var cr := ReadDriver(w).value;
      var got := Do(w, GetDriver).1;
      DoReaches(w, GetDriver);
      FreshDriver(w);
      ReachedWellFormed(w, got);
      ReachedScriptKeeps(w, got);
      UntilTheWrite(got, cr);
      UidKept(got, Turned(Phases(got, cr).world), cr.uid);
    }
  }
}
