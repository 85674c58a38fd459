/**
 Requeueing until a pass returns nil: each failing pass uses up a disturbance.
 */
module Requeue {
  import opened Base
  import opened DriverTypes
  import opened Cluster
  import opened History
  import opened Tasks
  import opened Plan
  import opened Runs
  import opened CalmRuns
  import opened Outcome
  import opened PlanShape
  import opened Lawful
  import opened PassSafety
  import opened Ownership
  import opened Delivery
  import opened Results

  // ---- Friendly worlds ----

  // Nobody else ever puts a foreign controller on a key the operator may claim.
  ghost predicate Claims(spec: Spec, claims: set<Key>) {
    forall i | 0 <= i < |FullPlan(spec)| :: AdoptKeys(FullPlan(spec)[i]) <= claims
  }

  predicate Unclaimed(owners: seq<OwnerRef>, name: string) {
    !ForeignControlled(owners, OwnerRef("csi.alibabacloud.com", "AlibabaCloudCSIDriver", name, 0, true))
  }

  ghost predicate FriendlyState(s: State, name: string, claims: set<Key>) {
    && (s.driver.Some? ==> s.driver.value.name == name && Claims(s.driver.value.spec, claims))
    && (forall k | k in claims && k in s.objects :: Unclaimed(s.objects[k].owners, name))
  }

  ghost predicate FriendlyEdit(edit: Edit, name: string, claims: set<Key>) {
    && (edit.Put? && edit.key in claims ==> Unclaimed(edit.owners, name))
    && (edit.PutSpec? ==> Claims(edit.spec, claims))
  }

  ghost predicate FriendlyWorld(w: World, claims: set<Key>) {
    && WellFormed(w)
    && (forall k | k in claims :: AdoptKind(k.kind))
    && FriendlyState(w.state, w.name, claims)
    && (forall i | 0 <= i < |w.log| && w.log[i].before.driver.Some? :: w.log[i].before.driver.value.name == w.name)
    && (forall i, j | 0 <= i < |w.script| && 0 <= j < |w.script[i].edits| ::
        FriendlyEdit(w.script[i].edits[j], w.name, claims))
  }

  lemma EventKeepsFriends(w: World, claims: set<Key>, e: Event, cr: Option<Driver>)
    requires FriendlyWorld(w, claims) && Allowed(w.script, w.name, e) && FriendlyState(e.before, w.name, claims)
    requires e.byOperator ==> cr.Some? && cr.value.name == w.name && PlannedBy(cr.value, e)
    ensures FriendlyState(e.after, w.name, claims)
  {
    hide FullPlan, Claims, WellFormed, PlannedBy, Unclaimed, Permitted;
    if e.byOperator {
      if e.target.OnObject? {
        var key := e.target.key;
        PlannedStep(cr.value, e);
        var t :| t in FullPlan(cr.value.spec) && Permitted(cr.value, t, e);
        PlanDescribed(cr.value.spec, t);
        DescribedTask(cr.value.spec, t);
        PermittedIsUnclaimed(cr.value, t, e);
      }
    } else {
      EditKeepsFriends(w, claims, e);
    }
  }

  lemma EditKeepsFriends(w: World, claims: set<Key>, e: Event)
    requires FriendlyWorld(w, claims) && FromScript(w.script, w.name, e) && FriendlyState(e.before, w.name, claims)
    ensures FriendlyState(e.after, w.name, claims)
  {
    hide Claims, WellFormed, Unclaimed;
    var i, j :| 0 <= i < |w.script| && 0 <= j < |w.script[i].edits| && Made(w.script[i].edits[j], w.name, e);
    assert FriendlyEdit(w.script[i].edits[j], w.name, claims);
  }

  lemma PermittedIsUnclaimed(cr: Driver, t: Task, e: Event)
    requires Permitted(cr, t, e) && Typed(t)
    ensures AdoptKind(e.target.key.kind) ==> Unclaimed(e.after.objects[e.target.key].owners, cr.name)
    ensures OnlyAt(e.target.key, e)
  {
    hide Upsert, DocumentOf;
    var b := Lookup(e.before, e.target.key);
    if b.Some? && !ForeignControlled(b.value.owners, ControllerRef(cr)) {
      UpsertControls(b.value.owners, ControllerRef(cr));
    }
  }

  lemma FriendsAreNamed(w: World, claims: set<Key>)
    requires FriendlyWorld(w, claims)
    ensures NamedWorld(w)
  {
    hide WellFormed, Claims, Unclaimed;
  }

  lemma PassKeepsFriends(w: World, claims: set<Key>)
    requires FriendlyWorld(w, claims)
    ensures FriendlyWorld(Pass(w).1, claims)
  {
    hide Pass, WellFormed, FriendlyState, Path, Extends, Allowed, PlannedBy, FriendlyEdit, ReadDriver, NamedState,
        AdoptKind;
    var w' := Pass(w).1;
    PassReaches(w);
    PassLaw(w);
    ReachedWellFormed(w, w');
    FriendsAreNamed(w, claims);
    NamesKept(w, w');
    var cr := ReadDriver(w);
    if cr.Some? {
      ReadIsKnown(w);
      WasNamed(w', cr.value);
    }
    var events := Trace(w, w');
    forall i | 0 <= i < |events|
      ensures FriendlyState(events[i].before, w.name, claims) ==> FriendlyState(events[i].after, w.name, claims)
    {
      assert events[i] == w'.log[|w.log| + i];
      if FriendlyState(events[i].before, w.name, claims) {
        EventKeepsFriends(w, claims, events[i], cr);
      }
    }
    PathInvariant(w.state, events, w'.state, (s: State) => FriendlyState(s, w.name, claims));
    forall i | 0 <= i < |w'.log| && w'.log[i].before.driver.Some?
      ensures w'.log[i].before.driver.value.name == w'.name
    {
      assert WasDriver(w', w'.log[i].before.driver.value);
      WasNamed(w', w'.log[i].before.driver.value);
    }
    forall i | 0 <= i < |w'.script|
      ensures w'.script[i] == w.script[|w.script| - |w'.script| + i]
    {
    }
  }

  lemma FriendsMayAdopt(s: State, claims: set<Key>, cr: Driver)
    requires FriendlyState(s, cr.name, claims) && s.driver == Some(cr)
    ensures Friendly(cr, FullPlan(cr.spec), s)
  {
    hide FullPlan, AdoptKeys;
    var plan := FullPlan(cr.spec);
    forall i, k | 0 <= i < |plan| && k in AdoptKeys(plan[i])
      ensures Adoptable(cr, At(s, k))
    {
      assert AdoptKeys(plan[i]) <= claims;
      if k in s.objects {
        assert Unclaimed(s.objects[k].owners, cr.name);
        SameClaim(s.objects[k].owners, cr);
      }
    }
  }

  lemma SameClaim(owners: seq<OwnerRef>, cr: Driver)
    ensures Unclaimed(owners, cr.name) <==> !ForeignControlled(owners, ControllerRef(cr))
  {
  }

  // ---- Progress ----

  lemma NoDriverPass(w: World)
    requires w.alive && w.state.driver.None? && Undisturbed(w, Pass(w).1)
    ensures Succeeds(w) && Pass(w).1.state == w.state
  {
    hide Do, Phases, Reaches;
    PassReaches(w);
    CalmReadFails(w);
  }

  lemma CalmReadFails(w: World)
    requires w.alive && w.state.driver.None? && Undisturbed(w, Pass(w).1)
    ensures Do(w, GetDriver).0 == Failed(NotFound) && Do(w, GetDriver).1.alive && Do(w, GetDriver).1.state == w.state
  {
    hide Do, Phases, Reaches, Pass;
    DoReaches(w, GetDriver);
    AfterReadReaches(w);
    UndisturbedParts(w, Do(w, GetDriver).1, Pass(w).1);
    CalmDo(w, GetDriver);
  }

  // A pass succeeds or uses up a disturbance.
  lemma PassProgress(w: World, claims: set<Key>)
    requires w.alive && FriendlyWorld(w, claims)
    ensures Disturbances(Pass(w).1.script) <= Disturbances(w.script)
    ensures Succeeds(w) || Disturbances(Pass(w).1.script) < Disturbances(w.script)
  {
    hide Pass, Friendly, FullPlan, WellFormed, Path, Allowed, FriendlyState, FriendlyEdit, AdoptKind;
    PassReaches(w);
    SuffixDisturbances(Pass(w).1.script, w.script);
    if Undisturbed(w, Pass(w).1) {
      if w.state.driver.Some? {
        var cr := w.state.driver.value;
        FriendlyName(w, claims);
        FriendsMayAdopt(w.state, claims, cr);
        UndisturbedPass(w, cr);
      } else {
        NoDriverPass(w);
      }
    }
  }

  lemma FriendlyName(w: World, claims: set<Key>)
    requires FriendlyWorld(w, claims) && w.state.driver.Some?
    ensures w.state.driver.value.name == w.name
  {
    hide Claims, WellFormed;
  }

  lemma RestartKeepsFriends(w: World, claims: set<Key>)
    requires FriendlyWorld(w, claims)
    ensures FriendlyWorld(Restart(w), claims)
  {
    hide WellFormed, FriendlyState, FriendlyEdit;
    WellFormedAlive(w);
  }

  lemma {:induction false} RunKeepsFriends(w: World, claims: set<Key>, n: nat)
    requires FriendlyWorld(w, claims)
    ensures FriendlyWorld(Run(w, n), claims)
  {
    hide FriendlyWorld, Pass, Restart;
    if n > 0 {
      RunKeepsFriends(w, claims, n - 1);
      RestartKeepsFriends(Run(w, n - 1), claims);
      PassKeepsFriends(Restart(Run(w, n - 1)), claims);
    }
  }

  // While no pass has succeeded, n passes have used up n disturbances.
  lemma {:induction false} FailuresAreCharged(w: World, claims: set<Key>, n: nat)
    requires FriendlyWorld(w, claims)
    requires forall m | 0 <= m < n :: !Succeeds(Restart(Run(w, m)))
    ensures Disturbances(Run(w, n).script) + n <= Disturbances(w.script)
  {
    hide FriendlyWorld, Pass, Succeeds;
    if n > 0 {
      FailuresAreCharged(w, claims, n - 1);
      RunKeepsFriends(w, claims, n - 1);
      RestartKeepsFriends(Run(w, n - 1), claims);
      PassProgress(Restart(Run(w, n - 1)), claims);
      assert !Succeeds(Restart(Run(w, n - 1)));
    }
  }

  // Convergence: with N disturbances in all, some pass among the first N + 1 returns nil,
  // and that pass found no custom resource, or read one and did every step it asks for.
  lemma Convergence(w: World, claims: set<Key>)
    requires FriendlyWorld(w, claims)
    ensures exists n | 0 <= n <= Disturbances(w.script) :: Succeeds(Restart(Run(w, n))) && DidAll(Restart(Run(w, n)))
  {
    hide FriendlyWorld, Run, Succeeds, Disturbances, DidAll;
    if forall n | 0 <= n <= Disturbances(w.script) :: !Succeeds(Restart(Run(w, n))) {
      FailuresAreCharged(w, claims, Disturbances(w.script) + 1);
      assert false;
    }
    var n :| 0 <= n <= Disturbances(w.script) && Succeeds(Restart(Run(w, n)));
    SuccessDidAll(Restart(Run(w, n)));
  }

  lemma SuccessDidAll(w: World)
    requires Succeeds(w)
    ensures DidAll(w)
  {
    hide Pass, DidAll;
    NilResult(w);
  }

  // ---- After the last disturbance ----

  lemma PassTakesTurns(w: World)
    requires w.alive
    ensures |Pass(w).1.script| <= |Rest(w.script)|
  {
    hide Pass, Reaches, Effect;
    EffectScript(w, GetDriver);
    AfterReadReaches(w);
    ScriptShrinks(Do(w, GetDriver).1, Pass(w).1);
  }

  lemma ScriptShrinks(w: World, w': World)
    requires Reaches(w, w')
    ensures |w'.script| <= |w.script|
  {
  }

  lemma {:induction false} ScriptRunsOut(w: World, n: nat)
    ensures |Run(w, n).script| <= if n <= |w.script| then |w.script| - n else 0
  {
    hide Pass;
    if n > 0 {
      ScriptRunsOut(w, n - 1);
      PassTakesTurns(Restart(Run(w, n - 1)));
    }
  }

  // Once the script is used up, which takes at most one pass per turn, every pass returns
  // nil and the store holds exactly what the custom resource asks for; later passes keep it.
  lemma EventuallyDelivered(w: World, claims: set<Key>, n: nat, cr: Driver)
    requires FriendlyWorld(w, claims) && |w.script| <= n && Run(w, n).state.driver == Some(cr)
    ensures Succeeds(Restart(Run(w, n)))
    ensures var s, s' := Run(w, n).state, Run(w, n + 1).state;
            && s'.driver == Some(cr.(status := ReadyStatus(cr, s.now)))
            && (forall k :: At(s', k) == Expected(cr, s.apis, k, At(s, k)))
  {
    hide FriendlyWorld, Pass, Expected, Friendly, Reaches, FriendlyState;
    var before := Restart(Run(w, n));
    ScriptRunsOut(w, n);
    assert before.script == [];
    PassTakesTurns(before);
    RunKeepsFriends(w, claims, n);
    RestartKeepsFriends(Run(w, n), claims);
    FriendlyName(before, claims);
    FriendlyNow(before, claims);
    FriendsMayAdopt(before.state, claims, cr);
    UndisturbedPass(before, cr);
    assert Run(w, n + 1) == Pass(before).1;
  }

  lemma FriendlyNow(w: World, claims: set<Key>)
    requires FriendlyWorld(w, claims)
    ensures FriendlyState(w.state, w.name, claims)
  {
    hide FriendlyState, WellFormed;
  }
}
