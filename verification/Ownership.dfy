/** Who owns what, over whole runs, and what deleting the custom resource collects. */
module Ownership {
  import opened Base
  import opened DriverTypes
  import opened MergePatch
  import opened Cluster
  import opened History
  import opened Tasks
  import opened Plan
  import opened PlanFacts
  import opened Runs
  import opened CalmRuns
  import opened Outcome
  import opened PlanShape
  import opened Lawful
  import opened Ordering
  import opened PassSafety

  // ---- Counting controllers ----

  function Controllers(owners: seq<OwnerRef>): nat {
    if owners == [] then 0 else (if owners[0].controller then 1 else 0) + Controllers(owners[1..])
  }

  // The first reference that names the owner, by group, kind and name.
  function FirstNamed(owners: seq<OwnerRef>, ref: OwnerRef): Option<OwnerRef> {
    if owners == [] then None
    else if SameReferent(owners[0], ref) then Some(owners[0])
    else FirstNamed(owners[1..], ref)
  }

  lemma {:induction false} UpsertCount(owners: seq<OwnerRef>, ref: OwnerRef)
    requires ref.controller
    ensures var first := FirstNamed(owners, ref);
            Controllers(Upsert(owners, ref)) ==
            Controllers(owners) + (if first.Some? && first.value.controller then 0 else 1)
  {
    if owners != [] {
      if SameReferent(owners[0], ref) {
        assert ([ref] + owners[1..])[1..] == owners[1..];
      } else {
        UpsertCount(owners[1..], ref);
        assert ([owners[0]] + Upsert(owners[1..], ref))[1..] == Upsert(owners[1..], ref);
      }
    }
  }

  // Adoption leaves exactly one controller, precisely when there was none, or the one
  // there was is the first reference naming the custom resource.
  lemma ExactlyOneController(owners: seq<OwnerRef>, cr: Driver)
    requires Controllers(owners) <= 1 && SetController(owners, ControllerRef(cr)).Some?
    ensures var after := SetController(owners, ControllerRef(cr)).value;
            var first := FirstNamed(owners, ControllerRef(cr));
            Controllers(after) == 1 <==> Controllers(owners) == 0 || (first.Some? && first.value.controller)
  {
    UpsertCount(owners, ControllerRef(cr));
    FirstNamedCounts(owners, ControllerRef(cr));
  }

  // The condition can fail: two references name the custom resource, and the second is the
  // controller.
  lemma TwoControllers(cr: Driver)
    ensures exists owners ::
              && Controllers(owners) == 1 && SetController(owners, ControllerRef(cr)).Some?
              && Controllers(SetController(owners, ControllerRef(cr)).value) == 2
  {
    var ref := ControllerRef(cr);
    var owner, controller := ref.(uid := cr.uid + 1, controller := false), ref.(uid := cr.uid + 2);
    var owners := [owner, controller];
    assert owners[1..] == [controller] && owners[1..][1..] == [];
    assert [ref, controller][1..] == [controller];
    assert Upsert(owners, ref) == [ref, controller];
    assert ControllerOf([controller]) == Some(controller) && ControllerOf(owners) == Some(controller);
    assert Controllers(owners) == 1 && SetController(owners, ref) == Some([ref, controller]);
    assert Controllers([controller]) == 1 && Controllers([ref, controller]) == 2;
  }

  lemma {:induction false} FirstNamedCounts(owners: seq<OwnerRef>, ref: OwnerRef)
    ensures FirstNamed(owners, ref).Some? && FirstNamed(owners, ref).value.controller ==> Controllers(owners) >= 1
  {
    if owners != [] && !SameReferent(owners[0], ref) {
      FirstNamedCounts(owners[1..], ref);
    }
  }

  // The references of all other owners are kept, in order.
  function Others(owners: seq<OwnerRef>, ref: OwnerRef): seq<OwnerRef> {
    if owners == [] then []
    else (if SameReferent(owners[0], ref) then [] else [owners[0]]) + Others(owners[1..], ref)
  }

  lemma {:induction false} UpsertKeepsOthers(owners: seq<OwnerRef>, ref: OwnerRef)
    ensures Others(Upsert(owners, ref), ref) == Others(owners, ref)
  {
    if owners == [] {
      assert [ref][1..] == [];
    } else if SameReferent(owners[0], ref) {
      assert ([ref] + owners[1..])[1..] == owners[1..];
    } else {
      UpsertKeepsOthers(owners[1..], ref);
      assert ([owners[0]] + Upsert(owners[1..], ref))[1..] == Upsert(owners[1..], ref);
    }
  }

  // ---- Adoption, reference by reference ----

  // The owner reference of a custom resource.
  function Reference(cr: Driver): OwnerRef {
    OwnerRef("csi.alibabacloud.com", "AlibabaCloudCSIDriver", cr.name, cr.uid, true)
  }

  // A reference that names the custom resource, of whatever uid.
  predicate NamesDriver(o: OwnerRef, cr: Driver) {
    o.group == "csi.alibabacloud.com" && o.kind == "AlibabaCloudCSIDriver" && o.name == cr.name
  }

  // The first controller of the list is at i.
  ghost predicate FirstController(owners: seq<OwnerRef>, i: int) {
    0 <= i < |owners| && owners[i].controller && forall j | 0 <= j < i :: !owners[j].controller
  }

  // The first reference that names the custom resource is at i.
  ghost predicate FirstNaming(owners: seq<OwnerRef>, cr: Driver, i: int) {
    0 <= i < |owners| && NamesDriver(owners[i], cr) && forall j | 0 <= j < i :: !NamesDriver(owners[j], cr)
  }

  lemma {:induction false} ControllerIsFirst(owners: seq<OwnerRef>)
    ensures ControllerOf(owners).Some? ==>
              exists i :: FirstController(owners, i) && ControllerOf(owners).value == owners[i]
    ensures forall i | FirstController(owners, i) :: ControllerOf(owners) == Some(owners[i])
  {
    if owners != [] && !owners[0].controller {
      var rest := owners[1..];
      ControllerIsFirst(rest);
      if i :| FirstController(rest, i) && ControllerOf(rest).Some? && ControllerOf(rest).value == rest[i] {
        assert FirstController(owners, i + 1);
      }
      forall i | FirstController(owners, i)
        ensures ControllerOf(owners) == Some(owners[i])
      {
        assert FirstController(rest, i - 1);
      }
    } else if owners != [] {
      assert FirstController(owners, 0);
    }
  }

  lemma {:induction false} UpsertAt(owners: seq<OwnerRef>, cr: Driver)
    ensures (forall j | 0 <= j < |owners| :: !NamesDriver(owners[j], cr)) ==>
              Upsert(owners, ControllerRef(cr)) == owners + [Reference(cr)]
    ensures forall i | FirstNaming(owners, cr, i) :: Upsert(owners, ControllerRef(cr)) == owners[i := Reference(cr)]
  {
    if owners != [] && !NamesDriver(owners[0], cr) {
      var rest := owners[1..];
      UpsertAt(rest, cr);
      forall i | FirstNaming(owners, cr, i)
        ensures Upsert(owners, ControllerRef(cr)) == owners[i := Reference(cr)]
      {
        assert FirstNaming(rest, cr, i - 1);
      }
    }
  }

  // Taking control fails exactly when the first controller names another owner. Otherwise
  // the first reference that names the custom resource becomes its controller reference, in
  // place, or that is appended, and every other reference is as it was.
  lemma AdoptionIsExact(owners: seq<OwnerRef>, cr: Driver)
    ensures SetController(owners, ControllerRef(cr)) == None <==>
            exists i :: FirstController(owners, i) && !NamesDriver(owners[i], cr)
    ensures SetController(owners, ControllerRef(cr)).Some? ==>
              var after := SetController(owners, ControllerRef(cr)).value;
              && ((forall j | 0 <= j < |owners| :: !NamesDriver(owners[j], cr)) ==> after == owners + [Reference(cr)])
              && (forall i | FirstNaming(owners, cr, i) :: after == owners[i := Reference(cr)])
  {
    hide Upsert, ControllerOf, FirstController, FirstNaming;
    ControllerIsFirst(owners);
    UpsertAt(owners, cr);
    assert forall o :: SameReferent(o, ControllerRef(cr)) <==> NamesDriver(o, cr);
  }

  // ---- One event ----

  predicate OwnedKind(kind: Kind) {
    kind in {ServiceAccount, ClusterRole, ClusterRoleBinding, CSIDriver, StorageClass, Deployment, DaemonSet,
        SnapshotClass}
  }

  // Every write of an owned kind leaves the object controlled by the custom resource, a
  // workload with no other owner, a snapshot class only by creating it; every other
  // write leaves the owners alone.
  ghost predicate OwnershipKept(cr: Driver, e: Event) {
    e.target.OnObject? &&
    var key := e.target.key;
    && OnlyAt(key, e)
    && var a := e.after.objects[key];
       && (OwnedKind(key.kind) ==> ControlledBy(a.owners, cr.uid))
       && (key.kind in {Deployment, DaemonSet} ==> a.owners == [ControllerRef(cr)])
       && (key.kind == SnapshotClass ==> key !in e.before.objects)
       && (!OwnedKind(key.kind) ==> key in e.before.objects && a.owners == e.before.objects[key].owners)
  }

  lemma PermittedKeepsOwnership(cr: Driver, t: Task, e: Event)
    requires Permitted(cr, t, e) && Typed(t)
    ensures OwnershipKept(cr, e)
  {
    hide Upsert, Merge, DocumentOf;
    var key := e.target.key;
    var b := Lookup(e.before, key);
    if b.Some? && !ForeignControlled(b.value.owners, ControllerRef(cr)) {
      UpsertControls(b.value.owners, ControllerRef(cr));
    }
  }

  // ---- Whole runs, without any condition on reads ----

  ghost predicate PlannedBy(cr: Driver, e: Event) {
    e.target == OnDriver || exists t :: t in FullPlan(cr.spec) && Permitted(cr, t, e)
  }

  lemma PassLaw(w: World)
    requires WellFormed(w)
    ensures w.log <= Pass(w).1.log
    ensures forall i | |w.log| <= i < |Pass(w).1.log| && Pass(w).1.log[i].byOperator ::
              ReadDriver(w).Some? && PlannedBy(ReadDriver(w).value, Pass(w).1.log[i])
  {
    hide Do, WellFormed, Reaches, Permitted, FullPlan, Phases;
    var got := Do(w, GetDriver);
    DoEvents(w, GetDriver);
    if got.0.FoundDriver? {
      var cr := got.0.driver;
      DoReaches(w, GetDriver);
      ReachedWellFormed(w, got.1);
      PhasesRunPlan(got.1, cr);
      RunAllLaw(got.1, cr, FullPlan(cr.spec));
      var p := Phases(got.1, cr);
      DoEvents(p.world, PatchStatus(cr.status, NextStatus(cr, p)));
    }
  }

  lemma PlannedKeepsOwnership(cr: Driver, e: Event)
    requires PlannedBy(cr, e) && e.target.OnObject?
    ensures OwnershipKept(cr, e)
  {
    hide FullPlan, Permitted, Typed, OwnershipKept, FlatPatches;
    var t :| t in FullPlan(cr.spec) && Permitted(cr, t, e);
    PlanTyped(cr.spec);
    PermittedKeepsOwnership(cr, t, e);
  }

  // ---- The custom resources of a run ----

  // cr is the custom resource as it is, or as it was at some time.
  ghost predicate WasDriver(w: World, cr: Driver) {
    w.state.driver == Some(cr) || exists i :: 0 <= i < |w.log| && w.log[i].before.driver == Some(cr)
  }

  lemma WasDriverStill(w: World, w': World, cr: Driver)
    requires Reaches(w, w') && WasDriver(w, cr)
    ensures WasDriver(w', cr)
  {
    hide Path, WellFormed, Allowed;
    if w.state.driver == Some(cr) {
      var events := Trace(w, w');
      PathInvariantTo(w.state, events, w'.state, (s: State) => s == w.state, 0);
      if events != [] {
        assert w'.log[|w.log|] == events[0];
      }
    } else {
      var i :| 0 <= i < |w.log| && w.log[i].before.driver == Some(cr);
      assert w'.log[i] == w.log[i];
    }
  }

  // A pass reads the custom resource as it was at some time.
  lemma ReadIsKnown(w: World)
    requires ReadDriver(w).Some?
    ensures WasDriver(Pass(w).1, ReadDriver(w).value)
  {
    hide Turned, Reaches, Pass, WasDriver;
    var cr := ReadDriver(w).value;
    var t := Turned(w);
    ServedDo(w, GetDriver);
    ViewIsKnown(t, Head(w.script).lag, cr);
    AfterReadReaches(w);
    WasDriverStill(t, Pass(w).1, cr);
  }

  lemma ViewIsKnown(w: World, lag: nat, cr: Driver)
    requires View(w, lag).driver == Some(cr)
    ensures WasDriver(w, cr)
  {
  }

  // Every operator event of every run is planned by the custom resource as it was at some
  // time, whatever becomes of it meanwhile.
  lemma {:induction false} RunPlannedByOne(w: World, n: nat, i: nat)
    requires WellFormed(w)
    requires |w.log| <= i < |Run(w, n).log| && Run(w, n).log[i].byOperator
    ensures exists cr :: WasDriver(Run(w, n), cr) && PlannedBy(cr, Run(w, n).log[i])
  {
    hide WellFormed, PlannedBy, Reaches, Pass, ReadDriver, WasDriver;
    if n > 0 {
      var past := Run(w, n - 1);
      var before := Restart(past);
      RunReaches(w, n - 1);
      RestartReaches(past);
      ReachesTransitive(w, past, before);
      ReachedWellFormed(w, before);
      PassLaw(before);
      PassReaches(before);
      if i < |past.log| {
        RunPlannedByOne(w, n - 1, i);
        var cr :| WasDriver(past, cr) && PlannedBy(cr, past.log[i]);
        WasDriverStill(past, before, cr);
        WasDriverStill(before, Run(w, n), cr);
      } else {
        ReadIsKnown(before);
      }
    }
  }

  // Every custom resource there ever was has the name of the world.
  predicate NamedState(s: State, name: string) {
    s.driver.Some? ==> s.driver.value.name == name
  }

  ghost predicate NamedWorld(w: World) {
    NamedState(w.state, w.name) && forall i | 0 <= i < |w.log| :: NamedState(w.log[i].before, w.name)
  }

  lemma NamesKept(w: World, w': World)
    requires NamedWorld(w) && Reaches(w, w')
    ensures NamedWorld(w') && w'.name == w.name
  {
    hide WellFormed, Path, Extends, NamedState;
    var events := Trace(w, w');
    forall i | 0 <= i < |events|
      ensures NamedState(events[i].before, w.name) ==> NamedState(events[i].after, w.name)
    {
      NameStep(w.script, w.name, events[i]);
    }
    PathInvariant(w.state, events, w'.state, (s: State) => NamedState(s, w.name));
    forall i | 0 <= i < |w'.log|
      ensures NamedState(w'.log[i].before, w.name)
    {
      assert w'.log[i] == if i < |w.log| then w.log[i] else events[i - |w.log|];
    }
  }

  lemma NameStep(script: seq<Turn>, name: string, e: Event)
    requires Allowed(script, name, e)
    ensures NamedState(e.before, name) ==> NamedState(e.after, name)
  {
    if !e.byOperator {
      var i, j :| 0 <= i < |script| && 0 <= j < |script[i].edits| && Made(script[i].edits[j], name, e);
    }
  }

  lemma WasNamed(w: World, cr: Driver)
    requires NamedWorld(w) && WasDriver(w, cr)
    ensures cr.name == w.name
  {
  }

  // ---- One custom resource over the run ----

  // The custom resource is the one with this uid in every state of the past and now, and
  // its spec always satisfies ok.
  ghost predicate KnownDriver(s: State, name: string, uid: nat, ok: Spec -> bool) {
    s.driver.Some? ==> s.driver.value.name == name && s.driver.value.uid == uid && ok(s.driver.value.spec)
  }

  ghost predicate OneDriver(w: World, uid: nat, ok: Spec -> bool) {
    && w.state.driver.Some?
    && KnownDriver(w.state, w.name, uid, ok)
    && forall i | 0 <= i < |w.log| :: KnownDriver(w.log[i].before, w.name, uid, ok)
  }

  ghost predicate KeepsDriver(script: seq<Turn>, ok: Spec -> bool) {
    forall i, j | 0 <= i < |script| && 0 <= j < |script[i].edits| ::
      !script[i].edits[j].RemoveDriver? && (script[i].edits[j].PutSpec? ==> ok(script[i].edits[j].spec))
  }

  lemma DriverStep(script: seq<Turn>, name: string, uid: nat, ok: Spec -> bool, e: Event)
    requires Allowed(script, name, e) && KeepsDriver(script, ok)
    requires e.before.driver.Some? && KnownDriver(e.before, name, uid, ok)
    ensures e.after.driver.Some? && KnownDriver(e.after, name, uid, ok)
  {
    if !e.byOperator {
      var i, j :| 0 <= i < |script| && 0 <= j < |script[i].edits| && Made(script[i].edits[j], name, e);
      assert !script[i].edits[j].RemoveDriver?;
    }
  }

  lemma ReachesOneDriver(w: World, w': World, uid: nat, ok: Spec -> bool)
    requires Reaches(w, w') && OneDriver(w, uid, ok) && KeepsDriver(w.script, ok)
    ensures OneDriver(w', uid, ok) && KeepsDriver(w'.script, ok)
  {
    hide Path, WellFormed, Allowed, KnownDriver;
    var events := Trace(w, w');
    forall i | 0 <= i < |events|
      ensures events[i].before.driver.Some? && KnownDriver(events[i].before, w.name, uid, ok) ==>
                events[i].after.driver.Some? && KnownDriver(events[i].after, w.name, uid, ok)
    {
      if events[i].before.driver.Some? && KnownDriver(events[i].before, w.name, uid, ok) {
        DriverStep(w.script, w.name, uid, ok, events[i]);
      }
    }
    PathInvariant(w.state, events, w'.state, (s: State) => s.driver.Some? && KnownDriver(s, w.name, uid, ok));
    forall i | 0 <= i < |w'.log|
      ensures KnownDriver(w'.log[i].before, w'.name, uid, ok)
    {
      assert w'.log[i] == if i < |w.log| then w.log[i] else events[i - |w.log|];
    }
    forall i | 0 <= i < |w'.script|
      ensures w'.script[i] == w.script[|w.script| - |w'.script| + i]
    {
    }
  }

  lemma WasTheOne(w: World, uid: nat, ok: Spec -> bool, cr: Driver)
    requires OneDriver(w, uid, ok) && WasDriver(w, cr)
    ensures cr.name == w.name && cr.uid == uid && ok(cr.spec)
  {
  }

  // Every operator event of every run is planned by the one custom resource, with a spec
  // it had at some time.
  lemma RunPlanned(w: World, n: nat, uid: nat, ok: Spec -> bool, i: nat)
    requires WellFormed(w) && OneDriver(w, uid, ok) && KeepsDriver(w.script, ok)
    requires |w.log| <= i < |Run(w, n).log| && Run(w, n).log[i].byOperator
    ensures exists cr: Driver :: cr.name == w.name && cr.uid == uid && ok(cr.spec) && PlannedBy(cr, Run(w, n).log[i])
  {
    hide WellFormed, OneDriver, KeepsDriver, PlannedBy, Reaches, Run, WasDriver;
    RunReaches(w, n);
    ReachesOneDriver(w, Run(w, n), uid, ok);
    SameName(w, Run(w, n));
    RunPlannedByOne(w, n, i);
    var cr :| WasDriver(Run(w, n), cr) && PlannedBy(cr, Run(w, n).log[i]);
    WasTheOne(Run(w, n), uid, ok, cr);
  }

  lemma SameName(w: World, w': World)
    requires Reaches(w, w')
    ensures w'.name == w.name
  {
  }

  // ---- No lost writes ----

  lemma AdoptPermitted(cr: Driver, t: Task, e: Event)
    requires Permitted(cr, t, e) && Typed(t) && AdoptKind(e.target.key.kind) && e.target.key in e.before.objects
    ensures var b := e.before.objects[e.target.key];
            !ForeignControlled(b.owners, ControllerRef(cr)) &&
            e.after == e.before.(objects := e.before.objects[e.target.key :=
              b.(owners := Upsert(b.owners, ControllerRef(cr)), rv := e.after.objects[e.target.key].rv)])
  {
    hide Upsert, ForeignControlled, ControlledBy;
  }

  // For any interleaving, crashes and stale reads included: when a pass changes an object
  // of a create-or-adopt kind that exists, it changes the owner references of the live
  // object and nothing else, keeps every other owner, and nobody else controlled it.
  lemma NoLostWrites(w: World, n: nat, i: nat)
    requires WellFormed(w)
    requires |Run(w, n).log| <= i < |Run(w, n + 1).log| && Run(w, n + 1).log[i].byOperator
    requires var e := Run(w, n + 1).log[i];
             e.target.OnObject? && AdoptKind(e.target.key.kind) && e.target.key in e.before.objects
    ensures var e := Run(w, n + 1).log[i];
            var key := e.target.key;
            var live := e.before.objects[key];
            ReadDriver(Restart(Run(w, n))).Some? &&
            var ref := ControllerRef(ReadDriver(Restart(Run(w, n))).value);
            && key in e.after.objects
            && var next := e.after.objects[key];
               && e.after == e.before.(objects := e.before.objects[key := next])
               && next == live.(owners := next.owners, rv := next.rv)
               && Others(next.owners, ref) == Others(live.owners, ref)
               && ControllerOf(next.owners) == Some(ref)
               && !ForeignControlled(live.owners, ref)
  {
    hide WellFormed, Reaches, Do, Pass, FullPlan, Permitted, Typed, Upsert, Others, FlatPatches;
    var before := Restart(Run(w, n));
    RunReaches(w, n);
    RestartReaches(Run(w, n));
    ReachesTransitive(w, Run(w, n), before);
    ReachedWellFormed(w, before);
    PassLaw(before);
    assert Run(w, n + 1) == Pass(before).1;
    var e := Run(w, n + 1).log[i];
    var cr := ReadDriver(before).value;
    var t :| t in FullPlan(cr.spec) && Permitted(cr, t, e);
    PlanTyped(cr.spec);
    AdoptPermitted(cr, t, e);
    UpsertKeepsOthers(e.before.objects[e.target.key].owners, ControllerRef(cr));
    UpsertControls(e.before.objects[e.target.key].owners, ControllerRef(cr));
  }

  // ---- Control is kept ----

  lemma {:induction false} PathTail(s: State, events: seq<Event>, s': State, i: nat)
    requires Path(s, events, s') && i < |events|
    ensures Path(events[i].after, events[i + 1..], s')
    decreases |events|
  {
    var front := events[..|events| - 1];
    var last := events[|events| - 1];
    if i == |front| {
      assert events[i + 1..] == [];
    } else {
      PathTail(s, front, last.before, i);
      assert events[i + 1..] == front[i + 1..] + [last];
      PathOne(last);
      PathConcat(events[i].after, front[i + 1..], last.before, [last], s');
    }
  }

  // Other clients may delete the object, but what they put there stays controlled.
  ghost predicate KeepsControl(script: seq<Turn>, key: Key, uid: nat) {
    forall i, j | 0 <= i < |script| && 0 <= j < |script[i].edits| ::
      var edit := script[i].edits[j]; edit.Put? && edit.key == key ==> ControlledBy(edit.owners, uid)
  }

  ghost predicate Controlled(s: State, key: Key, uid: nat) {
    key in s.objects ==> ControlledBy(s.objects[key].owners, uid)
  }

  lemma EditKeepsControl(script: seq<Turn>, name: string, key: Key, uid: nat, e: Event)
    requires FromScript(script, name, e) && KeepsControl(script, key, uid) && Controlled(e.before, key, uid)
    ensures Controlled(e.after, key, uid)
  {
    hide ControlledBy;
    var i, j :| 0 <= i < |script| && 0 <= j < |script[i].edits| && Made(script[i].edits[j], name, e);
    var edit := script[i].edits[j];
    assert edit.Put? && edit.key == key ==> ControlledBy(edit.owners, uid);
  }

  lemma EventKeepsControl(w: World, n: nat, uid: nat, ok: Spec -> bool, key: Key, i: nat)
    requires WellFormed(w) && OneDriver(w, uid, ok) && KeepsDriver(w.script, ok)
    requires KeepsControl(w.script, key, uid) && OwnedKind(key.kind)
    requires |w.log| <= i < |Run(w, n).log|
    ensures var e := Run(w, n).log[i]; Controlled(e.before, key, uid) ==> Controlled(e.after, key, uid)
    ensures var e := Run(w, n).log[i]; e.byOperator && e.target == OnObject(key) ==> Controlled(e.after, key, uid)
  {
    hide WellFormed, OneDriver, KeepsDriver, PlannedBy, Run, KeepsControl, FromScript, Path, Extends, ControlledBy;
    RunReaches(w, n);
    var e := Run(w, n).log[i];
    assert e == Trace(w, Run(w, n))[i - |w.log|];
    if e.byOperator {
      RunPlanned(w, n, uid, ok, i);
      var cr: Driver :| cr.name == w.name && cr.uid == uid && ok(cr.spec) && PlannedBy(cr, e);
      if e.target.OnObject? {
        PlannedKeepsOwnership(cr, e);
      }
    } else if Controlled(e.before, key, uid) {
      EditKeepsControl(w.script, w.name, key, uid, e);
    }
  }

  // Over any run of one custom resource, spec edits and disabled drivers included: once
  // the operator wrote an object of an owned kind, the object is controlled by the custom
  // resource for as long as it exists.
  lemma ControlIsKept(w: World, n: nat, uid: nat, ok: Spec -> bool, key: Key, i: nat)
    requires WellFormed(w) && OneDriver(w, uid, ok) && KeepsDriver(w.script, ok)
    requires KeepsControl(w.script, key, uid) && OwnedKind(key.kind)
    requires |w.log| <= i < |Run(w, n).log| && Run(w, n).log[i].byOperator && Run(w, n).log[i].target == OnObject(key)
    ensures Controlled(Run(w, n).state, key, uid)
    ensures forall j | i < j < |Run(w, n).log| :: Controlled(Run(w, n).log[j].before, key, uid)
  {
    hide WellFormed, OneDriver, KeepsDriver, KeepsControl, Run, Path, Extends, Allowed, Controlled;
    var last := Run(w, n);
    RunReaches(w, n);
    var events := Trace(w, last);
    var k := i - |w.log|;
    PathTail(w.state, events, last.state, k);
    EventKeepsControl(w, n, uid, ok, key, i);
    var rest := events[k + 1..];
    forall j | 0 <= j < |rest|
      ensures Controlled(rest[j].before, key, uid) ==> Controlled(rest[j].after, key, uid)
    {
      assert rest[j] == last.log[i + 1 + j];
      EventKeepsControl(w, n, uid, ok, key, i + 1 + j);
    }
    PathInvariant(events[k].after, rest, last.state, (s: State) => Controlled(s, key, uid));
    forall j | i < j < |last.log|
      ensures Controlled(last.log[j].before, key, uid)
    {
      assert rest[j - i - 1] == last.log[j];
    }
  }

  // ---- Nothing is dropped ----

  // The operator deletes nothing, in any run: in particular the SCC binding stays through
  // later passes that fall back to Pod Security Admission.
  lemma PresentStays(w: World, n: nat, key: Key)
    requires WellFormed(w) && NeverRemoved(w.script, key) && key in w.state.objects
    ensures key in Run(w, n).state.objects
  {
    hide WellFormed, NeverRemoved, Run, Path, Extends, PlannedBy, FromScript, ControlledBy, WasDriver;
    RunReaches(w, n);
    var last := Run(w, n);
    var events := Trace(w, last);
    forall j | 0 <= j < |events|
      ensures KeepsKey(key, events[j])
    {
      var e := events[j];
      assert e == last.log[|w.log| + j];
      if e.byOperator {
        RunPlannedByOne(w, n, |w.log| + j);
        var cr :| WasDriver(last, cr) && PlannedBy(cr, e);
        if e.target.OnObject? {
          PlannedKeepsOwnership(cr, e);
        }
      } else {
        EditKeepsPresent(w.script, w.name, key, e);
      }
    }
    PathInvariant(w.state, events, last.state, (s: State) => key in s.objects);
  }

  // ---- The cluster default ----

  predicate IsDefaultClass(p: Payload) {
    p.ClassPayload? && DEFAULT_CLASS_ANNOTATION in p.annotations
  }

  lemma DefaultOrigin(spec: Spec, t: Task)
    requires t in FullPlan(spec) && t.Adopt? && IsDefaultClass(t.payload)
    ensures spec.disk.enabled && spec.disk.classes != [] && t.key == Key(StorageClass, spec.disk.classes[0].name)
  {
    hide FullPlan, DiskClassTasks, NasClassTasks, DiskWorkloadTasks, NasWorkloadTasks;
    PlanDescribed(spec, t);
    if i :| DiskEntry(spec, i, t) {
      DiskDefault(spec, i, t);
    } else if i :| NasEntry(spec, i, t) {
      NasNoDefault(spec, i, t);
    } else {
      FixedNoDefault(spec, t);
    }
  }

  lemma DiskDefault(spec: Spec, i: nat, t: Task)
    requires DiskEntry(spec, i, t) && t.Adopt? && IsDefaultClass(t.payload)
    ensures i == 0 && t.key == Key(StorageClass, spec.disk.classes[0].name)
  {
    hide ProfilePatch, DiskClaimSets;
  }

  lemma NasNoDefault(spec: Spec, i: nat, t: Task)
    requires NasEntry(spec, i, t) && t.Adopt?
    ensures !IsDefaultClass(t.payload)
  {
    hide ProfilePatch, NasClaimSets;
  }

  lemma FixedNoDefault(spec: Spec, t: Task)
    requires t in RBAC_TASKS || t in DiskWorkloadTasks(spec) || t in SnapshotTasks(spec.disk.snapshot)
        || t in NasWorkloadTasks(spec)
    ensures t.Adopt? ==> !IsDefaultClass(t.payload)
  {
    hide ControllerPayload, NodePayload;
  }

  lemma DefaultStep(cr: Driver, t: Task, e: Event)
    requires t in FullPlan(cr.spec) && Permitted(cr, t, e) && Typed(t)
    requires e.target.key.kind == StorageClass && e.target.key !in e.before.objects
    requires IsDefaultClass(e.after.objects[e.target.key].payload)
    ensures cr.spec.disk.classes != [] && e.target.key == Key(StorageClass, cr.spec.disk.classes[0].name)
  {
    hide FullPlan, IsDefaultClass;
    DefaultOrigin(cr.spec, t);
  }

  lemma PlannedStep(cr: Driver, e: Event)
    requires PlannedBy(cr, e) && e.target.OnObject?
    ensures exists t :: t in FullPlan(cr.spec) && Permitted(cr, t, e)
  {
    hide FullPlan, Permitted;
  }

  function FirstClassIs(name: string): Spec -> bool {
    (spec: Spec) => spec.disk.classes != [] ==> spec.disk.classes[0].name == name
  }

  // Over any run in which the first disk class keeps its name, the operator creates the
  // cluster-default annotation on no class but that one.
  lemma OneClusterDefault(w: World, n: nat, uid: nat, name: string, i: nat)
    requires WellFormed(w) && OneDriver(w, uid, FirstClassIs(name)) && KeepsDriver(w.script, FirstClassIs(name))
    requires |w.log| <= i < |Run(w, n).log| && Run(w, n).log[i].byOperator
    requires Run(w, n).log[i].target.OnObject? && Run(w, n).log[i].target.key.kind == StorageClass
    requires var e := Run(w, n).log[i];
             e.target.key !in e.before.objects && e.target.key in e.after.objects
               && IsDefaultClass(e.after.objects[e.target.key].payload)
    ensures Run(w, n).log[i].target.key == Key(StorageClass, name)
  {
    hide WellFormed, OneDriver, KeepsDriver, Run, FullPlan, Permitted, Typed, IsDefaultClass, FlatPatches;
    RunPlanned(w, n, uid, FirstClassIs(name), i);
    var e := Run(w, n).log[i];
    var cr: Driver :| cr.uid == uid && FirstClassIs(name)(cr.spec) && PlannedBy(cr, e);
    PlannedStep(cr, e);
    var t :| t in FullPlan(cr.spec) && Permitted(cr, t, e);
    PlanTyped(cr.spec);
    DefaultStep(cr, t, e);
  }
}
