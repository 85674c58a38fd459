/** Garbage collection after the custom resource is deleted. */
module Garbage {
  import opened Base
  import opened DriverTypes
  import opened Cluster
  import opened History
  import opened Tasks
  import opened Plan
  import opened CalmRuns
  import opened PlanShape
  import opened Lawful
  import opened Ordering
  import opened PassSafety
  import opened Ownership

  // ---- The collector ----

  function Uids(objects: map<Key, Obj>): set<nat> {
    set k | k in objects :: objects[k].uid
  }

  // An object with owners is garbage once none of them is left; `roots` are the uids of
  // owners outside the store.
  predicate Orphaned(o: Obj, live: set<nat>) {
    o.owners != [] && forall i | 0 <= i < |o.owners| :: o.owners[i].uid !in live
  }

  function Orphans(objects: map<Key, Obj>, roots: set<nat>): set<Key> {
    set k | k in objects && Orphaned(objects[k], roots + Uids(objects))
  }

  // Collects in rounds until nothing is garbage.
  function Collect(objects: map<Key, Obj>, roots: set<nat>): map<Key, Obj>
    decreases |objects|
  {
    var dead := Orphans(objects, roots);
    if dead == {} then objects
    else
      assert |objects - dead| < |objects| by { Smaller(objects, dead); }
      Collect(objects - dead, roots)
  }

  lemma Smaller(objects: map<Key, Obj>, dead: set<Key>)
    requires dead != {} && dead <= objects.Keys
    ensures |objects - dead| < |objects|
  {
    assert (objects - dead).Keys == objects.Keys - dead;
    assert |objects.Keys - dead| == |objects.Keys| - |dead|;
    assert |objects| == |objects.Keys| && |objects - dead| == |(objects - dead).Keys|;
  }

  // Every object of the set has no owner, or one outside the store or in the set.
  ghost predicate Supported(objects: map<Key, Obj>, roots: set<nat>, keep: set<Key>) {
    && keep <= objects.Keys
    && forall k | k in keep ::
         objects[k].owners == [] ||
         exists i | 0 <= i < |objects[k].owners| ::
           objects[k].owners[i].uid in roots || exists o :: o in keep && objects[o].uid == objects[k].owners[i].uid
  }

  // What survives is the largest supported set of objects, unchanged.
  lemma {:induction false} SurvivorsAreGreatest(objects: map<Key, Obj>, roots: set<nat>, keep: set<Key>)
    ensures var left := Collect(objects, roots);
            && left.Keys <= objects.Keys
            && (forall k | k in left :: left[k] == objects[k])
            && Supported(objects, roots, left.Keys)
            && (Supported(objects, roots, keep) ==> keep <= left.Keys)
    decreases |objects|
  {
    var dead := Orphans(objects, roots);
    if dead == {} {
      NothingDead(objects, roots);
    } else {
      var rest := objects - dead;
      Smaller(objects, dead);
      SurvivorsAreGreatest(rest, roots, keep);
      RestSupports(objects, roots, rest, Collect(rest, roots).Keys);
      if Supported(objects, roots, keep) {
        SupportedSurvives(objects, roots, keep);
      }
    }
  }

  lemma NothingDead(objects: map<Key, Obj>, roots: set<nat>)
    requires Orphans(objects, roots) == {}
    ensures Supported(objects, roots, objects.Keys)
  {
    forall k | k in objects.Keys && objects[k].owners != []
      ensures exists i | 0 <= i < |objects[k].owners| ::
                || objects[k].owners[i].uid in roots
                || exists o :: o in objects.Keys && objects[o].uid == objects[k].owners[i].uid
    {
      assert k !in Orphans(objects, roots);
      var i :| 0 <= i < |objects[k].owners| && objects[k].owners[i].uid in roots + Uids(objects);
    }
  }

  lemma RestSupports(objects: map<Key, Obj>, roots: set<nat>, rest: map<Key, Obj>, keep: set<Key>)
    requires rest.Keys <= objects.Keys && (forall k | k in rest :: rest[k] == objects[k])
    requires Supported(rest, roots, keep)
    ensures Supported(objects, roots, keep)
  {
  }

  lemma SupportedSurvives(objects: map<Key, Obj>, roots: set<nat>, keep: set<Key>)
    requires Supported(objects, roots, keep)
    ensures Supported(objects - Orphans(objects, roots), roots, keep)
  {
    var dead := Orphans(objects, roots);
    forall k | k in keep
      ensures k !in dead
    {
      if objects[k].owners != [] {
        var i :| 0 <= i < |objects[k].owners| &&
                 (|| objects[k].owners[i].uid in roots
                  || exists o :: o in keep && objects[o].uid == objects[k].owners[i].uid);
        assert objects[k].owners[i].uid in roots + Uids(objects);
      }
    }
  }

  // An object all of whose owners are gone is collected.
  lemma OwnedByTheDead(objects: map<Key, Obj>, roots: set<nat>, key: Key)
    requires key in objects && Orphaned(objects[key], roots + Uids(objects))
    ensures key !in Collect(objects, roots)
  {
    SurvivorsAreGreatest(objects, roots, {});
  }

  // An object without owners survives.
  lemma UnownedSurvives(objects: map<Key, Obj>, roots: set<nat>, key: Key)
    requires key in objects && objects[key].owners == []
    ensures key in Collect(objects, roots) && Collect(objects, roots)[key] == objects[key]
  {
    SurvivorsAreGreatest(objects, roots, {key});
  }

  // An object with one owner, outside the store, goes exactly when the owner does.
  lemma GoesWithItsOwner(objects: map<Key, Obj>, roots: set<nat>, key: Key)
    requires key in objects && |objects[key].owners| == 1 && objects[key].owners[0].uid !in Uids(objects)
    ensures key in Collect(objects, roots) <==> objects[key].owners[0].uid in roots
  {
    hide Collect;
    if objects[key].owners[0].uid in roots {
      assert Supported(objects, roots, {key});
      SurvivorsAreGreatest(objects, roots, {key});
    } else {
      OwnedByTheDead(objects, roots, key);
    }
  }

  // ---- Uninstalling ----

  // The one owner of the object is the custom resource, as it is or once was.
  ghost predicate SoleOwner(s: State, key: Key, w: World) {
    key in s.objects ==> exists cr :: WasDriver(w, cr) && s.objects[key].owners == [ControllerRef(cr)]
  }

  // An event after which the object, if there, has the owners it had.
  ghost predicate SparesOwners(key: Key, e: Event) {
    key in e.after.objects ==> key in e.before.objects && e.after.objects[key].owners == e.before.objects[key].owners
  }

  // The object is absent, has no owner, or is of a kind that is replaced.
  predicate Claimable(s: State, key: Key) {
    key !in s.objects || s.objects[key].owners == [] || key.kind in {Deployment, DaemonSet}
  }

  // Whatever the operator writes keeps a sole owner sole, and makes the custom resource
  // the sole owner of what it creates, adopts without owners, or replaces.
  lemma StepKeepsSole(w: World, cr: Driver, t: Task, e: Event, key: Key)
    requires NamedWorld(w) && WasDriver(w, cr)
    requires Permitted(cr, t, e) && Typed(t) && OwnedKind(key.kind)
    ensures SoleOwner(e.before, key, w) ==> SoleOwner(e.after, key, w)
    ensures e.target.key == key && Claimable(e.before, key) ==> SoleOwner(e.after, key, w)
  {
    hide DocumentOf, WasDriver, NamedWorld, ForeignControlled, ControlledBy;
    if e.target.key == key && key in e.before.objects && SoleOwner(e.before, key, w) {
      var was :| WasDriver(w, was) && e.before.objects[key].owners == [ControllerRef(was)];
      WasNamed(w, was);
      WasNamed(w, cr);
      assert Upsert([ControllerRef(was)], ControllerRef(cr)) == [ControllerRef(cr)];
    }
  }

  lemma EventKeepsSole(w: World, n: nat, key: Key, i: nat)
    requires WellFormed(w) && NamedWorld(w) && OwnedKind(key.kind) && |w.log| <= i < |Run(w, n).log|
    requires !Run(w, n).log[i].byOperator ==> SparesOwners(key, Run(w, n).log[i])
    ensures var e := Run(w, n).log[i];
            && (SoleOwner(e.before, key, Run(w, n)) ==> SoleOwner(e.after, key, Run(w, n)))
            && (e.byOperator && e.target == OnObject(key) && Claimable(e.before, key) ==>
                  SoleOwner(e.after, key, Run(w, n)))
  {
    hide WellFormed, NamedWorld, FullPlan, Run, Path, Extends, Permitted, Typed, WasDriver, FromScript;
    RunReaches(w, n);
    NamesKept(w, Run(w, n));
    var e := Run(w, n).log[i];
    assert e == Trace(w, Run(w, n))[i - |w.log|];
    if e.byOperator {
      RunPlannedByOne(w, n, i);
      var cr :| WasDriver(Run(w, n), cr) && PlannedBy(cr, e);
      if e.target.OnObject? {
        PlannedStep(cr, e);
        var t :| t in FullPlan(cr.spec) && Permitted(cr, t, e);
        PlanTyped(cr.spec);
        StepKeepsSole(Run(w, n), cr, t, e, key);
      }
    }
  }

  // Clean uninstall, over any run with crashes, faults, stale reads, spec edits and
  // deletion and re-creation of the custom resource: what the operator created, adopted
  // without owners or replaced, and whose owners nobody else changed since, has one owner,
  // the custom resource of some time, and collection removes it exactly when that is gone.
  lemma CleanUninstall(w: World, n: nat, key: Key, i: nat, roots: set<nat>)
    requires WellFormed(w) && FreshUids(w) && NamedWorld(w) && OwnedKind(key.kind) && |w.log| <= i < |Run(w, n).log|
    requires var e := Run(w, n).log[i]; e.byOperator && e.target == OnObject(key) && Claimable(e.before, key)
    requires forall j | i < j < |Run(w, n).log| && !Run(w, n).log[j].byOperator :: SparesOwners(key, Run(w, n).log[j])
    ensures SoleOwner(Run(w, n).state, key, Run(w, n))
    ensures var s := Run(w, n).state;
            key in Collect(s.objects, roots) <==>
            key in s.objects && s.objects[key].owners != [] && s.objects[key].owners[0].uid in roots
  {
    hide WellFormed, NamedWorld, Run, Path, Extends, Allowed, SoleOwner, Collect, SparesOwners, WasDriver, Uids,
        FreshUids;
    var last := Run(w, n);
    RunReaches(w, n);
    var events := Trace(w, last);
    var k := i - |w.log|;
    PathTail(w.state, events, last.state, k);
    EventKeepsSole(w, n, key, i);
    var rest := events[k + 1..];
    forall j | 0 <= j < |rest|
      ensures SoleOwner(rest[j].before, key, last) ==> SoleOwner(rest[j].after, key, last)
    {
      assert rest[j] == last.log[i + 1 + j];
      EventKeepsSole(w, n, key, i + 1 + j);
    }
    PathInvariant(events[k].after, rest, last.state, (s: State) => SoleOwner(s, key, last));
    UidsStayApart(last);
    SoleIsCollected(last, key, roots);
  }

  lemma UidsStayApart(w: World)
    requires FreshUids(w)
    ensures forall cr | WasDriver(w, cr) :: cr.uid !in Uids(w.state.objects)
  {
    forall cr | WasDriver(w, cr)
      ensures cr.uid !in Uids(w.state.objects)
    {
      if w.state.driver == Some(cr) {
        assert DriverApart(w, w.state);
      } else {
        var i :| 0 <= i < |w.log| && w.log[i].before.driver == Some(cr);
        assert DriverApart(w, w.log[i].before);
      }
    }
  }

  lemma SoleIsCollected(w: World, key: Key, roots: set<nat>)
    requires SoleOwner(w.state, key, w)
    requires forall cr | WasDriver(w, cr) :: cr.uid !in Uids(w.state.objects)
    ensures var s := w.state;
            key in Collect(s.objects, roots) <==>
            key in s.objects && s.objects[key].owners != [] && s.objects[key].owners[0].uid in roots
  {
    hide Collect, WasDriver, Uids;
    if key in w.state.objects {
      GoesWithItsOwner(w.state.objects, roots, key);
    } else {
      SurvivorsAreGreatest(w.state.objects, roots, {});
    }
  }

  // ---- What survives ----

  ghost predicate UnownedAt(s: State, key: Key) {
    key in s.objects && s.objects[key].owners == []
  }

  lemma EventKeepsUnowned(w: World, n: nat, key: Key, i: nat)
    requires WellFormed(w) && (!OwnedKind(key.kind) || key.kind == SnapshotClass) && |w.log| <= i < |Run(w, n).log|
    requires var e := Run(w, n).log[i]; !e.byOperator ==> KeepsKey(key, e) && SparesOwners(key, e)
    ensures var e := Run(w, n).log[i]; UnownedAt(e.before, key) ==> UnownedAt(e.after, key)
  {
    hide WellFormed, PlannedBy, Run, FromScript, Path, Extends, ControlledBy, WasDriver;
    RunReaches(w, n);
    var e := Run(w, n).log[i];
    assert e == Trace(w, Run(w, n))[i - |w.log|];
    if e.byOperator {
      RunPlannedByOne(w, n, i);
      var cr :| WasDriver(Run(w, n), cr) && PlannedBy(cr, e);
      if e.target.OnObject? {
        PlannedKeepsOwnership(cr, e);
      }
    }
  }

  // The namespace, the storage profiles and a snapshot class that existed beforehand are
  // never given an owner, in any run, so deleting the custom resource leaves them, unless
  // others remove them or give them an owner.
  lemma SurvivesUninstall(w: World, n: nat, key: Key, roots: set<nat>)
    requires WellFormed(w) && (!OwnedKind(key.kind) || key.kind == SnapshotClass) && UnownedAt(w.state, key)
    requires forall j | |w.log| <= j < |Run(w, n).log| && !Run(w, n).log[j].byOperator ::
               KeepsKey(key, Run(w, n).log[j]) && SparesOwners(key, Run(w, n).log[j])
    ensures key in Collect(Run(w, n).state.objects, roots)
  {
    hide WellFormed, Run, Path, Extends, Allowed, UnownedAt, Collect, KeepsKey, SparesOwners;
    var last := Run(w, n);
    RunReaches(w, n);
    var events := Trace(w, last);
    forall j | 0 <= j < |events|
      ensures UnownedAt(events[j].before, key) ==> UnownedAt(events[j].after, key)
    {
      assert events[j] == last.log[|w.log| + j];
      EventKeepsUnowned(w, n, key, |w.log| + j);
    }
    PathInvariant(w.state, events, last.state, (s: State) => UnownedAt(s, key));
    UnownedMeans(last.state, key, roots);
  }

  lemma UnownedMeans(s: State, key: Key, roots: set<nat>)
    requires UnownedAt(s, key)
    ensures key in Collect(s.objects, roots)
  {
    hide Collect;
    UnownedSurvives(s.objects, roots, key);
  }
}
