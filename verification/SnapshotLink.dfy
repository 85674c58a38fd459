/** When a StorageProfile ends up linking a snapshot class that does not exist. */
module SnapshotLink {
  import opened Base
  import opened DriverTypes
  import opened MergePatch
  import opened Cluster
  import opened History
  import opened Tasks
  import opened Plan
  import opened CalmRuns
  import opened Outcome
  import opened PlanShape
  import opened PassSafety
  import opened Delivery

  // The patches of a profile link v, if one of them links anything.
  lemma {:induction false} AllPatchesLink(tasks: seq<Task>, key: Key, v: Json)
    requires forall t | t in tasks && PatchesAt(t, key) && "snapshotClass" in SpecOf(t.patch) ::
               SpecOf(t.patch)["snapshotClass"] == v
    ensures var f := AllPatches(tasks, key); "snapshotClass" in f ==> f["snapshotClass"] == v
    ensures "snapshotClass" in AllPatches(tasks, key) <==>
            exists t :: t in tasks && PatchesAt(t, key) && "snapshotClass" in SpecOf(t.patch)
    decreases |tasks|
  {
    hide SpecOf;
    if tasks != [] {
      var rest := tasks[1..];
      assert forall t | t in tasks :: t == tasks[0] || t in rest;
      AllPatchesLink(rest, key, v);
    }
  }

  lemma {:induction false} NeverIgnored(tasks: seq<Task>, key: Key)
    requires forall t | t in tasks :: !t.Ignore?
    ensures FirstIgnored(tasks, key) == None
  {
    if tasks != [] {
      NeverIgnored(tasks[1..], key);
    }
  }

  lemma {:induction false} SomeIgnored(tasks: seq<Task>, key: Key, i: nat)
    requires i < |tasks| && tasks[i].Ignore? && tasks[i].key == key
    ensures FirstIgnored(tasks, key).Some?
  {
    if i > 0 {
      SomeIgnored(tasks[1..], key, i - 1);
    }
  }

  // A plan creates the snapshot class its profiles link exactly when snapshots are
  // enabled, and then no other.
  lemma PlannedClass(spec: Spec, name: string)
    requires spec.disk.enabled
    ensures spec.disk.snapshot.enabled ==>
              FirstIgnored(FullPlan(spec), Key(SnapshotClass, LinkedSnapshotClass(spec.disk.snapshot))).Some?
    ensures !spec.disk.snapshot.enabled ==> FirstIgnored(FullPlan(spec), Key(SnapshotClass, name)) == None
  {
    hide FullPlan, FirstIgnored, LinkedSnapshotClass;
    if spec.disk.snapshot.enabled {
      PlanIsLong(spec);
      SnapshotTaskPlace(spec, 0);
      SomeIgnored(FullPlan(spec), Key(SnapshotClass, LinkedSnapshotClass(spec.disk.snapshot)), 7);
    } else {
      forall t | t in FullPlan(spec)
        ensures !t.Ignore?
      {
        NotIgnored(spec, t);
      }
      NeverIgnored(FullPlan(spec), Key(SnapshotClass, name));
    }
  }

  lemma PlanIsLong(spec: Spec)
    ensures |FullPlan(spec)| > 0
  {
    hide DriverTasks;
  }

  lemma NotIgnored(spec: Spec, t: Task)
    requires t in FullPlan(spec) && !spec.disk.snapshot.enabled
    ensures !t.Ignore?
  {
    hide FullPlan, ControllerPayload, NodePayload, DiskClassPayload, NasClassPayload, ProfilePatch, DiskClaimSets,
        NasClaimSets;
    PlanDescribed(spec, t);
  }

  // The profile of a disk class is patched, with a link exactly when there is a name.
  lemma ProfileIsPatched(spec: Spec, i: nat)
    requires spec.disk.enabled && spec.disk.profile.patch && i < |spec.disk.classes|
    ensures var key := Key(StorageProfile, spec.disk.classes[i].name);
            var f := AllPatches(FullPlan(spec), key);
            var linked := LinkedSnapshotClass(spec.disk.snapshot);
            && Patches(FullPlan(spec), key)
            && ("snapshotClass" in f <==> linked != "")
            && ("snapshotClass" in f ==> f["snapshotClass"] == Str(linked))
  {
    hide FullPlan, AllPatches, SpecOf, LinkedSnapshotClass, Flat, SpecPatch;
    var plan := FullPlan(spec);
    var key := Key(StorageProfile, spec.disk.classes[i].name);
    var linked := LinkedSnapshotClass(spec.disk.snapshot);
    var own := ClassPatch(spec, i);
    forall t | t in plan && PatchesAt(t, key) && "snapshotClass" in SpecOf(t.patch)
      ensures SpecOf(t.patch)["snapshotClass"] == Str(linked) && linked != ""
    {
      PatchOrigin(spec, t);
    }
    AllPatchesLink(plan, key, Str(linked));
    var j :| 0 <= j < |plan| && plan[j] == own;
    assert PatchesAt(plan[j], key);
  }

  lemma ClassPatch(spec: Spec, i: nat) returns (t: Task)
    requires spec.disk.enabled && spec.disk.profile.patch && i < |spec.disk.classes|
    ensures t in FullPlan(spec) && PatchesAt(t, Key(StorageProfile, spec.disk.classes[i].name))
    ensures "snapshotClass" in SpecOf(t.patch) <==> LinkedSnapshotClass(spec.disk.snapshot) != ""
  {
    hide ProfilePatch, DiskClassPayload, DiskClaimSets, LinkedSnapshotClass, SpecOf, DiskClassesFrom;
    var tasks := DiskClassTasks(spec.disk, i);
    t := tasks[1];
    assert t in tasks;
    DiskPatch(spec, i, t);
    ClassIsPlanned(spec, 0, i, t);
    assert t in DiskTasks(spec);
  }

  lemma {:induction false} ClassIsPlanned(spec: Spec, from: nat, i: nat, t: Task)
    requires from <= i < |spec.disk.classes| && t in DiskClassTasks(spec.disk, i)
    ensures t in DiskClassesFrom(spec.disk, from)
    decreases i - from
  {
    hide DiskClassTasks;
    if from < i {
      ClassIsPlanned(spec, from + 1, i, t);
    }
  }

  // The profile links a snapshot class that is missing.
  ghost predicate Dangles(s: State, key: Key) {
    && key in s.objects
    && var f := ProfileSpecAt(s, key);
       "snapshotClass" in f && exists name :: f["snapshotClass"] == Str(name) && Key(SnapshotClass, name) !in s.objects
  }

  // An undisturbed pass over a profile without a link leaves it linking a missing class
  // exactly when there is a name to link, no class of that name beforehand, and snapshots
  // are disabled or their API is not served: a disabled class is linked and created by
  // nothing, an unserved one is skipped silently and linked all the same.
  lemma DanglingLink(w: World, cr: Driver, i: nat)
    requires w.alive && w.state.driver == Some(cr) && Friendly(cr, FullPlan(cr.spec), w.state)
    requires Undisturbed(w, Pass(w).1) && w.state.apis.cdi
    requires cr.spec.disk.enabled && cr.spec.disk.profile.patch && i < |cr.spec.disk.classes|
    requires var key := Key(StorageProfile, cr.spec.disk.classes[i].name);
             key in w.state.objects && "snapshotClass" !in ProfileSpecAt(w.state, key)
    ensures var snapshot := cr.spec.disk.snapshot;
            var linked := LinkedSnapshotClass(snapshot);
            Dangles(Pass(w).1.state, Key(StorageProfile, cr.spec.disk.classes[i].name)) <==>
            && linked != "" && Key(SnapshotClass, linked) !in w.state.objects
            && (!snapshot.enabled || !w.state.apis.snapshots)
  {
    hide Pass, FullPlan, Friendly, Undisturbed, AllPatches, Patches, FirstIgnored, Conditions, SpecOf,
        FirstAdopted, LastReplaced;
    var spec := cr.spec;
    var key := Key(StorageProfile, spec.disk.classes[i].name);
    var linked := LinkedSnapshotClass(spec.disk.snapshot);
    var linkedKey := Key(SnapshotClass, linked);
    var s := Pass(w).1.state;
    UndisturbedPass(w, cr);
    ProfileIsPatched(spec, i);
    PlannedClass(spec, linked);
    var f := AllPatches(FullPlan(spec), key);
    assert At(s, key) == Expected(cr, w.state.apis, key, At(w.state, key));
    assert At(s, linkedKey) == Expected(cr, w.state.apis, linkedKey, At(w.state, linkedKey));
    OverlaySpec(DocumentOf(w.state.objects[key].payload), f);
    assert ProfileSpecAt(s, key) == ProfileSpecAt(w.state, key) + f;
    assert linkedKey in s.objects <==>
           (spec.disk.snapshot.enabled && w.state.apis.snapshots) || linkedKey in w.state.objects;
  }
}
