/** Which tasks a plan may contain. */
module PlanShape {
  import opened DriverTypes
  import opened MergePatch
  import opened Tasks
  import opened Plan
  import opened CalmRuns
  import opened Outcome

  predicate DiskEntry(spec: Spec, i: int, t: Task) {
    spec.disk.enabled && 0 <= i < |spec.disk.classes| && t in DiskClassTasks(spec.disk, i)
  }

  predicate NasEntry(spec: Spec, i: int, t: Task) {
    spec.nas.enabled && 0 <= i < |spec.nas.classes| && t in NasClassTasks(spec.nas, i)
  }

  // The six places a task of the plan can come from.
  ghost predicate Described(spec: Spec, t: Task) {
    || t in RBAC_TASKS
    || (spec.disk.enabled && t in DiskWorkloadTasks(spec))
    || (spec.disk.enabled && t in SnapshotTasks(spec.disk.snapshot))
    || (exists i :: DiskEntry(spec, i, t))
    || (spec.nas.enabled && t in NasWorkloadTasks(spec))
    || (exists i :: NasEntry(spec, i, t))
  }

  lemma {:induction false} DiskEntries(spec: Spec, from: nat, t: Task)
    requires spec.disk.enabled && from <= |spec.disk.classes| && t in DiskClassesFrom(spec.disk, from)
    ensures exists i | from <= i :: DiskEntry(spec, i, t)
    decreases |spec.disk.classes| - from
  {
    hide DiskClassTasks;
    if t in DiskClassTasks(spec.disk, from) {
      assert DiskEntry(spec, from, t);
    } else {
      DiskEntries(spec, from + 1, t);
    }
  }

  lemma {:induction false} NasEntries(spec: Spec, from: nat, t: Task)
    requires spec.nas.enabled && from <= |spec.nas.classes| && t in NasClassesFrom(spec.nas, from)
    ensures exists i | from <= i :: NasEntry(spec, i, t)
    decreases |spec.nas.classes| - from
  {
    hide NasClassTasks;
    if t in NasClassTasks(spec.nas, from) {
      assert NasEntry(spec, from, t);
    } else {
      NasEntries(spec, from + 1, t);
    }
  }

  lemma PlanDescribed(spec: Spec, t: Task)
    requires t in FullPlan(spec)
    ensures Described(spec, t)
  {
    hide DiskEntry, NasEntry, DiskClassesFrom, NasClassesFrom, DiskWorkloadTasks, NasWorkloadTasks, SnapshotTasks;
    if spec.disk.enabled && t in DiskClassesFrom(spec.disk, 0) {
      DiskEntries(spec, 0, t);
    }
    if spec.nas.enabled && t in NasClassesFrom(spec.nas, 0) {
      NasEntries(spec, 0, t);
    }
  }

  lemma ProfileIsFlat(cfg: ProfileConfig, claimSets: Json, snapClass: string)
    requires claimSets.Arr?
    ensures Flat(ProfileSpec(cfg, claimSets, snapClass))
    ensures SpecOf(ProfilePatch(cfg, claimSets, snapClass)) == ProfileSpec(cfg, claimSets, snapClass)
    ensures ProfilePatch(cfg, claimSets, snapClass) == SpecPatch(ProfileSpec(cfg, claimSets, snapClass))
  {
  }

  // The same field, with the same value or absent, in both.
  predicate SameField(was: map<string, Json>, now: map<string, Json>, k: string) {
    (k in now <==> k in was) && (k in was ==> now[k] == was[k])
  }

  // What the patch does to any profile: claim property sets and clone strategy become the
  // desired ones, the snapshot class only if there is one to link, nothing else changes.
  lemma ProfilePatchMeans(doc: Json, cfg: ProfileConfig, claimSets: Json, snapClass: string)
    requires claimSets.Arr?
    ensures var next := Merge(doc, ProfilePatch(cfg, claimSets, snapClass));
            var was, now := SpecOf(doc), SpecOf(next);
            && "claimPropertySets" in now && now["claimPropertySets"] == claimSets
            && "cloneStrategy" in now
            && now["cloneStrategy"] == Str(if cfg.cloneStrategy == "" then "csi-clone" else cfg.cloneStrategy)
            && (snapClass != "" ==> "snapshotClass" in now && now["snapshotClass"] == Str(snapClass))
            && (snapClass == "" ==> SameField(was, now, "snapshotClass"))
            && (forall k | k !in {"claimPropertySets", "cloneStrategy", "snapshotClass"} :: SameField(was, now, k))
            && (forall k | k != "spec" :: SameField(Fields(doc), Fields(next), k))
  {
    hide Merge, ProfilePatch, Flat;
    var f := ProfileSpec(cfg, claimSets, snapClass);
    ProfileIsFlat(cfg, claimSets, snapClass);
    MergeIsOverlay(doc, f);
    assert SpecOf(Overlay(doc, f)) == SpecOf(doc) + f;
  }

  ghost predicate FlatPatch(t: Task) {
    t.PatchIfPresent? ==> Flat(SpecOf(t.patch)) && t.patch == SpecPatch(SpecOf(t.patch))
  }

  lemma DescribedTask(spec: Spec, t: Task)
    requires Described(spec, t)
    ensures Typed(t) && FlatPatch(t)
  {
    hide Typed, FlatPatch, DiskWorkloadTasks, NasWorkloadTasks, SnapshotTasks, DiskClassTasks, NasClassTasks;
    if i :| DiskEntry(spec, i, t) {
      DiskTask(spec, i, t);
    } else if i :| NasEntry(spec, i, t) {
      NasTask(spec, i, t);
    } else {
      FixedTask(spec, t);
    }
  }

  lemma FixedTask(spec: Spec, t: Task)
    requires t in RBAC_TASKS || t in DiskWorkloadTasks(spec) || t in SnapshotTasks(spec.disk.snapshot)
        || t in NasWorkloadTasks(spec)
    ensures Typed(t) && FlatPatch(t)
  {
    hide Flat, SpecOf, ControllerPayload, NodePayload;
  }

  lemma DiskTask(spec: Spec, i: nat, t: Task)
    requires DiskEntry(spec, i, t)
    ensures Typed(t) && FlatPatch(t)
  {
    hide Flat, SpecOf, ProfileSpec, DiskClassPayload, ProfilePatch;
    var c := spec.disk.classes[i];
    ProfileIsFlat(spec.disk.profile, DiskClaimSets(c.volumeMode), LinkedSnapshotClass(spec.disk.snapshot));
  }

  lemma NasTask(spec: Spec, i: nat, t: Task)
    requires NasEntry(spec, i, t)
    ensures Typed(t) && FlatPatch(t)
  {
    hide Flat, SpecOf, ProfileSpec, NasClassPayload, ProfilePatch;
    ProfileIsFlat(spec.nas.profile, NasClaimSets(), "");
  }

  lemma PlanTyped(spec: Spec)
    ensures AllTyped(FullPlan(spec))
    ensures FlatPatches(FullPlan(spec))
  {
    hide FullPlan, Typed, Flat, Described, SpecOf, SpecPatch;
    var tasks := FullPlan(spec);
    forall i | 0 <= i < |tasks|
      ensures Typed(tasks[i]) && FlatPatch(tasks[i])
    {
      PlanDescribed(spec, tasks[i]);
      DescribedTask(spec, tasks[i]);
    }
  }
}
