/** Duplicate class names: which entry of the class lists decides. */
module ClassNames {
  import opened Base
  import opened DriverTypes
  import opened MergePatch
  import opened Cluster
  import opened Tasks
  import opened Plan
  import opened Outcome
  import opened PlanShape

  // ---- StorageClasses: the first entry ----

  function FirstDiskEntry(disk: DiskSpec, i: nat, name: string): Option<Payload>
    requires i <= |disk.classes|
    decreases |disk.classes| - i
  {
    if i == |disk.classes| then None
    else if disk.classes[i].name == name then Some(DiskClassPayload(disk.classes[i], disk.defaultStorageClass && i == 0))
    else FirstDiskEntry(disk, i + 1, name)
  }

  function FirstNasEntry(nas: NasSpec, i: nat, name: string): Option<Payload>
    requires i <= |nas.classes|
    decreases |nas.classes| - i
  {
    if i == |nas.classes| then None
    else if nas.classes[i].name == name then Some(NasClassPayload(nas.classes[i]))
    else FirstNasEntry(nas, i + 1, name)
  }

  // The enabled disk list first, then the enabled NAS list.
  function FirstEntry(spec: Spec, name: string): Option<Payload> {
    var disk := if spec.disk.enabled then FirstDiskEntry(spec.disk, 0, name) else None;
    if disk.Some? then disk else if spec.nas.enabled then FirstNasEntry(spec.nas, 0, name) else None
  }

  lemma {:induction false} FirstAdoptedConcat(a: seq<Task>, b: seq<Task>, apis: Apis, key: Key)
    ensures FirstAdopted(a + b, apis, key) ==
            if FirstAdopted(a, apis, key).Some? then FirstAdopted(a, apis, key) else FirstAdopted(b, apis, key)
    decreases |a|
  {
    if a == [] {
      assert a + b == b;
    } else {
      assert (a + b)[1..] == a[1..] + b;
      FirstAdoptedConcat(a[1..], b, apis, key);
    }
  }

  lemma {:induction false} NoneAdopts(tasks: seq<Task>, apis: Apis, key: Key)
    requires forall i | 0 <= i < |tasks| :: AdoptsAt(tasks[i], apis, key).None?
    ensures FirstAdopted(tasks, apis, key) == None
    decreases |tasks|
  {
    if tasks != [] {
      NoneAdopts(tasks[1..], apis, key);
    }
  }

  lemma ProfilesAdoptNothing(name: string, cfg: ProfileConfig, claimSets: Json, snapClass: string, apis: Apis, key: Key)
    ensures FirstAdopted(ProfileTasks(name, cfg, claimSets, snapClass), apis, key) == None
  {
    hide ProfilePatch;
    NoneAdopts(ProfileTasks(name, cfg, claimSets, snapClass), apis, key);
  }

  lemma OneAdopts(t: Task, apis: Apis, key: Key)
    ensures FirstAdopted([t], apis, key) == AdoptsAt(t, apis, key)
  {
    assert [t][1..] == [];
  }

  lemma {:induction false} DiskEntriesDecide(disk: DiskSpec, i: nat, apis: Apis, name: string)
    requires i <= |disk.classes|
    ensures FirstAdopted(DiskClassesFrom(disk, i), apis, Key(StorageClass, name)) == FirstDiskEntry(disk, i, name)
    decreases |disk.classes| - i
  {
    hide FirstAdopted, ProfileTasks, DiskClassPayload, DiskClaimSets;
    var key := Key(StorageClass, name);
    if i < |disk.classes| {
      var c := disk.classes[i];
      var head := Adopt(Key(StorageClass, c.name), DiskClassPayload(c, disk.defaultStorageClass && i == 0));
      var tail := ProfileTasks(c.name, disk.profile, DiskClaimSets(c.volumeMode), LinkedSnapshotClass(disk.snapshot));
      FirstAdoptedConcat([head] + tail, DiskClassesFrom(disk, i + 1), apis, key);
      FirstAdoptedConcat([head], tail, apis, key);
      OneAdopts(head, apis, key);
      ProfilesAdoptNothing(c.name, disk.profile, DiskClaimSets(c.volumeMode), LinkedSnapshotClass(disk.snapshot),
          apis, key);
      DiskEntriesDecide(disk, i + 1, apis, name);
    } else {
      NoneAdopts([], apis, key);
    }
  }

  lemma {:induction false} NasEntriesDecide(nas: NasSpec, i: nat, apis: Apis, name: string)
    requires i <= |nas.classes|
    ensures FirstAdopted(NasClassesFrom(nas, i), apis, Key(StorageClass, name)) == FirstNasEntry(nas, i, name)
    decreases |nas.classes| - i
  {
    hide FirstAdopted, ProfileTasks, NasClassPayload, NasClaimSets;
    var key := Key(StorageClass, name);
    if i < |nas.classes| {
      var c := nas.classes[i];
      var head := Adopt(Key(StorageClass, c.name), NasClassPayload(c));
      var tail := ProfileTasks(c.name, nas.profile, NasClaimSets(), "");
      FirstAdoptedConcat([head] + tail, NasClassesFrom(nas, i + 1), apis, key);
      FirstAdoptedConcat([head], tail, apis, key);
      OneAdopts(head, apis, key);
      ProfilesAdoptNothing(c.name, nas.profile, NasClaimSets(), "", apis, key);
      NasEntriesDecide(nas, i + 1, apis, name);
    } else {
      NoneAdopts([], apis, key);
    }
  }

  lemma WorkloadsAdoptNoClass(spec: Spec, apis: Apis, key: Key)
    requires key.kind == StorageClass
    ensures FirstAdopted(RBAC_TASKS, apis, key) == None
    ensures FirstAdopted(DiskWorkloadTasks(spec) + SnapshotTasks(spec.disk.snapshot), apis, key) == None
    ensures FirstAdopted(NasWorkloadTasks(spec), apis, key) == None
  {
    hide ControllerPayload, NodePayload, FirstAdopted;
    NoneAdopts(RBAC_TASKS, apis, key);
    NoneAdopts(DiskWorkloadTasks(spec) + SnapshotTasks(spec.disk.snapshot), apis, key);
    NoneAdopts(NasWorkloadTasks(spec), apis, key);
  }

  // A StorageClass that is absent is built from the first entry with its name.
  lemma FirstEntryWins(spec: Spec, apis: Apis, name: string)
    ensures FirstAdopted(FullPlan(spec), apis, Key(StorageClass, name)) == FirstEntry(spec, name)
  {
    hide FirstAdopted, DiskWorkloadTasks, SnapshotTasks, NasWorkloadTasks, DiskClassesFrom, NasClassesFrom;
    var key := Key(StorageClass, name);
    var disk := if spec.disk.enabled then DiskTasks(spec) else [];
    var nas := if spec.nas.enabled then NasTasks(spec) else [];
    NoneAdopts([], apis, key);
    WorkloadsAdoptNoClass(spec, apis, key);
    FirstAdoptedConcat(RBAC_TASKS, disk + nas, apis, key);
    FirstAdoptedConcat(disk, nas, apis, key);
    FirstAdoptedConcat(DiskWorkloadTasks(spec) + SnapshotTasks(spec.disk.snapshot), DiskClassesFrom(spec.disk, 0),
        apis, key);
    FirstAdoptedConcat(NasWorkloadTasks(spec), NasClassesFrom(spec.nas, 0), apis, key);
    DiskEntriesDecide(spec.disk, 0, apis, name);
    NasEntriesDecide(spec.nas, 0, apis, name);
  }

  // ---- StorageProfiles: the last entry ----

  function LastDiskMode(disk: DiskSpec, i: nat, name: string): Option<string>
    requires i <= |disk.classes|
    decreases |disk.classes| - i
  {
    if i == |disk.classes| then None
    else
      var later := LastDiskMode(disk, i + 1, name);
      if later.Some? then later else if disk.classes[i].name == name then Some(disk.classes[i].volumeMode) else None
  }

  predicate NasNames(nas: NasSpec, i: nat, name: string)
    requires i <= |nas.classes|
  {
    exists j | i <= j < |nas.classes| :: nas.classes[j].name == name
  }

  // The claim property sets of the last patching entry of a name, the NAS list being last.
  function LastClaimSets(spec: Spec, name: string): Option<Json> {
    if spec.nas.enabled && spec.nas.profile.patch && NasNames(spec.nas, 0, name) then Some(NasClaimSets())
    else if spec.disk.enabled && spec.disk.profile.patch && LastDiskMode(spec.disk, 0, name).Some? then
      Some(DiskClaimSets(LastDiskMode(spec.disk, 0, name).value))
    else None
  }

  function ClaimSetsIn(f: map<string, Json>): Option<Json> {
    if "claimPropertySets" in f then Some(f["claimPropertySets"]) else None
  }

  function PatchOf(t: Task, key: Key): map<string, Json> {
    if PatchesAt(t, key) then SpecOf(t.patch) else map[]
  }

  lemma PatchesStep(tasks: seq<Task>, key: Key)
    requires tasks != []
    ensures AllPatches(tasks, key) == PatchOf(tasks[0], key) + AllPatches(tasks[1..], key)
  {
    hide SpecOf;
  }

  lemma Regroup(f: map<string, Json>, g: map<string, Json>, h: map<string, Json>)
    ensures f + (g + h) == f + g + h
    ensures map[] + f == f
  {
  }

  lemma {:induction false} AllPatchesConcat(a: seq<Task>, b: seq<Task>, key: Key)
    ensures AllPatches(a + b, key) == AllPatches(a, key) + AllPatches(b, key)
    decreases |a|
  {
    hide PatchOf, PatchesAt, SpecOf;
    if a == [] {
      assert a + b == b;
      Regroup(AllPatches(b, key), map[], map[]);
    } else {
      hide AllPatches;
      assert (a + b)[1..] == a[1..] + b;
      PatchesStep(a + b, key);
      PatchesStep(a, key);
      AllPatchesConcat(a[1..], b, key);
      Regroup(PatchOf(a[0], key), AllPatches(a[1..], key), AllPatches(b, key));
    }
  }

  lemma ClassPatches(c: string, t: Task, cfg: ProfileConfig, claimSets: Json, snapClass: string, name: string)
    requires t.Adopt? && claimSets.Arr?
    ensures ClaimSetsIn(AllPatches([t] + ProfileTasks(c, cfg, claimSets, snapClass), Key(StorageProfile, name))) ==
            if cfg.patch && c == name then Some(claimSets) else None
  {
    hide ProfilePatch, SpecOf, AllPatches, ProfileSpec;
    var key := Key(StorageProfile, name);
    var patches := ProfileTasks(c, cfg, claimSets, snapClass);
    AllPatchesConcat([t], patches, key);
    OnePatch(t, key);
    assert map[] + AllPatches(patches, key) == AllPatches(patches, key);
    if cfg.patch {
      ProfileIsFlat(cfg, claimSets, snapClass);
      OnePatch(patches[0], key);
      ClaimSetsOf(cfg, claimSets, snapClass);
    } else {
      NoPatches(patches, key);
    }
  }

  lemma ClaimSetsOf(cfg: ProfileConfig, claimSets: Json, snapClass: string)
    ensures ClaimSetsIn(ProfileSpec(cfg, claimSets, snapClass)) == Some(claimSets)
  {
  }

  lemma OnePatch(t: Task, key: Key)
    ensures AllPatches([t], key) == if PatchesAt(t, key) then SpecOf(t.patch) else map[]
  {
    hide SpecOf;
    assert [t][1..] == [];
    var f := if PatchesAt(t, key) then SpecOf(t.patch) else map[];
    assert f + map[] == f;
  }

  lemma {:induction false} DiskPatchesDecide(disk: DiskSpec, i: nat, name: string)
    requires i <= |disk.classes|
    ensures ClaimSetsIn(AllPatches(DiskClassesFrom(disk, i), Key(StorageProfile, name))) ==
            if disk.profile.patch
              && LastDiskMode(disk, i, name).Some? then Some(DiskClaimSets(LastDiskMode(disk, i, name).value)) else None
    decreases |disk.classes| - i
  {
    hide AllPatches, DiskClassPayload, ProfileTasks, DiskClaimSets;
    var key := Key(StorageProfile, name);
    if i < |disk.classes| {
      var c := disk.classes[i];
      AllPatchesConcat(DiskClassTasks(disk, i), DiskClassesFrom(disk, i + 1), key);
      DiskPatchesDecide(disk, i + 1, name);
      ArrClaims(c.volumeMode);
      ClassPatches(c.name, Adopt(Key(StorageClass, c.name), DiskClassPayload(c, disk.defaultStorageClass && i == 0)),
                   disk.profile, DiskClaimSets(c.volumeMode), LinkedSnapshotClass(disk.snapshot), name);
    } else {
      NoPatches([], key);
    }
  }

  lemma ArrClaims(volumeMode: string)
    ensures DiskClaimSets(volumeMode).Arr? && NasClaimSets().Arr?
  {
  }

  lemma {:induction false} NasPatchesDecide(nas: NasSpec, i: nat, name: string)
    requires i <= |nas.classes|
    ensures ClaimSetsIn(AllPatches(NasClassesFrom(nas, i), Key(StorageProfile, name))) ==
            if nas.profile.patch && NasNames(nas, i, name) then Some(NasClaimSets()) else None
    decreases |nas.classes| - i
  {
    hide AllPatches, NasClassPayload, ProfileTasks, NasClaimSets;
    var key := Key(StorageProfile, name);
    if i < |nas.classes| {
      var c := nas.classes[i];
      AllPatchesConcat(NasClassTasks(nas, i), NasClassesFrom(nas, i + 1), key);
      NasPatchesDecide(nas, i + 1, name);
      ArrClaims("");
      ClassPatches(c.name, Adopt(Key(StorageClass, c.name), NasClassPayload(c)), nas.profile, NasClaimSets(), "", name);
    } else {
      NoPatches([], key);
    }
  }

  lemma WorkloadsPatchNothing(spec: Spec, key: Key)
    ensures AllPatches(RBAC_TASKS, key) == map[]
    ensures AllPatches(DiskWorkloadTasks(spec) + SnapshotTasks(spec.disk.snapshot), key) == map[]
    ensures AllPatches(NasWorkloadTasks(spec), key) == map[]
  {
    hide ControllerPayload, NodePayload, AllPatches;
    NoPatches(RBAC_TASKS, key);
    NoPatches(DiskWorkloadTasks(spec) + SnapshotTasks(spec.disk.snapshot), key);
    NoPatches(NasWorkloadTasks(spec), key);
  }

  // A patched StorageProfile takes its claim property sets from the last such entry.
  lemma LastEntryPatches(spec: Spec, name: string)
    ensures ClaimSetsIn(AllPatches(FullPlan(spec), Key(StorageProfile, name))) == LastClaimSets(spec, name)
  {
    hide AllPatches, DiskWorkloadTasks, SnapshotTasks, NasWorkloadTasks, DiskClassesFrom, NasClassesFrom,
        LastDiskMode, NasNames, DiskClaimSets, NasClaimSets;
    var key := Key(StorageProfile, name);
    var disk := if spec.disk.enabled then DiskTasks(spec) else [];
    var nas := if spec.nas.enabled then NasTasks(spec) else [];
    NoPatches([], key);
    WorkloadsPatchNothing(spec, key);
    AllPatchesConcat(RBAC_TASKS, disk + nas, key);
    AllPatchesConcat(disk, nas, key);
    AllPatchesConcat(DiskWorkloadTasks(spec) + SnapshotTasks(spec.disk.snapshot), DiskClassesFrom(spec.disk, 0), key);
    AllPatchesConcat(NasWorkloadTasks(spec), NasClassesFrom(spec.nas, 0), key);
    DiskPatchesDecide(spec.disk, 0, name);
    NasPatchesDecide(spec.nas, 0, name);
  }
}
