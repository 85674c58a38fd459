/** How task lists compose. */
module PlanFacts {
  import opened Base
  import opened DriverTypes
  import opened DriverEnv
  import opened Cluster
  import opened History
  import opened Tasks
  import opened Plan

  // Running two lists in a row is running their concatenation.
  lemma {:induction false} RunConcat(w: World, cr: Driver, a: seq<Task>, b: seq<Task>)
    ensures RunAll(w, cr, a + b) == var r := RunAll(w, cr, a); if r.0.Some? then r else RunAll(r.1, cr, b)
    decreases |a|
  {
    hide RunTask;
    if a == [] {
      assert a + b == b;
    } else {
      assert (a + b)[1..] == a[1..] + b;
      RunConcat(RunTask(w, cr, a[0]).1, cr, a[1..], b);
    }
  }

  lemma RunNil(w: World, cr: Driver)
    ensures RunAll(w, cr, []) == (None, w)
  {
  }

  lemma RunOne(w: World, cr: Driver, t: Task)
    ensures RunAll(w, cr, [t]) == RunTask(w, cr, t)
  {
    hide RunTask;
    var r := RunTask(w, cr, t);
    assert [t][1..] == [];
    assert RunAll(r.1, cr, []) == (None, r.1);
  }

  lemma UnrollThree(w: World, cr: Driver, ts: seq<Task>)
    requires |ts| == 3
    ensures RunAll(w, cr, ts) ==
            var r0 := RunTask(w, cr, ts[0]);
            if r0.0.Some? then r0
            else
              var r1 := RunTask(r0.1, cr, ts[1]);
              if r1.0.Some? then r1 else RunTask(r1.1, cr, ts[2])
  {
    hide RunTask;
    var r0 := RunTask(w, cr, ts[0]);
    var r1 := RunTask(r0.1, cr, ts[1]);
    assert ts[1..][1..] == [ts[2]];
    RunOne(r1.1, cr, ts[2]);
  }

  lemma UnrollRbac(w: World, cr: Driver)
    ensures RunAll(w, cr, RBAC_TASKS) ==
            var r := RunAll(w, cr, RBAC_TASKS[..3]);
            if r.0.Some? then r else GrantAdmission(r.1, cr)
    ensures RunAll(w, cr, RBAC_TASKS[..3]) ==
            var r0 := CreateOrAdopt(w, cr, ACCOUNT_KEY, AccountPayload);
            if r0.0.Some? then r0
            else
              var r1 := CreateOrAdopt(r0.1, cr, ROLE_KEY, RolePayload);
              if r1.0.Some? then r1 else CreateOrAdopt(r1.1, cr, BINDING_KEY, BindingPayload("alibaba-cloud-csi-role"))
  {
    hide CreateOrAdopt, GrantAdmission;
    assert RBAC_TASKS == RBAC_TASKS[..3] + [Admit];
    RunConcat(w, cr, RBAC_TASKS[..3], [Admit]);
    RunOne(RunAll(w, cr, RBAC_TASKS[..3]).1, cr, Admit);
    UnrollThree(w, cr, RBAC_TASKS[..3]);
  }

  lemma SplitDisk(w: World, cr: Driver)
    ensures RunAll(w, cr, DiskTasks(cr.spec)) ==
            var r0 := RunAll(w, cr, DiskWorkloadTasks(cr.spec));
            if r0.0.Some? then r0
            else
              var r1 := RunAll(r0.1, cr, SnapshotTasks(cr.spec.disk.snapshot));
              if r1.0.Some? then r1 else RunAll(r1.1, cr, DiskClassesFrom(cr.spec.disk, 0))
  {
    hide RunAll, DiskWorkloadTasks, SnapshotTasks, DiskClassesFrom;
    var a, b, c := DiskWorkloadTasks(cr.spec), SnapshotTasks(cr.spec.disk.snapshot), DiskClassesFrom(cr.spec.disk, 0);
    RunConcat(w, cr, a + b, c);
    RunConcat(w, cr, a, b);
  }

  lemma SplitDiskClass(w: World, cr: Driver, i: nat)
    requires i < |cr.spec.disk.classes|
    ensures RunAll(w, cr, DiskClassesFrom(cr.spec.disk, i)) ==
            var disk := cr.spec.disk;
            var c := disk.classes[i];
            var r0 := CreateOrAdopt(w, cr, Key(StorageClass, c.name),
              DiskClassPayload(c, disk.defaultStorageClass && i == 0));
            if r0.0.Some? then r0
            else
              var r1 := RunAll(r0.1, cr,
                ProfileTasks(c.name, disk.profile, DiskClaimSets(c.volumeMode), LinkedSnapshotClass(disk.snapshot)));
              if r1.0.Some? then r1 else RunAll(r1.1, cr, DiskClassesFrom(disk, i + 1))
  {
    hide CreateOrAdopt, ProfileTasks, DiskClassPayload, DiskClaimSets, RunAll;
    var disk := cr.spec.disk;
    var c := disk.classes[i];
    var head := Adopt(Key(StorageClass, c.name), DiskClassPayload(c, disk.defaultStorageClass && i == 0));
    var tail := ProfileTasks(c.name, disk.profile, DiskClaimSets(c.volumeMode), LinkedSnapshotClass(disk.snapshot));
    RunConcat(w, cr, [head] + tail, DiskClassesFrom(disk, i + 1));
    RunConcat(w, cr, [head], tail);
    RunOne(w, cr, head);
  }

  lemma SplitNas(w: World, cr: Driver)
    ensures RunAll(w, cr, NasTasks(cr.spec)) ==
            var r0 := RunAll(w, cr, NasWorkloadTasks(cr.spec));
            if r0.0.Some? then r0 else RunAll(r0.1, cr, NasClassesFrom(cr.spec.nas, 0))
  {
    hide RunAll, NasWorkloadTasks, NasClassesFrom;
    RunConcat(w, cr, NasWorkloadTasks(cr.spec), NasClassesFrom(cr.spec.nas, 0));
  }

  lemma SplitNasClass(w: World, cr: Driver, i: nat)
    requires i < |cr.spec.nas.classes|
    ensures RunAll(w, cr, NasClassesFrom(cr.spec.nas, i)) ==
            var nas := cr.spec.nas;
            var c := nas.classes[i];
            var r0 := CreateOrAdopt(w, cr, Key(StorageClass, c.name), NasClassPayload(c));
            if r0.0.Some? then r0
            else
              var r1 := RunAll(r0.1, cr, ProfileTasks(c.name, nas.profile, NasClaimSets(), ""));
              if r1.0.Some? then r1 else RunAll(r1.1, cr, NasClassesFrom(nas, i + 1))
  {
    hide CreateOrAdopt, ProfileTasks, NasClassPayload, NasClaimSets, RunAll;
    var nas := cr.spec.nas;
    var c := nas.classes[i];
    var head := Adopt(Key(StorageClass, c.name), NasClassPayload(c));
    var tail := ProfileTasks(c.name, nas.profile, NasClaimSets(), "");
    RunConcat(w, cr, [head] + tail, NasClassesFrom(nas, i + 1));
    RunConcat(w, cr, [head], tail);
    RunOne(w, cr, head);
  }

  lemma EnvSplit(builtin: seq<EnvVar>, spec: Spec)
    ensures builtin + PluginEnv([], spec) == PluginEnv(builtin, spec)
  {
  }

  lemma KeepsConfig(w: World, req: Request)
    ensures Do(w, req).1.hasConfig == w.hasConfig
  {
    DoReaches(w, req);
  }

  // The three phases are the full plan run as one list.
  lemma PhasesRunPlan(w: World, cr: Driver)
    ensures var p := Phases(w, cr); (p.err, p.world) == RunAll(w, cr, FullPlan(cr.spec))
  {
    hide RunAll, DiskTasks, NasTasks;
    var disk := if cr.spec.disk.enabled then DiskTasks(cr.spec) else [];
    var nas := if cr.spec.nas.enabled then NasTasks(cr.spec) else [];
    RunConcat(w, cr, RBAC_TASKS, disk + nas);
    var r := RunAll(w, cr, RBAC_TASKS);
    RunConcat(r.1, cr, disk, nas);
    RunNil(r.1, cr);
    RunNil(RunAll(r.1, cr, disk).1, cr);
  }
}
