/**
 The reconciler, step by step, over a client of the API server. Every method is proved
 equal to its meaning on worlds, so what is proved about worlds holds of the methods.
 */
module Reconciler {
  import opened Base
  import opened DriverTypes
  import opened DriverEnv
  import opened MergePatch
  import opened Cluster
  import opened Tasks
  import opened Plan
  import opened PlanFacts

  // client.Client: the operator's only handle on the cluster.
  class Client {
    var world: World

    constructor (w: World)
      ensures world == w
    {
      world := w;
    }

    method Call(req: Request) returns (r: Reply)
      modifies this
      ensures (r, world) == Do(old(world), req)
    {
      if !world.alive {
        return Failed(Crashed);
      }
      var turn := Head(world.script);
      world := world.(script := Rest(world.script));
      var edits := turn.edits;
      while edits != []
        invariant ApplyEdits(world, edits) == Turned(old(world))
        decreases |edits|
      {
        world := ApplyEdit(world, edits[0]);
        edits := edits[1..];
      }
      if turn.fault == Reject {
        return Failed(Unavailable);
      }
      if turn.fault == CrashBefore {
        world := world.(alive := false);
        return Failed(Crashed);
      }
      var served := Effect(world, req, turn.lag);
      world := served.1;
      r := served.0;
      if turn.fault == LostReply {
        r := Failed(Unavailable);
      } else if turn.fault == CrashAfter {
        world := world.(alive := false);
        r := Failed(Crashed);
      }
    }
  }

  class AlibabaCloudCSIDriverReconciler {
    const client: Client

    constructor (client: Client)
      ensures this.client == client
    {
      this.client := client;
    }

    // Sets the controller reference on obj, creates it, or adopts the one that exists.
    method CreateOrAdopt(cr: Driver, key: Key, obj: Obj) returns (err: Option<Error>)
      requires obj == Obj(0, 0, [], map[], obj.payload)
      modifies client
      ensures (err, client.world) == Tasks.CreateOrAdopt(old(client.world), cr, key, obj.payload)
    {
      hide Do;
      var owners := SetController(obj.owners, ControllerRef(cr));
      if owners.None? {
        return Some(AlreadyOwned);
      }
      var owned := obj.(owners := owners.value);
      var created := client.Call(Create(key, owned));
      if created == Done {
        return None;
      }
      if created != Failed(AlreadyExists) {
        return ErrorOf(created);
      }
      ghost var start := client.world;
      var attempts := 0;
      err := Some(Conflict);
      while attempts < ATTEMPTS && err == Some(Conflict)
        invariant attempts <= ATTEMPTS
        invariant AdoptLoop(start, cr, key, ATTEMPTS) ==
                  if err == Some(Conflict) then AdoptLoop(client.world, cr, key, ATTEMPTS - attempts)
                    else (err, client.world)
        decreases ATTEMPTS - attempts
      {
        attempts := attempts + 1;
        var got := client.Call(GetObject(key));
        if !got.Found? {
          err := ErrorOf(got);
        } else if ControlledBy(got.obj.owners, cr.uid) {
          err := None;
        } else {
          var adopted := SetController(got.obj.owners, ControllerRef(cr));
          if adopted.None? {
            err := Some(AlreadyOwned);
          } else {
            var put := client.Call(Update(key, got.obj.(owners := adopted.value)));
            err := ErrorOf(put);
          }
        }
      }
    }

    // Creates obj or replaces the stored object by it. obj keeps the resourceVersion of
    // the last read across attempts.
    method CreateOrUpdate(cr: Driver, key: Key, obj: Obj) returns (err: Option<Error>)
      requires obj == Obj(0, 0, [], map[], obj.payload)
      modifies client
      ensures (err, client.world) == Tasks.CreateOrUpdate(old(client.world), cr, key, obj.payload)
    {
      hide Do;
      var owners := SetController(obj.owners, ControllerRef(cr));
      if owners.None? {
        return Some(AlreadyOwned);
      }
      var desired := obj.(owners := owners.value);
      var attempts := 0;
      err := Some(Conflict);
      while attempts < ATTEMPTS && err == Some(Conflict)
        invariant attempts <= ATTEMPTS
        invariant Tasks.CreateOrUpdate(old(client.world), cr, key, obj.payload) ==
                  if err == Some(Conflict) then UpdateLoop(client.world, key, desired, ATTEMPTS - attempts)
                    else (err, client.world)
        decreases ATTEMPTS - attempts
      {
        attempts := attempts + 1;
        var got := client.Call(GetObject(key));
        if got == Failed(NotFound) {
          var made := client.Call(Create(key, desired));
          err := ErrorOf(made);
        } else if !got.Found? {
          err := ErrorOf(got);
        } else {
          desired := desired.(rv := got.obj.rv);
          var put := client.Call(Update(key, desired));
          err := ErrorOf(put);
        }
      }
    }

    // ---- RBAC and admission ----

    method SccAvailable() returns (found: bool)
      modifies client
      ensures (found, client.world) == Tasks.SccAvailable(old(client.world))
    {
      var mapped := client.Call(MapScc);
      if mapped == Done {
        return true;
      }
      if !client.world.hasConfig {
        KeepsConfig(old(client.world), MapScc);
        return false;
      }
      KeepsConfig(old(client.world), MapScc);
      var listed := client.Call(DiscoverScc);
      if !listed.Kinds? {
        return false;
      }
      for i := 0 to |listed.kinds|
        invariant SCC_KIND !in listed.kinds[..i]
      {
        if listed.kinds[i] == SCC_KIND {
          return true;
        }
      }
      return false;
    }

    // Sets the wanted labels one by one, in whatever order the map yields them.
    static method SetLabels(have: map<string, string>, want: map<string, string>)
      returns (labels: map<string, string>, changed: bool)
      requires "" !in want.Values
      ensures labels == have + want
      ensures changed <==> !Covers(have, want)
      ensures changed <==> labels != have
    {
      labels := have;
      changed := false;
      var todo := want.Keys;
      while todo != {}
        invariant todo <= want.Keys
        invariant labels.Keys == have.Keys + (want.Keys - todo)
        invariant forall k | k in labels :: labels[k] == if k in want && k !in todo then want[k] else have[k]
        invariant changed ==> !Covers(have, want)
        invariant !changed ==> labels == have
        decreases |todo|
      {
        var k :| k in todo;
        if (if k in labels then labels[k] else "") != want[k] {
          labels := labels[k := want[k]];
          changed := true;
        }
        todo := todo - {k};
      }
      assert labels == have + want;
    }

    // Writes only when a label was missing or different.
    method EnsurePrivilegedNamespacePSA() returns (err: Option<Error>)
      modifies client
      ensures (err, client.world) == LabelNamespace(old(client.world))
    {
      var got := client.Call(GetObject(NAMESPACE_KEY));
      if got == Failed(NotFound) {
        return None;
      }
      if !got.Found? {
        return ErrorOf(got);
      }
      var labels, changed := SetLabels(got.obj.labels, PRIVILEGED_LABELS);
      if !changed {
        return None;
      }
      var put := client.Call(Update(NAMESPACE_KEY, got.obj.(labels := labels)));
      return ErrorOf(put);
    }

    method EnsureRBAC(cr: Driver) returns (err: Option<Error>)
      modifies client
      ensures (err, client.world) == RunAll(old(client.world), cr, RBAC_TASKS)
    {
      hide Tasks.CreateOrAdopt, LabelNamespace, Tasks.SccAvailable;
      UnrollRbac(client.world, cr);
      err := CreateOrAdopt(cr, ACCOUNT_KEY, Obj(0, 0, [], map[], AccountPayload));
      if err.Some? {
        return;
      }
      err := CreateOrAdopt(cr, ROLE_KEY, Obj(0, 0, [], map[], RolePayload));
      if err.Some? {
        return;
      }
      err := CreateOrAdopt(cr, BINDING_KEY, Obj(0, 0, [], map[], BindingPayload("alibaba-cloud-csi-role")));
      if err.Some? {
        return;
      }
      var scc := SccAvailable();
      if scc {
        err := CreateOrAdopt(cr, SCC_BINDING_KEY, Obj(0, 0, [], map[], SCC_BINDING));
      } else {
        err := EnsurePrivilegedNamespacePSA();
      }
    }

    // ---- The disk and NAS drivers ----

    method EnsureVolumeSnapshotClass(cr: Driver, cfg: SnapshotConfig) returns (err: Option<Error>)
      modifies client
      ensures (err, client.world) == RunAll(old(client.world), cr, SnapshotTasks(cfg))
    {
      hide Do;
      if !cfg.enabled {
        return None;
      }
      var className := cfg.className;
      if className == "" {
        className := DEFAULT_SNAPSHOT_CLASS;
      }
      var key := Key(SnapshotClass, className);
      RunOne(client.world, cr, Ignore(key, SnapshotPayload(DISK_DRIVER)));
      var owners := SetController([], ControllerRef(cr));
      if owners.None? {
        return Some(AlreadyOwned);
      }
      var created := client.Call(Create(key, Obj(0, 0, owners.value, map[], SnapshotPayload(DISK_DRIVER))));
      if created == Failed(NoMatch) || created == Failed(AlreadyExists) {
        return None;
      }
      return ErrorOf(created);
    }

    method EnsureStorageProfile(ghost cr: Driver, name: string, cfg: ProfileConfig, claimSets: Json, snapClass: string)
      returns (err: Option<Error>)
      modifies client
      ensures (err, client.world) == RunAll(old(client.world), cr, ProfileTasks(name, cfg, claimSets, snapClass))
    {
      hide Do, Merge;
      if !cfg.patch {
        return None;
      }
      var key := Key(StorageProfile, name);
      RunOne(client.world, cr, PatchIfPresent(key, ProfilePatch(cfg, claimSets, snapClass)));
      var got := client.Call(GetObject(key));
      if got == Failed(NoMatch) || got == Failed(NotFound) {
        return None;
      }
      if !got.Found? {
        return ErrorOf(got);
      }
      var cloneStrategy := cfg.cloneStrategy;
      if cloneStrategy == "" {
        cloneStrategy := "csi-clone";
      }
      var specPatch := map["claimPropertySets" := claimSets, "cloneStrategy" := Str(cloneStrategy)];
      if snapClass != "" {
        specPatch := specPatch["snapshotClass" := Str(snapClass)];
      }
      assert specPatch == ProfileSpec(cfg, claimSets, snapClass);
      var patched := client.Call(PatchProfile(key, Object(map["spec" := Object(specPatch)])));
      return ErrorOf(patched);
    }

    method EnsureDiskControllerDeployment(cr: Driver) returns (err: Option<Error>)
      modifies client
      ensures (err, client.world) ==
              Tasks.CreateOrUpdate(old(client.world), cr, Key(Deployment, "csi-disk-controller"),
                ControllerPayload(cr.spec, "csi-disk-controller", DiskControllerEnv(cr.spec)))
    {
      var spec := cr.spec;
      var env := DriverEnvOf(spec);
      EnvSplit(DiskControllerEnv(spec), spec);
      env := DiskControllerEnv(spec) + env;
      err := CreateOrUpdate(cr, Key(Deployment, "csi-disk-controller"), Obj(0, 0, [], map[],
        WorkloadPayload("csi-disk-controller", Image(spec), env, Replicas(spec), NodeSelector(spec), Tolerations(spec))));
    }

    method EnsureDiskNodeDaemonSet(cr: Driver) returns (err: Option<Error>)
      modifies client
      ensures (err, client.world) ==
              Tasks.CreateOrUpdate(old(client.world), cr, Key(DaemonSet, "csi-disk-node"),
                NodePayload(cr.spec, "csi-disk-node", DiskNodeEnv(cr.spec)))
    {
      var spec := cr.spec;
      var env := DriverEnvOf(spec);
      EnvSplit(DiskNodeEnv(spec), spec);
      env := DiskNodeEnv(spec) + env;
      err := CreateOrUpdate(cr, Key(DaemonSet, "csi-disk-node"), Obj(0, 0, [], map[],
        WorkloadPayload("csi-disk-node", Image(spec), env, 0, map[], [Toleration("", "Exists", "", "")])));
    }

    method EnsureNASControllerDeployment(cr: Driver) returns (err: Option<Error>)
      modifies client
      ensures (err, client.world) ==
              Tasks.CreateOrUpdate(old(client.world), cr, Key(Deployment, "csi-nas-controller"),
                ControllerPayload(cr.spec, "csi-nas-controller", NasControllerEnv(cr.spec)))
    {
      var spec := cr.spec;
      var env := DriverEnvOf(spec);
      EnvSplit(NasControllerEnv(spec), spec);
      env := NasControllerEnv(spec) + env;
      err := CreateOrUpdate(cr, Key(Deployment, "csi-nas-controller"), Obj(0, 0, [], map[],
        WorkloadPayload("csi-nas-controller", Image(spec), env, Replicas(spec), NodeSelector(spec), Tolerations(spec))));
    }

    method EnsureNASNodeDaemonSet(cr: Driver) returns (err: Option<Error>)
      modifies client
      ensures (err, client.world) ==
              Tasks.CreateOrUpdate(old(client.world), cr, Key(DaemonSet, "csi-nas-node"),
                NodePayload(cr.spec, "csi-nas-node", NasNodeEnv(cr.spec)))
    {
      var spec := cr.spec;
      var env := DriverEnvOf(spec);
      EnvSplit(NasNodeEnv(spec), spec);
      env := NasNodeEnv(spec) + env;
      err := CreateOrUpdate(cr, Key(DaemonSet, "csi-nas-node"), Obj(0, 0, [], map[],
        WorkloadPayload("csi-nas-node", Image(spec), env, 0, map[], [Toleration("", "Exists", "", "")])));
    }

    method EnsureDiskStorageClass(cr: Driver, c: DiskClass, isDefault: bool) returns (err: Option<Error>)
      modifies client
      ensures (err, client.world) ==
              Tasks.CreateOrAdopt(old(client.world), cr, Key(StorageClass, c.name), DiskClassPayload(c, isDefault))
    {
      hide Tasks.CreateOrAdopt;
      var reclaimPolicy := "Delete";
      if c.reclaimPolicy == "Retain" {
        reclaimPolicy := "Retain";
      }
      var annotations := map[];
      if isDefault {
        annotations := annotations[DEFAULT_CLASS_ANNOTATION := "true"];
      }
      if c.virtDefault {
        annotations := annotations[DEFAULT_VIRT_ANNOTATION := "true"];
      }
      var parameters := map["type" := c.diskType];
      if c.encrypted {
        parameters := parameters["encrypted" := "true"];
      }
      assert annotations == Flag(isDefault, DEFAULT_CLASS_ANNOTATION) + Flag(c.virtDefault, DEFAULT_VIRT_ANNOTATION);
      assert parameters == map["type" := c.diskType] + Flag(c.encrypted, "encrypted");
      var payload := ClassPayload(DISK_DRIVER, annotations, parameters, reclaimPolicy, c.allowExpansion,
          "WaitForFirstConsumer");
      assert payload == DiskClassPayload(c, isDefault);
      err := CreateOrAdopt(cr, Key(StorageClass, c.name), Obj(0, 0, [], map[], payload));
    }

    // The class loop of ensureDiskDriver.
    method EnsureDiskClasses(cr: Driver) returns (err: Option<Error>)
      modifies client
      ensures (err, client.world) == RunAll(old(client.world), cr, DiskClassesFrom(cr.spec.disk, 0))
    {
      hide Tasks.CreateOrAdopt, RunTask, DiskClassTasks, ProfileTasks, DiskClassPayload, DiskClaimSets,
          PatchProfileIfPresent;
      var disk := cr.spec.disk;
      var snapClass := disk.snapshot.className;
      if disk.snapshot.enabled && snapClass == "" {
        snapClass := DEFAULT_SNAPSHOT_CLASS;
      }
      for i := 0 to |disk.classes|
        invariant RunAll(old(client.world), cr, DiskClassesFrom(disk, 0)) ==
            RunAll(client.world, cr, DiskClassesFrom(disk, i))
      {
        var c := disk.classes[i];
        var isDefault := disk.defaultStorageClass && i == 0;
        SplitDiskClass(client.world, cr, i);
        err := EnsureDiskStorageClass(cr, c, isDefault);
        if err.Some? {
          return;
        }
        err := EnsureStorageProfile(cr, c.name, disk.profile, DiskClaimSets(c.volumeMode), snapClass);
        if err.Some? {
          return;
        }
      }
      err := None;
    }

    method EnsureDiskDriver(cr: Driver) returns (err: Option<Error>)
      modifies client
      ensures (err, client.world) == RunAll(old(client.world), cr, DiskTasks(cr.spec))
    {
      hide Tasks.CreateOrAdopt, Tasks.CreateOrUpdate, DiskClassesFrom, SnapshotTasks, ControllerPayload, NodePayload;
      var spec := cr.spec;
      SplitDisk(client.world, cr);
      UnrollThree(client.world, cr, DiskWorkloadTasks(spec));
      err := CreateOrAdopt(cr, Key(CSIDriver, DISK_DRIVER), Obj(0, 0, [], map[], DriverPayload(true, true)));
      if err.Some? {
        return;
      }
      err := EnsureDiskControllerDeployment(cr);
      if err.Some? {
        return;
      }
      err := EnsureDiskNodeDaemonSet(cr);
      if err.Some? {
        return;
      }
      err := EnsureVolumeSnapshotClass(cr, spec.disk.snapshot);
      if err.Some? {
        return;
      }
      err := EnsureDiskClasses(cr);
    }

    method EnsureNASStorageClass(cr: Driver, c: NasClass) returns (err: Option<Error>)
      modifies client
      ensures (err, client.world) ==
          Tasks.CreateOrAdopt(old(client.world), cr, Key(StorageClass, c.name), NasClassPayload(c))
    {
      hide Tasks.CreateOrAdopt;
      var reclaimPolicy := "Delete";
      if c.reclaimPolicy == "Retain" {
        reclaimPolicy := "Retain";
      }
      var annotations := map[];
      if c.virtDefault {
        annotations := annotations[DEFAULT_VIRT_ANNOTATION := "true"];
      }
      var payload := ClassPayload(NAS_DRIVER, annotations, c.parameters, reclaimPolicy, c.allowExpansion, "Immediate");
      assert payload == NasClassPayload(c);
      err := CreateOrAdopt(cr, Key(StorageClass, c.name), Obj(0, 0, [], map[], payload));
    }

    // The class loop of ensureNASDriver.
    method EnsureNASClasses(cr: Driver) returns (err: Option<Error>)
      modifies client
      ensures (err, client.world) == RunAll(old(client.world), cr, NasClassesFrom(cr.spec.nas, 0))
    {
      hide Tasks.CreateOrAdopt, RunTask, NasClassTasks, ProfileTasks, NasClassPayload, NasClaimSets,
          PatchProfileIfPresent;
      var nas := cr.spec.nas;
      for i := 0 to |nas.classes|
        invariant RunAll(old(client.world), cr, NasClassesFrom(nas, 0)) ==
            RunAll(client.world, cr, NasClassesFrom(nas, i))
      {
        var c := nas.classes[i];
        SplitNasClass(client.world, cr, i);
        err := EnsureNASStorageClass(cr, c);
        if err.Some? {
          return;
        }
        err := EnsureStorageProfile(cr, c.name, nas.profile, NasClaimSets(), "");
        if err.Some? {
          return;
        }
      }
      err := None;
    }

    method EnsureNASDriver(cr: Driver) returns (err: Option<Error>)
      modifies client
      ensures (err, client.world) == RunAll(old(client.world), cr, NasTasks(cr.spec))
    {
      hide Tasks.CreateOrAdopt, Tasks.CreateOrUpdate, NasClassesFrom, ControllerPayload, NodePayload;
      var spec := cr.spec;
      SplitNas(client.world, cr);
      UnrollThree(client.world, cr, NasWorkloadTasks(spec));
      err := CreateOrAdopt(cr, Key(CSIDriver, NAS_DRIVER), Obj(0, 0, [], map[], DriverPayload(false, false)));
      if err.Some? {
        return;
      }
      err := EnsureNASControllerDeployment(cr);
      if err.Some? {
        return;
      }
      err := EnsureNASNodeDaemonSet(cr);
      if err.Some? {
        return;
      }
      err := EnsureNASClasses(cr);
    }

    // ---- Reconcile ----

    method Reconcile() returns (err: Option<Error>)
      modifies client
      ensures (err, client.world) == Pass(old(client.world))
    {
      hide Do, RunAll, DiskTasks, NasTasks, Conditions;
      var got := client.Call(GetDriver);
      if !got.FoundDriver? {
        return if got == Failed(NotFound) then None else ErrorOf(got);
      }
      var cr := got.driver;
      err := EnsureRBAC(cr);
      var diskReady := false;
      if err.None? && cr.spec.disk.enabled {
        err := EnsureDiskDriver(cr);
        if err.None? {
          diskReady := true;
        }
      }
      var nasReady := false;
      if err.None? && cr.spec.nas.enabled {
        err := EnsureNASDriver(cr);
        if err.None? {
          nasReady := true;
        }
      }
      var allReady := (!cr.spec.disk.enabled || diskReady) && (!cr.spec.nas.enabled || nasReady);
      var status := cr.status;
      status := status.(observedGeneration := cr.generation);
      status := status.(diskReady := diskReady);
      status := status.(nasReady := nasReady);
      status := status.(ossReady := false);
      status := status.(conditions := Conditions(allReady, err, client.world.state.now));
      var _ := client.Call(PatchStatus(cr.status, status));
    }
  }
}
