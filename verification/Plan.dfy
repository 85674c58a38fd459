/**
 What one reconcile pass does, as data: the objects the custom resource asks for, in
 order, as a list of tasks.
 */
module Plan {
  import opened Base
  import opened DriverTypes
  import opened DriverEnv
  import opened MergePatch
  import opened Cluster
  import opened Tasks

  const DISK_DRIVER := "diskplugin.csi.alibabacloud.com"
  const NAS_DRIVER := "nasplugin.csi.alibabacloud.com"
  const CSI_IMAGE := "registry.cn-hangzhou.aliyuncs.com/acs/csi-plugin"
  const DEFAULT_SNAPSHOT_CLASS := "alibaba-cloud-disk-snapclass"
  const DEFAULT_CLASS_ANNOTATION := "storageclass.kubernetes.io/is-default-class"
  const DEFAULT_VIRT_ANNOTATION := "storageclass.kubevirt.io/is-default-virt-class"

  const ACCOUNT_KEY := Key(ServiceAccount, "alibaba-cloud-csi-sa")
  const ROLE_KEY := Key(ClusterRole, "alibaba-cloud-csi-role")
  const BINDING_KEY := Key(ClusterRoleBinding, "alibaba-cloud-csi-binding")

  // ---- What the custom resource asks for ----

  function Image(spec: Spec): string {
    CSI_IMAGE + ":" + (if spec.imageTag == "" then "v1.35.3" else spec.imageTag)
  }

  function RamToken(spec: Spec): string {
    if spec.ramToken == "" then "v2" else spec.ramToken
  }

  const MASTER := "node-role.kubernetes.io/master"

  function Replicas(spec: Spec): int {
    if spec.controller.replicas == 0 then 2 else spec.controller.replicas
  }

  function NodeSelector(spec: Spec): map<string, string> {
    if spec.controller.nodeSelector.None? then map[MASTER := ""] else spec.controller.nodeSelector.value
  }

  function Tolerations(spec: Spec): seq<Toleration> {
    if spec.controller.tolerations == [] then [Toleration(MASTER, "", "", "NoSchedule")] else spec.controller.tolerations
  }

  function ControllerPayload(spec: Spec, app: string, builtin: seq<EnvVar>): Payload {
    WorkloadPayload(app, Image(spec), PluginEnv(builtin, spec), Replicas(spec), NodeSelector(spec), Tolerations(spec))
  }

  // Node DaemonSets tolerate every taint and have no replica count.
  function NodePayload(spec: Spec, app: string, builtin: seq<EnvVar>): Payload {
    WorkloadPayload(app, Image(spec), PluginEnv(builtin, spec), 0, map[], [Toleration("", "Exists", "", "")])
  }

  const NODE_NAME_ENV := EnvVar("KUBE_NODE_NAME", "", Some(FieldRef("spec.nodeName")))

  function DiskControllerEnv(spec: Spec): seq<EnvVar> {
    [Literal("CSI_ENDPOINT", "unix:///csi/csi.sock"), Literal("MAX_VOLUMES_PERNODE", "15"),
     Literal("RAM_ROLE_TOKEN", RamToken(spec))]
  }

  function DiskNodeEnv(spec: Spec): seq<EnvVar> {
    [Literal("CSI_ENDPOINT", "unix:///var/lib/kubelet/plugins/diskplugin.csi.alibabacloud.com/csi.sock"),
     Literal("RAM_ROLE_TOKEN", RamToken(spec)), Literal("SERVICE_PORT", "11260"),
     Literal("MAX_VOLUMES_PERNODE", "15"), Literal("DISK_ALLOW_ALL_TYPE", "true"), NODE_NAME_ENV]
  }

  function NasControllerEnv(spec: Spec): seq<EnvVar> {
    [Literal("CSI_ENDPOINT", "unix:///csi/csi.sock"), Literal("RAM_ROLE_TOKEN", RamToken(spec))]
  }

  function NasNodeEnv(spec: Spec): seq<EnvVar> {
    [Literal("CSI_ENDPOINT", "unix:///var/lib/kubelet/plugins/nasplugin.csi.alibabacloud.com/csi.sock"),
     Literal("RAM_ROLE_TOKEN", RamToken(spec)), Literal("SERVICE_PORT", "11261"), NODE_NAME_ENV]
  }

  function Reclaim(policy: string): string {
    if policy == "Retain" then "Retain" else "Delete"
  }

  function Flag(on: bool, name: string): map<string, string> {
    if on then map[name := "true"] else map[]
  }

  function DiskClassPayload(c: DiskClass, isDefault: bool): Payload {
    ClassPayload(
      DISK_DRIVER,
      Flag(isDefault, DEFAULT_CLASS_ANNOTATION) + Flag(c.virtDefault, DEFAULT_VIRT_ANNOTATION),
      map["type" := c.diskType] + Flag(c.encrypted, "encrypted"),
      Reclaim(c.reclaimPolicy), c.allowExpansion, "WaitForFirstConsumer")
  }

  function NasClassPayload(c: NasClass): Payload {
    ClassPayload(NAS_DRIVER, Flag(c.virtDefault, DEFAULT_VIRT_ANNOTATION), c.parameters,
                 Reclaim(c.reclaimPolicy), c.allowExpansion, "Immediate")
  }

  function ClaimSet(accessMode: string, volumeMode: string): Json {
    Object(map["accessModes" := Arr([Str(accessMode)]), "volumeMode" := Str(volumeMode)])
  }

  // strings.EqualFold(s, "Block"); U+212A is the Kelvin sign, which folds to k.
  predicate EqualFoldBlock(s: string) {
    |s| == 5 && s[0] in "bB" && s[1] in "lL" && s[2] in "oO" && s[3] in "cC" && s[4] in "kK\U{212A}"
  }

  function DiskClaimSets(volumeMode: string): Json {
    Arr([ClaimSet("ReadWriteOnce", if EqualFoldBlock(volumeMode) then "Block" else "Filesystem")])
  }

  function NasClaimSets(): Json {
    Arr([ClaimSet("ReadWriteMany", "Filesystem"), ClaimSet("ReadWriteOnce", "Filesystem")])
  }

  function ProfileSpec(cfg: ProfileConfig, claimSets: Json, snapClass: string): map<string, Json> {
    map["claimPropertySets" := claimSets,
        "cloneStrategy" := Str(if cfg.cloneStrategy == "" then "csi-clone" else cfg.cloneStrategy)]
    + (if snapClass == "" then map[] else map["snapshotClass" := Str(snapClass)])
  }

  function ProfilePatch(cfg: ProfileConfig, claimSets: Json, snapClass: string): Json {
    Object(map["spec" := Object(ProfileSpec(cfg, claimSets, snapClass))])
  }

  function ProfileTasks(name: string, cfg: ProfileConfig, claimSets: Json, snapClass: string): seq<Task> {
    if cfg.patch then [PatchIfPresent(Key(StorageProfile, name), ProfilePatch(cfg, claimSets, snapClass))] else []
  }

  function SnapshotTasks(cfg: SnapshotConfig): seq<Task> {
    if !cfg.enabled then []
    else
      var name := if cfg.className == "" then DEFAULT_SNAPSHOT_CLASS else cfg.className;
      [Ignore(Key(SnapshotClass, name), SnapshotPayload(DISK_DRIVER))]
  }

  // The class name the disk StorageProfiles link, computed apart from SnapshotTasks.
  function LinkedSnapshotClass(cfg: SnapshotConfig): string {
    if cfg.enabled && cfg.className == "" then DEFAULT_SNAPSHOT_CLASS else cfg.className
  }

  const RBAC_TASKS: seq<Task> := [
    Adopt(ACCOUNT_KEY, AccountPayload),
    Adopt(ROLE_KEY, RolePayload),
    Adopt(BINDING_KEY, BindingPayload("alibaba-cloud-csi-role")),
    Admit]

  function DiskWorkloadTasks(spec: Spec): seq<Task> {
    [Adopt(Key(CSIDriver, DISK_DRIVER), DriverPayload(true, true)),
     Replace(Key(Deployment, "csi-disk-controller"),
         ControllerPayload(spec, "csi-disk-controller", DiskControllerEnv(spec))),
     Replace(Key(DaemonSet, "csi-disk-node"), NodePayload(spec, "csi-disk-node", DiskNodeEnv(spec)))]
  }

  function DiskClassTasks(disk: DiskSpec, i: nat): seq<Task>
    requires i < |disk.classes|
  {
    var c := disk.classes[i];
    [Adopt(Key(StorageClass, c.name), DiskClassPayload(c, disk.defaultStorageClass && i == 0))]
    + ProfileTasks(c.name, disk.profile, DiskClaimSets(c.volumeMode), LinkedSnapshotClass(disk.snapshot))
  }

  function DiskClassesFrom(disk: DiskSpec, i: nat): seq<Task>
    requires i <= |disk.classes|
    decreases |disk.classes| - i
  {
    if i == |disk.classes| then [] else DiskClassTasks(disk, i) + DiskClassesFrom(disk, i + 1)
  }

  function DiskTasks(spec: Spec): seq<Task> {
    DiskWorkloadTasks(spec) + SnapshotTasks(spec.disk.snapshot) + DiskClassesFrom(spec.disk, 0)
  }

  function NasWorkloadTasks(spec: Spec): seq<Task> {
    [Adopt(Key(CSIDriver, NAS_DRIVER), DriverPayload(false, false)),
     Replace(Key(Deployment, "csi-nas-controller"),
         ControllerPayload(spec, "csi-nas-controller", NasControllerEnv(spec))),
     Replace(Key(DaemonSet, "csi-nas-node"), NodePayload(spec, "csi-nas-node", NasNodeEnv(spec)))]
  }

  function NasClassTasks(nas: NasSpec, i: nat): seq<Task>
    requires i < |nas.classes|
  {
    var c := nas.classes[i];
    [Adopt(Key(StorageClass, c.name), NasClassPayload(c))] + ProfileTasks(c.name, nas.profile, NasClaimSets(), "")
  }

  function NasClassesFrom(nas: NasSpec, i: nat): seq<Task>
    requires i <= |nas.classes|
    decreases |nas.classes| - i
  {
    if i == |nas.classes| then [] else NasClassTasks(nas, i) + NasClassesFrom(nas, i + 1)
  }

  function NasTasks(spec: Spec): seq<Task> {
    NasWorkloadTasks(spec) + NasClassesFrom(spec.nas, 0)
  }

  function DriverTasks(spec: Spec): seq<Task> {
    (if spec.disk.enabled then DiskTasks(spec) else []) + (if spec.nas.enabled then NasTasks(spec) else [])
  }

  function FullPlan(spec: Spec): seq<Task> {
    RBAC_TASKS + DriverTasks(spec)
  }

  // ---- One pass ----

  function Conditions(allReady: bool, err: Option<Error>, now: nat): seq<Condition> {
    if err.Some? then
      [Condition("Available", "False", "ReconcileError", err, now),
       Condition("Degraded", "True", "ReconcileError", err, now),
       Condition("Progressing", "False", "Error", None, now)]
    else
      [Condition("Available", if allReady then "True" else "False", "AsExpected", None, now),
       Condition("Degraded", "False", "AsExpected", None, now),
       Condition("Progressing", "False", "AsExpected", None, now)]
  }

  datatype Progress = Progress(err: Option<Error>, diskReady: bool, nasReady: bool, world: World)

  // The three phases of Reconcile, before the status is written.
  function Phases(w: World, cr: Driver): Progress {
    var rbac := RunAll(w, cr, RBAC_TASKS);
    var disk := if rbac.0.None? && cr.spec.disk.enabled then RunAll(rbac.1, cr, DiskTasks(cr.spec)) else rbac;
    var nas := if disk.0.None? && cr.spec.nas.enabled then RunAll(disk.1, cr, NasTasks(cr.spec)) else disk;
    Progress(nas.0, cr.spec.disk.enabled && disk.0.None?, cr.spec.nas.enabled && nas.0.None?, nas.1)
  }

  function AllReady(spec: Spec, p: Progress): bool {
    (!spec.disk.enabled || p.diskReady) && (!spec.nas.enabled || p.nasReady)
  }

  function NextStatus(cr: Driver, p: Progress): Status {
    Status(cr.generation, p.diskReady, p.nasReady, false, Conditions(AllReady(cr.spec, p), p.err, p.world.state.now))
  }

  // Reconcile on a live operator. A failure to write the status is only logged.
  function Pass(w: World): (Option<Error>, World) {
    var got := Do(w, GetDriver);
    if !got.0.FoundDriver? then (if got.0 == Failed(NotFound) then None else ErrorOf(got.0), got.1)
    else
      var cr := got.0.driver;
      var p := Phases(got.1, cr);
      (p.err, Do(p.world, PatchStatus(cr.status, NextStatus(cr, p))).1)
  }
}
