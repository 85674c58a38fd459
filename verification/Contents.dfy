/** What passes write into each object, field by field, from the custom resource alone. */
module Contents {
  import opened Base
  import opened DriverTypes
  import opened DriverEnv
  import opened MergePatch
  import opened Cluster
  import opened History
  import opened Tasks
  import opened Plan
  import opened Runs
  import opened CalmRuns
  import opened Outcome
  import opened PlanShape
  import opened Lawful
  import opened Ordering
  import opened PassSafety
  import opened Ownership
  import opened Ensured
  import opened Delivery
  import opened Inventory
  import ClassNames
  import NilPass

  // ---- The csi-plugin containers ----

  // The built-in environment of the four workloads, name by name.
  function BuiltIn(spec: Spec, key: Key, name: string): Option<EnvVar> {
    var node := key.kind == DaemonSet;
    var disk := key.name == "csi-disk-controller" || key.name == "csi-disk-node";
    if name == "CSI_ENDPOINT" then
      Some(EnvVar(name, if !node then "unix:///csi/csi.sock"
                        else if disk then "unix:///var/lib/kubelet/plugins/diskplugin.csi.alibabacloud.com/csi.sock"
                        else "unix:///var/lib/kubelet/plugins/nasplugin.csi.alibabacloud.com/csi.sock", None))
    else if name == "RAM_ROLE_TOKEN" then Some(EnvVar(name, if spec.ramToken == "" then "v2" else spec.ramToken, None))
    else if name == "MAX_VOLUMES_PERNODE" && disk then Some(EnvVar(name, "15", None))
    else if name == "DISK_ALLOW_ALL_TYPE" && disk && node then Some(EnvVar(name, "true", None))
    else if name == "SERVICE_PORT" && node then Some(EnvVar(name, if disk then "11260" else "11261", None))
    else if name == "KUBE_NODE_NAME" && node then Some(EnvVar(name, "", Some(FieldRef("spec.nodeName"))))
    else None
  }

  // The last extraEnv entry of a name; with unique names, the only one.
  function LastExtra(es: seq<EnvSpec>, name: string): Option<EnvSpec> {
    if es == [] then None
    else if LastExtra(es[1..], name).Some? then LastExtra(es[1..], name)
    else if es[0].name == name then Some(es[0])
    else None
  }

  // What the container sees for a name: the endpoint field, else the extraEnv entry with its
  // value or its secret, else the built-in entry.
  function Effective(spec: Spec, key: Key, name: string): Option<EnvVar> {
    var extra := LastExtra(spec.extraEnv, name);
    if name == "ECS_ENDPOINT" && spec.ecsEndpoint != "" then Some(EnvVar(name, spec.ecsEndpoint, None))
    else if extra.Some? then
      Some(if extra.value.secret.Some? then EnvVar(name, "", Some(SecretRef(extra.value.secret.value)))
           else EnvVar(name, extra.value.value, None))
    else BuiltIn(spec, key, name)
  }

  // The payload of a workload, from the fields of the spec and their defaults.
  ghost predicate Plugin(spec: Spec, key: Key, p: Payload) {
    && p.WorkloadPayload?
    && p.app == key.name
    && p.image == "registry.cn-hangzhou.aliyuncs.com/acs/csi-plugin:" +
                  (if spec.imageTag == "" then "v1.35.3" else spec.imageTag)
    && (forall name :: Resolve(p.env, name) == Effective(spec, key, name))
    && (if key.kind == Deployment then
          && p.replicas == (if spec.controller.replicas == 0 then 2 else spec.controller.replicas)
          && p.nodeSelector == (if spec.controller.nodeSelector.Some? then spec.controller.nodeSelector.value
                                else map["node-role.kubernetes.io/master" := ""])
          && p.tolerations == (if spec.controller.tolerations != [] then spec.controller.tolerations
                               else [Toleration("node-role.kubernetes.io/master", "", "", "NoSchedule")])
        else
          p.nodeSelector == map[] && p.tolerations == [Toleration("", "Exists", "", "")])
  }

  lemma {:induction false} ExtraIsLast(es: seq<EnvSpec>, name: string)
    ensures Resolve(RenderAll(es), name) ==
            if LastExtra(es, name).Some? then Some(Render(LastExtra(es, name).value)) else None
  {
    if es != [] {
      RenderHead(es, name);
      ExtraIsLast(es[1..], name);
    }
  }

  lemma {:induction false} ExtraName(es: seq<EnvSpec>, name: string)
    ensures LastExtra(es, name).Some? ==> LastExtra(es, name).value.name == name
  {
    if es != [] {
      ExtraName(es[1..], name);
    }
  }

  lemma ResolveLast(front: seq<EnvVar>, v: EnvVar, name: string)
    ensures Resolve(front + [v], name) == if v.name == name then Some(v) else Resolve(front, name)
  {
    assert (front + [v])[..|front|] == front;
  }

  // The whole environment, given what the built-in entries resolve to.
  lemma EnvIsEffective(builtin: seq<EnvVar>, spec: Spec, key: Key, name: string)
    requires Resolve(builtin, name) == BuiltIn(spec, key, name)
    ensures Resolve(PluginEnv(builtin, spec), name) == Effective(spec, key, name)
  {
    hide BuiltIn;
    var extra := RenderAll(spec.extraEnv);
    ExtraIsLast(spec.extraEnv, name);
    ExtraName(spec.extraEnv, name);
    ResolveAppend(builtin + extra, EndpointOverride(spec), name);
    ResolveAppend(builtin, extra, name);
    assert EndpointOverride(spec) == [] || EndpointOverride(spec)[..0] == [];
  }

  lemma DiskControllerBuiltIn(spec: Spec, name: string)
    ensures Resolve(DiskControllerEnv(spec), name) == BuiltIn(spec, Key(Deployment, "csi-disk-controller"), name)
  {
    var e := DiskControllerEnv(spec);
    assert e == [] + [e[0]] + [e[1]] + [e[2]];
    ResolveLast([] + [e[0]] + [e[1]], e[2], name);
    ResolveLast([] + [e[0]], e[1], name);
    ResolveLast([], e[0], name);
  }

  lemma DiskNodeBuiltIn(spec: Spec, name: string)
    ensures Resolve(DiskNodeEnv(spec), name) == BuiltIn(spec, Key(DaemonSet, "csi-disk-node"), name)
  {
    var e := DiskNodeEnv(spec);
    var a, b := [e[0], e[1], e[2]], [e[0], e[1], e[2], e[3]];
    assert e == b + [e[4]] + [e[5]] && b == a + [e[3]] && a == [] + [e[0]] + [e[1]] + [e[2]];
    ResolveLast(b + [e[4]], e[5], name);
    ResolveLast(b, e[4], name);
    ResolveLast(a, e[3], name);
    ResolveLast([] + [e[0]] + [e[1]], e[2], name);
    ResolveLast([] + [e[0]], e[1], name);
    ResolveLast([], e[0], name);
  }

  lemma NasControllerBuiltIn(spec: Spec, name: string)
    ensures Resolve(NasControllerEnv(spec), name) == BuiltIn(spec, Key(Deployment, "csi-nas-controller"), name)
  {
    var e := NasControllerEnv(spec);
    assert e == [] + [e[0]] + [e[1]];
    ResolveLast([] + [e[0]], e[1], name);
    ResolveLast([], e[0], name);
  }

  lemma NasNodeBuiltIn(spec: Spec, name: string)
    ensures Resolve(NasNodeEnv(spec), name) == BuiltIn(spec, Key(DaemonSet, "csi-nas-node"), name)
  {
    var e := NasNodeEnv(spec);
    assert e == [] + [e[0]] + [e[1]] + [e[2]] + [e[3]];
    ResolveLast([] + [e[0]] + [e[1]] + [e[2]], e[3], name);
    ResolveLast([] + [e[0]] + [e[1]], e[2], name);
    ResolveLast([] + [e[0]], e[1], name);
    ResolveLast([], e[0], name);
  }

  lemma ControllerIsPlugin(spec: Spec, app: string, builtin: seq<EnvVar>)
    requires forall name :: Resolve(builtin, name) == BuiltIn(spec, Key(Deployment, app), name)
    ensures Plugin(spec, Key(Deployment, app), ControllerPayload(spec, app, builtin))
  {
    hide BuiltIn, Effective, PluginEnv;
    forall name
      ensures Resolve(PluginEnv(builtin, spec), name) == Effective(spec, Key(Deployment, app), name)
    {
      EnvIsEffective(builtin, spec, Key(Deployment, app), name);
    }
  }

  lemma NodeIsPlugin(spec: Spec, app: string, builtin: seq<EnvVar>)
    requires forall name :: Resolve(builtin, name) == BuiltIn(spec, Key(DaemonSet, app), name)
    ensures Plugin(spec, Key(DaemonSet, app), NodePayload(spec, app, builtin))
  {
    hide BuiltIn, Effective, PluginEnv;
    forall name
      ensures Resolve(PluginEnv(builtin, spec), name) == Effective(spec, Key(DaemonSet, app), name)
    {
      EnvIsEffective(builtin, spec, Key(DaemonSet, app), name);
    }
  }

  // ---- The classes ----

  ghost predicate OnlyTrue(m: map<string, string>, on: set<string>) {
    m.Keys == on && forall k | k in m :: m[k] == "true"
  }

  // The payload of the StorageClass of a disk entry.
  ghost predicate DiskClassOf(c: DiskClass, isDefault: bool, p: Payload) {
    && p.ClassPayload?
    && p.provisioner == "diskplugin.csi.alibabacloud.com"
    && OnlyTrue(p.annotations, (if isDefault then {"storageclass.kubernetes.io/is-default-class"} else {})
                               + (if c.virtDefault then {"storageclass.kubevirt.io/is-default-virt-class"} else {}))
    && "type" in p.parameters && p.parameters["type"] == c.diskType
    && OnlyTrue(p.parameters - {"type"}, if c.encrypted then {"encrypted"} else {})
    && p.reclaimPolicy in {"Retain", "Delete"} && (p.reclaimPolicy == "Retain" <==> c.reclaimPolicy == "Retain")
    && p.allowExpansion == c.allowExpansion
    && p.bindingMode == "WaitForFirstConsumer"
  }

  // The payload of the StorageClass of a NAS entry, never the cluster default.
  ghost predicate NasClassOf(c: NasClass, p: Payload) {
    && p.ClassPayload?
    && p.provisioner == "nasplugin.csi.alibabacloud.com"
    && OnlyTrue(p.annotations, if c.virtDefault then {"storageclass.kubevirt.io/is-default-virt-class"} else {})
    && p.parameters == c.parameters
    && p.reclaimPolicy in {"Retain", "Delete"} && (p.reclaimPolicy == "Retain" <==> c.reclaimPolicy == "Retain")
    && p.allowExpansion == c.allowExpansion
    && p.bindingMode == "Immediate"
  }

  lemma DiskClassIs(c: DiskClass, isDefault: bool)
    ensures DiskClassOf(c, isDefault, DiskClassPayload(c, isDefault))
  {
    assert |"type"| == 4 && |"encrypted"| == 9 && |"Retain"| == 6 && |"Delete"| == 6 && "Retain"[0] != "Delete"[0];
  }

  lemma NasClassIs(c: NasClass)
    ensures NasClassOf(c, NasClassPayload(c))
  {
    assert |"Retain"| == 6 && |"Delete"| == 6 && "Retain"[0] != "Delete"[0];
  }

  // ---- What is created ----

  // A disk entry of the name has this payload; if the first one is to be the cluster
  // default, only the first.
  ghost predicate DiskClassNamed(spec: Spec, name: string, i: int, p: Payload) {
    && spec.disk.enabled && 0 <= i < |spec.disk.classes| && spec.disk.classes[i].name == name
    && DiskClassOf(spec.disk.classes[i], spec.disk.defaultStorageClass && i == 0, p)
  }

  ghost predicate NasClassNamed(spec: Spec, name: string, i: int, p: Payload) {
    && spec.nas.enabled && 0 <= i < |spec.nas.classes| && spec.nas.classes[i].name == name
    && NasClassOf(spec.nas.classes[i], p)
  }

  // The payload of an object as it is created, or of a workload as it is replaced.
  ghost predicate Content(spec: Spec, key: Key, p: Payload) {
    match key.kind
    case ServiceAccount => p == AccountPayload
    case ClusterRole => p == RolePayload
    case ClusterRoleBinding =>
      p == BindingPayload(if key.name == "alibabacloud-csi-privileged" then "system:openshift:scc:privileged"
                          else "alibaba-cloud-csi-role")
    case CSIDriver =>
      var disk := key.name == "diskplugin.csi.alibabacloud.com";
      p == DriverPayload(disk, disk)
    case StorageClass =>
      (exists i :: DiskClassNamed(spec, key.name, i, p)) || (exists i :: NasClassNamed(spec, key.name, i, p))
    case Deployment => Plugin(spec, key, p)
    case DaemonSet => Plugin(spec, key, p)
    case SnapshotClass => p == SnapshotPayload("diskplugin.csi.alibabacloud.com")
    case _ => false
  }

  lemma DiskContent(spec: Spec, i: nat, t: Task)
    requires DiskEntry(spec, i, t) && t.Adopt?
    ensures Content(spec, t.key, t.payload)
  {
    hide DiskClassOf, DiskClassPayload, ProfilePatch, DiskClaimSets;
    var c := spec.disk.classes[i];
    var isDefault := spec.disk.defaultStorageClass && i == 0;
    DiskClassIs(c, isDefault);
    assert DiskClassNamed(spec, c.name, i, DiskClassPayload(c, isDefault));
  }

  lemma NasContent(spec: Spec, i: nat, t: Task)
    requires NasEntry(spec, i, t) && t.Adopt?
    ensures Content(spec, t.key, t.payload)
  {
    hide NasClassOf, NasClassPayload, ProfilePatch, NasClaimSets;
    NasClassIs(spec.nas.classes[i]);
    assert NasClassNamed(spec, spec.nas.classes[i].name, i, NasClassPayload(spec.nas.classes[i]));
  }

  lemma WorkloadContent(spec: Spec, t: Task)
    requires t in DiskWorkloadTasks(spec) || t in NasWorkloadTasks(spec)
    ensures (t.Adopt? || t.Replace?) && Content(spec, t.key, t.payload)
  {
    hide ControllerPayload, NodePayload, BuiltIn, Resolve, DiskControllerEnv, DiskNodeEnv, NasControllerEnv, NasNodeEnv,
        Plugin, DiskClassNamed, NasClassNamed;
    forall name
      ensures Resolve(DiskControllerEnv(spec), name) == BuiltIn(spec, Key(Deployment, "csi-disk-controller"), name)
      ensures Resolve(DiskNodeEnv(spec), name) == BuiltIn(spec, Key(DaemonSet, "csi-disk-node"), name)
      ensures Resolve(NasControllerEnv(spec), name) == BuiltIn(spec, Key(Deployment, "csi-nas-controller"), name)
      ensures Resolve(NasNodeEnv(spec), name) == BuiltIn(spec, Key(DaemonSet, "csi-nas-node"), name)
    {
      DiskControllerBuiltIn(spec, name);
      DiskNodeBuiltIn(spec, name);
      NasControllerBuiltIn(spec, name);
      NasNodeBuiltIn(spec, name);
    }
    ControllerIsPlugin(spec, "csi-disk-controller", DiskControllerEnv(spec));
    NodeIsPlugin(spec, "csi-disk-node", DiskNodeEnv(spec));
    ControllerIsPlugin(spec, "csi-nas-controller", NasControllerEnv(spec));
    NodeIsPlugin(spec, "csi-nas-node", NasNodeEnv(spec));
    assert DISK_DRIVER[0] != NAS_DRIVER[0];
  }

  lemma FixedContent(spec: Spec, t: Task)
    requires t in RBAC_TASKS || t in SnapshotTasks(spec.disk.snapshot)
    ensures t.Admit? || ((t.Adopt? || t.Ignore?) && Content(spec, t.key, t.payload))
  {
    hide Plugin, DiskClassNamed, NasClassNamed;
    assert |"alibaba-cloud-csi-binding"| != |"alibabacloud-csi-privileged"|;
  }

  // Every payload of a plan is as the custom resource asks for it.
  lemma StepContent(spec: Spec, t: Task)
    requires t in FullPlan(spec)
    ensures t.Adopt? || t.Replace? || t.Ignore? ==> Content(spec, t.key, t.payload)
  {
    hide FullPlan, DiskEntry, NasEntry, DiskWorkloadTasks, NasWorkloadTasks, SnapshotTasks, RBAC_TASKS, Content;
    PlanDescribed(spec, t);
    if i :| DiskEntry(spec, i, t) {
      EntryBounds(spec, i, t);
      DiskSteps(spec, i, t);
      if t.Adopt? {
        DiskContent(spec, i, t);
      }
    } else if i :| NasEntry(spec, i, t) {
      EntryBounds(spec, i, t);
      NasSteps(spec, i, t);
      if t.Adopt? {
        NasContent(spec, i, t);
      }
    } else if t in RBAC_TASKS || t in SnapshotTasks(spec.disk.snapshot) {
      FixedContent(spec, t);
    } else {
      WorkloadContent(spec, t);
    }
  }

  // ---- What is patched ----

  // Unicode case folding, as far as it can yield a letter of "block": U+212A is the Kelvin
  // sign.
  function Lower(c: char): char {
    if 'A' <= c <= 'Z' then (c as int - 'A' as int + 'a' as int) as char else if c == '\U{212A}' then 'k' else c
  }

  ghost predicate SaysBlock(volumeMode: string) {
    |volumeMode| == 5 && forall i | 0 <= i < 5 :: Lower(volumeMode[i]) == "block"[i]
  }

  function ClaimSetFor(accessMode: string, volumeMode: string): Json {
    Object(map["accessModes" := Arr([Str(accessMode)]), "volumeMode" := Str(volumeMode)])
  }

  // The claim property sets of a disk entry, and of every NAS entry.
  ghost predicate DiskClaims(c: DiskClass, claims: Json) {
    if SaysBlock(c.volumeMode) then claims == Arr([ClaimSetFor("ReadWriteOnce", "Block")])
    else claims == Arr([ClaimSetFor("ReadWriteOnce", "Filesystem")])
  }

  ghost predicate NasClaims(claims: Json) {
    claims == Arr([ClaimSetFor("ReadWriteMany", "Filesystem"), ClaimSetFor("ReadWriteOnce", "Filesystem")])
  }

  lemma DiskClaimsAre(c: DiskClass)
    ensures DiskClaims(c, DiskClaimSets(c.volumeMode)) && DiskClaimSets(c.volumeMode).Arr?
  {
    var s := c.volumeMode;
    if |s| == 5 {
      assert "block"[0] == 'b' && "block"[1] == 'l' && "block"[2] == 'o' && "block"[3] == 'c' && "block"[4] == 'k';
      FoldsTo(s[0], 'b', 'B');
      FoldsTo(s[1], 'l', 'L');
      FoldsTo(s[2], 'o', 'O');
      FoldsTo(s[3], 'c', 'C');
      assert Lower(s[4]) == 'k' <==> s[4] in "kK\U{212A}";
    }
  }

  lemma FoldsTo(c: char, lower: char, upper: char)
    requires 'a' <= lower <= 'z' && lower != 'k' && upper as int == lower as int - 'a' as int + 'A' as int
    ensures Lower(c) == lower <==> c == lower || c == upper
  {
  }

  lemma NasClaimsAre()
    ensures NasClaims(NasClaimSets()) && NasClaimSets().Arr?
  {
  }

  // The snapshot class a disk profile links, "" for none.
  function LinkFor(cfg: SnapshotConfig): string {
    if cfg.className != "" then cfg.className else if cfg.enabled then "alibaba-cloud-disk-snapclass" else ""
  }

  // From one document to the other the claim property sets and the clone strategy become
  // these, the snapshot class only if one is to be linked, and nothing else changes.
  ghost predicate ProfileChange(was: Json, now: Json, claims: Json, strategy: string, link: string) {
    var f, g := SpecOf(was), SpecOf(now);
    && "claimPropertySets" in g && g["claimPropertySets"] == claims
    && "cloneStrategy" in g && g["cloneStrategy"] == Str(if strategy == "" then "csi-clone" else strategy)
    && (if link == "" then SameField(f, g, "snapshotClass")
        else "snapshotClass" in g && g["snapshotClass"] == Str(link))
    && (forall k | k !in {"claimPropertySets", "cloneStrategy", "snapshotClass"} :: SameField(f, g, k))
    && (forall k | k != "spec" :: SameField(Fields(was), Fields(now), k))
  }

  ghost predicate DiskProfileChange(spec: Spec, name: string, i: int, was: Json, now: Json) {
    && spec.disk.enabled && spec.disk.profile.patch
    && 0 <= i < |spec.disk.classes| && spec.disk.classes[i].name == name
    && exists claims :: DiskClaims(spec.disk.classes[i], claims) &&
         ProfileChange(was, now, claims, spec.disk.profile.cloneStrategy, LinkFor(spec.disk.snapshot))
  }

  ghost predicate NasProfileChange(spec: Spec, name: string, was: Json, now: Json) {
    && spec.nas.enabled && spec.nas.profile.patch && NasNamed(spec, name)
    && exists claims :: NasClaims(claims) && ProfileChange(was, now, claims, spec.nas.profile.cloneStrategy, "")
  }

  lemma PatchChange(doc: Json, cfg: ProfileConfig, claimSets: Json, link: string)
    requires claimSets.Arr?
    ensures ProfileChange(doc, Merge(doc, ProfilePatch(cfg, claimSets, link)), claimSets, cfg.cloneStrategy, link)
  {
    hide Merge, ProfilePatch, SpecOf;
    ProfilePatchMeans(doc, cfg, claimSets, link);
  }

  lemma DiskProfile(spec: Spec, i: nat, t: Task, doc: Json)
    requires DiskEntry(spec, i, t) && t.PatchIfPresent?
    ensures DiskProfileChange(spec, t.key.name, i, doc, Merge(doc, t.patch))
  {
    hide Merge, ProfilePatch, ProfileChange, DiskClaims, DiskClaimSets, SpecOf, Flat, DiskClassPayload;
    var c := spec.disk.classes[i];
    EntryBounds(spec, i, t);
    DiskSteps(spec, i, t);
    DiskPatch(spec, i, t);
    DiskClaimsAre(c);
    assert LinkedSnapshotClass(spec.disk.snapshot) == LinkFor(spec.disk.snapshot);
    PatchChange(doc, spec.disk.profile, DiskClaimSets(c.volumeMode), LinkFor(spec.disk.snapshot));
  }

  lemma NasProfile(spec: Spec, i: nat, t: Task, doc: Json)
    requires NasEntry(spec, i, t) && t.PatchIfPresent?
    ensures NasProfileChange(spec, t.key.name, doc, Merge(doc, t.patch))
  {
    hide Merge, ProfilePatch, ProfileChange, NasClaims, NasClaimSets, SpecOf, Flat, NasClassPayload;
    EntryBounds(spec, i, t);
    NasSteps(spec, i, t);
    NasPatch(spec, i, t);
    NasClaimsAre();
    PatchChange(doc, spec.nas.profile, NasClaimSets(), "");
  }

  // ---- Every write of every run ----

  // The three labels become "privileged", every other label is kept.
  ghost predicate LabelChange(was: map<string, string>, now: map<string, string>) {
    var three := {"pod-security.kubernetes.io/enforce", "pod-security.kubernetes.io/audit",
                  "pod-security.kubernetes.io/warn"};
    && now.Keys == was.Keys + three
    && forall k | k in now :: now[k] == if k in three then "privileged" else was[k]
  }

  // What a write makes of an object, field by field: one that is created, or a workload that
  // is replaced, is owned by the custom resource alone and has the content it asks for; of
  // one that exists only the owners change, and the custom resource becomes its controller;
  // a profile only in its spec; a namespace only in its labels.
  ghost predicate AsAsked(cr: Driver, e: Event) {
    e.target.OnObject? &&
    var key := e.target.key;
    OnlyAt(key, e) &&
    var was, now := Lookup(e.before, key), e.after.objects[key];
    if key.kind == StorageProfile then
      && was.Some? && now == was.value.(payload := now.payload, rv := now.rv) && now.payload.Document?
      && var doc := DocumentOf(was.value.payload);
         || (exists i :: DiskProfileChange(cr.spec, key.name, i, doc, now.payload.doc))
         || NasProfileChange(cr.spec, key.name, doc, now.payload.doc)
    else if key.kind == Namespace then
      was.Some? && now == was.value.(labels := now.labels, rv := now.rv) && LabelChange(was.value.labels, now.labels)
    else if was.None? || key.kind in {Deployment, DaemonSet} then
      now.owners == [Reference(cr)] && now.labels == map[] && Content(cr.spec, key, now.payload)
    else
      now == was.value.(owners := now.owners, rv := now.rv) && ControllerOf(now.owners) == Some(Reference(cr))
  }

  lemma LabelsChange(labels: map<string, string>)
    ensures LabelChange(labels, labels + PRIVILEGED_LABELS)
  {
  }

  lemma AdoptIsAsked(cr: Driver, key: Key, payload: Payload, e: Event)
    requires e.target == OnObject(key) && OnlyAt(key, e)
    requires key.kind !in {StorageProfile, Namespace, Deployment, DaemonSet}
    requires AdoptStep(cr, payload, Lookup(e.before, key), e.after.objects[key]) && Content(cr.spec, key, payload)
    ensures AsAsked(cr, e)
  {
    hide Content, Upsert, DiskProfileChange, NasProfileChange;
    if key in e.before.objects {
      UpsertControls(e.before.objects[key].owners, ControllerRef(cr));
    }
  }

  lemma AdmitIsAsked(cr: Driver, e: Event)
    requires Permitted(cr, Admit, e)
    ensures AsAsked(cr, e)
  {
    hide AdoptStep, DiskProfileChange, NasProfileChange, LabelChange, OnlyAt;
    if e.target.key == SCC_BINDING_KEY {
      AdoptIsAsked(cr, SCC_BINDING_KEY, SCC_BINDING, e);
    } else {
      LabelsChange(e.before.objects[NAMESPACE_KEY].labels);
    }
  }

  lemma ProfileIsAsked(cr: Driver, t: Task, e: Event)
    requires t in FullPlan(cr.spec) && t.PatchIfPresent? && t.key.kind == StorageProfile && Permitted(cr, t, e)
    ensures AsAsked(cr, e)
  {
    hide FullPlan, Merge, DiskProfileChange, NasProfileChange, DiskEntry, NasEntry, DiskWorkloadTasks, NasWorkloadTasks,
        SnapshotTasks, RBAC_TASKS;
    var doc := DocumentOf(e.before.objects[t.key].payload);
    PlanDescribed(cr.spec, t);
    if i :| DiskEntry(cr.spec, i, t) {
      EntryBounds(cr.spec, i, t);
      DiskProfile(cr.spec, i, t, doc);
    } else if i :| NasEntry(cr.spec, i, t) {
      EntryBounds(cr.spec, i, t);
      NasProfile(cr.spec, i, t, doc);
    } else {
      NoFixedPatch(cr.spec, t);
      assert false;
    }
  }

  lemma StepIsAsked(cr: Driver, t: Task, e: Event)
    requires t in FullPlan(cr.spec) && Permitted(cr, t, e)
    ensures AsAsked(cr, e)
  {
    hide FullPlan, Content, AdoptStep, Merge, DiskProfileChange, NasProfileChange, LabelChange, FlatPatches, OnlyAt;
    PlanTyped(cr.spec);
    assert Typed(t);
    match t
    case Adopt(key, payload) =>
      StepContent(cr.spec, t);
      AdoptIsAsked(cr, key, payload, e);
    case Replace(_, _) => StepContent(cr.spec, t);
    case Ignore(_, _) => StepContent(cr.spec, t);
    case PatchIfPresent(_, _) => ProfileIsAsked(cr, t, e);
    case Admit => AdmitIsAsked(cr, e);
  }

  // Whatever a pass of any run writes, with all faults, crashes, stale reads and edits, is
  // what the custom resource it read asks for.
  lemma EveryWriteIsAsked(w: World, n: nat, i: nat)
    requires WellFormed(w)
    requires |Run(w, n).log| <= i < |Run(w, n + 1).log| && Run(w, n + 1).log[i].byOperator
    requires Run(w, n + 1).log[i].target.OnObject?
    ensures ReadDriver(Restart(Run(w, n))).Some?
    ensures AsAsked(ReadDriver(Restart(Run(w, n))).value, Run(w, n + 1).log[i])
  {
    hide WellFormed, FullPlan, Permitted, Run, ReadDriver, AsAsked;
    StepOfEvent(w, n, i);
    var cr := ReadDriver(Restart(Run(w, n))).value;
    var t :| t in FullPlan(cr.spec) && Permitted(cr, t, Run(w, n + 1).log[i]);
    StepIsAsked(cr, t, Run(w, n + 1).log[i]);
  }

  // ---- What is stored in the end ----

  // An object as the operator makes it.
  ghost predicate AsCreated(cr: Driver, key: Key, b: Option<Body>) {
    && b.Some? && b.value.owners == [Reference(cr)] && b.value.labels == map[]
    && Content(cr.spec, key, b.value.payload)
  }

  lemma {:induction false} LastReplacedStep(tasks: seq<Task>, key: Key)
    requires LastReplaced(tasks, key).Some?
    ensures Replace(key, LastReplaced(tasks, key).value) in tasks
    decreases |tasks|
  {
    if LastReplaced(tasks[1..], key).Some? {
      LastReplacedStep(tasks[1..], key);
    }
  }

  lemma {:induction false} FirstAdoptedStep(tasks: seq<Task>, apis: Apis, key: Key)
    requires FirstAdopted(tasks, apis, key).Some? && key != SCC_BINDING_KEY
    ensures Adopt(key, FirstAdopted(tasks, apis, key).value) in tasks
    decreases |tasks|
  {
    if AdoptsAt(tasks[0], apis, key).None? {
      FirstAdoptedStep(tasks[1..], apis, key);
    }
  }

  lemma WantedStep(cr: Driver, apis: Apis, key: Key) returns (t: Task)
    requires Wanted(cr.spec, key)
    ensures t in FullPlan(cr.spec) && (t.Adopt? || t.Replace?) && t.key == key && Typed(t)
    ensures t.Adopt? ==> FirstAdopted(FullPlan(cr.spec), apis, key).Some?
    ensures t.Replace? ==> LastReplaced(FullPlan(cr.spec), key).Some?
  {
    hide FullPlan, Wanted, FirstAdopted, LastReplaced, Typed, FlatPatches;
    var plan := FullPlan(cr.spec);
    AsksWhatIsWanted(cr.spec, key);
    t :| t in plan && (t.Adopt? || t.Replace?) && t.key == key;
    var i :| 0 <= i < |plan| && plan[i] == t;
    PlanTyped(cr.spec);
    assert Typed(t);
    if t.Adopt? {
      SomeAdopted(plan, apis, key, i);
    } else {
      SomeReplaced(plan, key, i);
    }
  }

  // What an undisturbed pass stores: a wanted workload, whatever was there, and any other
  // wanted object that was absent, just as the custom resource asks for it.
  lemma StoredAsAsked(w: World, cr: Driver, key: Key)
    requires w.alive && w.state.driver == Some(cr) && Friendly(cr, FullPlan(cr.spec), w.state)
    requires Undisturbed(w, Pass(w).1) && Wanted(cr.spec, key)
    requires key.kind in {Deployment, DaemonSet} || key !in w.state.objects
    ensures AsCreated(cr, key, At(Pass(w).1.state, key))
  {
    hide Pass, FullPlan, Friendly, Undisturbed, Wanted, FirstAdopted, LastReplaced, Content, Place;
    UndisturbedPass(w, cr);
    var plan := FullPlan(cr.spec);
    var t := WantedStep(cr, w.state.apis, key);
    assert At(Pass(w).1.state, key) == Expected(cr, w.state.apis, key, At(w.state, key));
    if t.Adopt? {
      NotSccBinding(cr.spec, key);
      FirstAdoptedStep(plan, w.state.apis, key);
      StepContent(cr.spec, Adopt(key, FirstAdopted(plan, w.state.apis, key).value));
    } else {
      LastReplacedStep(plan, key);
      StepContent(cr.spec, Replace(key, LastReplaced(plan, key).value));
    }
  }

  lemma NotSccBinding(spec: Spec, key: Key)
    requires Wanted(spec, key)
    ensures key != SCC_BINDING_KEY
  {
    assert |"alibaba-cloud-csi-binding"| != |"alibabacloud-csi-privileged"|;
  }

  lemma {:induction false} FirstDiskIs(disk: DiskSpec, from: nat, i: nat)
    requires from <= i < |disk.classes|
    requires forall j | from <= j < i :: disk.classes[j].name != disk.classes[i].name
    ensures ClassNames.FirstDiskEntry(disk, from, disk.classes[i].name) ==
            Some(DiskClassPayload(disk.classes[i], disk.defaultStorageClass && i == 0))
    decreases i - from
  {
    hide DiskClassPayload;
    if from < i {
      FirstDiskIs(disk, from + 1, i);
    }
  }

  lemma {:induction false} FirstNasIs(nas: NasSpec, from: nat, i: nat)
    requires from <= i < |nas.classes|
    requires forall j | from <= j < i :: nas.classes[j].name != nas.classes[i].name
    ensures ClassNames.FirstNasEntry(nas, from, nas.classes[i].name) == Some(NasClassPayload(nas.classes[i]))
    decreases i - from
  {
    hide NasClassPayload;
    if from < i {
      FirstNasIs(nas, from + 1, i);
    }
  }

  lemma {:induction false} NoDiskEntry(disk: DiskSpec, from: nat, name: string)
    requires from <= |disk.classes| && forall j | from <= j < |disk.classes| :: disk.classes[j].name != name
    ensures ClassNames.FirstDiskEntry(disk, from, name) == None
    decreases |disk.classes| - from
  {
    if from < |disk.classes| {
      NoDiskEntry(disk, from + 1, name);
    }
  }

  // The StorageClass an undisturbed pass creates: that of the first disk entry of its name,
  // which is the cluster default only if it is the first of the list and the list has one.
  lemma StoredDiskClass(w: World, cr: Driver, i: nat)
    requires w.alive && w.state.driver == Some(cr) && Friendly(cr, FullPlan(cr.spec), w.state)
    requires Undisturbed(w, Pass(w).1) && cr.spec.disk.enabled && i < |cr.spec.disk.classes|
    requires forall j | 0 <= j < i :: cr.spec.disk.classes[j].name != cr.spec.disk.classes[i].name
    requires Key(StorageClass, cr.spec.disk.classes[i].name) !in w.state.objects
    ensures var b := At(Pass(w).1.state, Key(StorageClass, cr.spec.disk.classes[i].name));
            && b.Some? && b.value.owners == [Reference(cr)] && b.value.labels == map[]
            && DiskClassOf(cr.spec.disk.classes[i], cr.spec.disk.defaultStorageClass && i == 0, b.value.payload)
  {
    hide Pass, FullPlan, Friendly, Undisturbed, FirstAdopted, LastReplaced, DiskClassOf, DiskClassPayload;
    var c := cr.spec.disk.classes[i];
    UndisturbedPass(w, cr);
    ClassNames.FirstEntryWins(cr.spec, w.state.apis, c.name);
    FirstDiskIs(cr.spec.disk, 0, i);
    DiskClassIs(c, cr.spec.disk.defaultStorageClass && i == 0);
    var key := Key(StorageClass, c.name);
    assert At(Pass(w).1.state, key) == Expected(cr, w.state.apis, key, At(w.state, key));
  }

  // The same for NAS, if no enabled disk entry has the name.
  lemma StoredNasClass(w: World, cr: Driver, i: nat)
    requires w.alive && w.state.driver == Some(cr) && Friendly(cr, FullPlan(cr.spec), w.state)
    requires Undisturbed(w, Pass(w).1) && cr.spec.nas.enabled && i < |cr.spec.nas.classes|
    requires forall j | 0 <= j < i :: cr.spec.nas.classes[j].name != cr.spec.nas.classes[i].name
    requires cr.spec.disk.enabled ==> !DiskNamed(cr.spec, cr.spec.nas.classes[i].name)
    requires Key(StorageClass, cr.spec.nas.classes[i].name) !in w.state.objects
    ensures var b := At(Pass(w).1.state, Key(StorageClass, cr.spec.nas.classes[i].name));
            && b.Some? && b.value.owners == [Reference(cr)] && b.value.labels == map[]
            && NasClassOf(cr.spec.nas.classes[i], b.value.payload)
  {
    hide Pass, FullPlan, Friendly, Undisturbed, FirstAdopted, LastReplaced, NasClassOf, NasClassPayload,
        DiskClassPayload;
    var c := cr.spec.nas.classes[i];
    UndisturbedPass(w, cr);
    ClassNames.FirstEntryWins(cr.spec, w.state.apis, c.name);
    FirstNasIs(cr.spec.nas, 0, i);
    if cr.spec.disk.enabled {
      NoDiskEntry(cr.spec.disk, 0, c.name);
    }
    NasClassIs(c);
    var key := Key(StorageClass, c.name);
    assert At(Pass(w).1.state, key) == Expected(cr, w.state.apis, key, At(w.state, key));
  }

  // The script neither writes nor removes the object.
  ghost predicate NeverTouched(script: seq<Turn>, key: Key) {
    forall i, j | 0 <= i < |script| && 0 <= j < |script[i].edits| ::
      var edit := script[i].edits[j]; !(edit.Put? && edit.key == key) && edit != Remove(key)
  }

  lemma EditLeavesAlone(script: seq<Turn>, name: string, key: Key, e: Event)
    requires FromScript(script, name, e) && NeverTouched(script, key)
    ensures NilPass.Untouched(key, e)
  {
    var i, j :| 0 <= i < |script| && 0 <= j < |script[i].edits| && Made(script[i].edits[j], name, e);
    var edit := script[i].edits[j];
    assert !(edit.Put? && edit.key == key) && edit != Remove(key);
  }

  lemma ScriptLeavesAlone(w: World, mid: World, last: World, key: Key)
    requires Reaches(w, last) && |w.log| <= |mid.log| && mid.log <= last.log && NeverTouched(w.script, key)
    ensures NilPass.LeftAlone(key, mid, last)
  {
    hide WellFormed, Path, Extends, FromScript, NeverTouched, FreshUids, NilPass.Untouched;
    forall i | |mid.log| <= i < |last.log| && !last.log[i].byOperator
      ensures NilPass.Untouched(key, last.log[i])
    {
      assert last.log[i] == Trace(w, last)[i - |w.log|];
      EditLeavesAlone(w.script, w.name, key, last.log[i]);
    }
  }

  // After a pass that returned nil on fresh reads, whatever faults it met: a wanted workload
  // that others leave alone is stored as the custom resource asks for it.
  lemma NilStoresWorkload(w: World, cr: Driver, key: Key)
    requires WellFormed(w) && FreshReads(w.script) && ReadDriver(w) == Some(cr) && Pass(w).0 == None
    requires Wanted(cr.spec, key) && key.kind in {Deployment, DaemonSet} && NeverTouched(w.script, key)
    ensures AsCreated(cr, key, At(Pass(w).1.state, key))
  {
    hide WellFormed, FreshReads, Pass, FullPlan, Wanted, NeverTouched, ReadDriver, Content, After, Reaches, Do,
        NilPass.Rewritten, NilPass.LeftAlone, PlannedBy, OperatorShape;
    var t := WantedStep(cr, w.state.apis, key);
    var m :| 0 <= m < |FullPlan(cr.spec)| && FullPlan(cr.spec)[m] == t;
    var mid := After(Do(w, GetDriver).1, cr, FullPlan(cr.spec), m + 1);
    NilPass.NilLeavesExactly(w, cr, m);
    NilPass.AfterStep(w, cr, m);
    PassReaches(w);
    StartOfStep(w, cr, m);
    ScriptLeavesAlone(w, mid, Pass(w).1, key);
    StepContent(cr.spec, t);
  }

  lemma StartOfStep(w: World, cr: Driver, m: nat)
    requires m < |FullPlan(cr.spec)|
    ensures |w.log| <= |After(Do(w, GetDriver).1, cr, FullPlan(cr.spec), m + 1).log|
  {
    hide FullPlan, Reaches, Do, RunAll;
    var got := Do(w, GetDriver).1;
    DoReaches(w, GetDriver);
    RunAllReaches(got, cr, FullPlan(cr.spec)[..m + 1]);
    LogGrows(w, got);
    LogGrows(got, After(got, cr, FullPlan(cr.spec), m + 1));
  }
}
