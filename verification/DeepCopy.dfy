/**
 api/v1alpha1/zz_generated.deepcopy.go, on the heap. Go structs are datatypes, which are
 copied by assignment like the structs; slices, maps and references stay references. A nil
 one is null, which an empty one is not.
 */
module DeepCopy {
  import opened Base

  class SecretKeySelector {
    var name: string
    var key: string

    constructor (name: string, key: string)
      ensures this.name == name && this.key == key
    {
      this.name, this.key := name, key;
    }
  }

  class StringMap {
    var entries: map<string, string>

    constructor ()
      ensures entries == map[]
    {
      entries := map[];
    }
  }

  datatype EnvVarSpec = EnvVarSpec(name: string, value: string, secretKeyRef: SecretKeySelector?)

  datatype TolerationSpec = TolerationSpec(key: string, operator: string, value: string, effect: string)

  datatype ControllerSpec = ControllerSpec(replicas: int, nodeSelector: StringMap?, tolerations: array?<TolerationSpec>)

  datatype SnapshotConfig = SnapshotConfig(enabled: bool, className: string)

  datatype StorageProfileConfig = StorageProfileConfig(patch: bool, cloneStrategy: string)

  datatype DiskStorageClassSpec = DiskStorageClassSpec(
    name: string, diskType: string, reclaimPolicy: string, allowVolumeExpansion: bool,
    virtDefault: bool, encrypted: bool, volumeMode: string)

  datatype DiskSpec = DiskSpec(
    enabled: bool, defaultStorageClass: bool, storageClasses: array?<DiskStorageClassSpec>,
    snapshot: SnapshotConfig, storageProfile: StorageProfileConfig)

  datatype NASStorageClassSpec = NASStorageClassSpec(
    name: string, volumeAs: string, storageType: string, fileSystemType: string, regionID: string,
    zoneID: string, vpcID: string, vSwitchID: string, server: string, mountProtocol: string,
    reclaimPolicy: string, allowVolumeExpansion: bool, virtDefault: bool)

  datatype NASSpec = NASSpec(enabled: bool, storageClasses: array?<NASStorageClassSpec>,
      storageProfile: StorageProfileConfig)

  datatype OSSSpec = OSSSpec(enabled: bool)

  datatype AuthSpec = AuthSpec(ramToken: string)

  datatype Spec = Spec(
    disk: DiskSpec, nas: NASSpec, oss: OSSSpec, imageTag: string, ecsEndpoint: string,
    extraEnv: array?<EnvVarSpec>, auth: AuthSpec, controller: ControllerSpec)

  datatype CSIDriverCondition = CSIDriverCondition(
    ctype: string, status: string, lastTransitionTime: int, reason: string, message: string)

  datatype Status = Status(
    conditions: array?<CSIDriverCondition>, observedGeneration: int, diskDriverReady: bool,
    nasDriverReady: bool, ossDriverReady: bool)

  // ---- What a value reaches, and what it means ----

  datatype EnvView = EnvView(name: string, value: string, secret: Option<(string, string)>)

  datatype ControllerView = ControllerView(
    replicas: int, nodeSelector: Option<map<string, string>>, tolerations: Option<seq<TolerationSpec>>)

  datatype DiskView = DiskView(
    enabled: bool, defaultStorageClass: bool, storageClasses: Option<seq<DiskStorageClassSpec>>,
    snapshot: SnapshotConfig, storageProfile: StorageProfileConfig)

  datatype NASView = NASView(enabled: bool, storageClasses: Option<seq<NASStorageClassSpec>>,
      storageProfile: StorageProfileConfig)

  datatype SpecView = SpecView(
    disk: DiskView, nas: NASView, oss: OSSSpec, imageTag: string, ecsEndpoint: string,
    extraEnv: Option<seq<EnvView>>, auth: AuthSpec, controller: ControllerView)

  datatype StatusView = StatusView(
    conditions: Option<seq<CSIDriverCondition>>, observedGeneration: int, diskDriverReady: bool,
    nasDriverReady: bool, ossDriverReady: bool)

  ghost function Slot(o: object?): set<object> {
    if o == null then {} else {o}
  }

  ghost function Elements<T>(a: array?<T>): Option<seq<T>>
    reads a
  {
    if a == null then None else Some(a[..])
  }

  ghost function SecretOf(e: EnvVarSpec): Option<(string, string)>
    reads e.secretKeyRef
  {
    if e.secretKeyRef == null then None else Some((e.secretKeyRef.name, e.secretKeyRef.key))
  }

  ghost function EnvViewOf(e: EnvVarSpec): EnvView
    reads e.secretKeyRef
  {
    EnvView(e.name, e.value, SecretOf(e))
  }

  ghost function Secrets(env: seq<EnvVarSpec>): set<object> {
    set e | e in env && e.secretKeyRef != null :: e.secretKeyRef as object
  }

  ghost function EnvReach(env: array?<EnvVarSpec>): set<object>
    reads env
  {
    if env == null then {} else {env} + Secrets(env[..])
  }

  ghost function EnvViews(env: seq<EnvVarSpec>): (views: seq<EnvView>)
    reads Secrets(env)
    ensures |views| == |env|
    ensures forall i | 0 <= i < |env| :: views[i] == EnvViewOf(env[i])
  {
    if env == [] then []
    else
      var last := env[|env| - 1];
      assert Secrets(env[..|env| - 1]) <= Secrets(env);
      assert last.secretKeyRef != null ==> last.secretKeyRef in Secrets(env) by {
        assert last in env;
      }
      EnvViews(env[..|env| - 1]) + [EnvViewOf(last)]
  }

  ghost function EnvViewsOf(env: array?<EnvVarSpec>): Option<seq<EnvView>>
    reads env, EnvReach(env)
  {
    if env == null then None else Some(EnvViews(env[..]))
  }

  ghost function ControllerReach(c: ControllerSpec): set<object> {
    Slot(c.nodeSelector) + Slot(c.tolerations)
  }

  ghost function ControllerViewOf(c: ControllerSpec): ControllerView
    reads c.nodeSelector, c.tolerations
  {
    ControllerView(c.replicas, if c.nodeSelector == null then None else Some(c.nodeSelector.entries),
        Elements(c.tolerations))
  }

  ghost function DiskViewOf(d: DiskSpec): DiskView
    reads d.storageClasses
  {
    DiskView(d.enabled, d.defaultStorageClass, Elements(d.storageClasses), d.snapshot, d.storageProfile)
  }

  ghost function NASViewOf(n: NASSpec): NASView
    reads n.storageClasses
  {
    NASView(n.enabled, Elements(n.storageClasses), n.storageProfile)
  }

  ghost function SpecReach(s: Spec): set<object>
    reads s.extraEnv
  {
    Slot(s.disk.storageClasses) + Slot(s.nas.storageClasses) + EnvReach(s.extraEnv) + ControllerReach(s.controller)
  }

  ghost function SpecViewOf(s: Spec): SpecView
    reads s.extraEnv, SpecReach(s)
  {
    SpecView(DiskViewOf(s.disk), NASViewOf(s.nas), s.oss, s.imageTag, s.ecsEndpoint, EnvViewsOf(s.extraEnv), s.auth,
             ControllerViewOf(s.controller))
  }

  ghost function StatusViewOf(s: Status): StatusView
    reads s.conditions
  {
    StatusView(Elements(s.conditions), s.observedGeneration, s.diskDriverReady, s.nasDriverReady, s.ossDriverReady)
  }

  // ---- What it is to mean the same, field by field ----

  ghost predicate SameSlice<T>(a: array?<T>, b: array?<T>)
    reads a, b
  {
    if a == null then b == null else b != null && a[..] == b[..]
  }

  ghost predicate SameSecret(a: SecretKeySelector?, b: SecretKeySelector?)
    reads a, b
  {
    if a == null then b == null else b != null && a.name == b.name && a.key == b.key
  }

  ghost predicate SameVar(e: EnvVarSpec, f: EnvVarSpec)
    reads e.secretKeyRef, f.secretKeyRef
  {
    e.name == f.name && e.value == f.value && SameSecret(e.secretKeyRef, f.secretKeyRef)
  }

  ghost predicate SameEnv(a: array?<EnvVarSpec>, b: array?<EnvVarSpec>)
    reads a, b, EnvReach(a), EnvReach(b)
  {
    if a == null then b == null
    else
      && b != null && a.Length == b.Length
      && forall i | 0 <= i < a.Length :: a[i] in a[..] && b[i] in b[..] && SameVar(a[i], b[i])
  }

  ghost predicate SameMap(a: StringMap?, b: StringMap?)
    reads a, b
  {
    if a == null then b == null else b != null && a.entries == b.entries
  }

  // The same in every field that is no slice, map or reference, and alike in those.
  ghost predicate Alike(s: Spec, t: Spec)
    reads s.extraEnv, t.extraEnv, SpecReach(s), SpecReach(t)
  {
    && t == s.(
      disk := s.disk.(storageClasses := t.disk.storageClasses),
      nas := s.nas.(storageClasses := t.nas.storageClasses),
      extraEnv := t.extraEnv,
      controller := s.controller.(nodeSelector := t.controller.nodeSelector, tolerations := t.controller.tolerations))
    && SameSlice(s.disk.storageClasses, t.disk.storageClasses)
    && SameSlice(s.nas.storageClasses, t.nas.storageClasses)
    && SameEnv(s.extraEnv, t.extraEnv)
    && SameMap(s.controller.nodeSelector, t.controller.nodeSelector)
    && SameSlice(s.controller.tolerations, t.controller.tolerations)
  }

  lemma SameEnvViews(a: array?<EnvVarSpec>, b: array?<EnvVarSpec>)
    ensures EnvViewsOf(a) == EnvViewsOf(b) <==> SameEnv(a, b)
  {
    hide EnvViews;
    if a != null && b != null && a.Length == b.Length {
      var es, fs := a[..], b[..];
      forall i | 0 <= i < a.Length
        ensures EnvViewOf(es[i]) == EnvViewOf(fs[i]) <==> SameVar(a[i], b[i])
      {
      }
      if SameEnv(a, b) {
        SameViews(es, fs);
      } else {
        assert forall i | 0 <= i < |es| :: EnvViews(es)[i] == EnvViewOf(es[i]);
        assert forall i | 0 <= i < |fs| :: EnvViews(fs)[i] == EnvViewOf(fs[i]);
      }
    }
  }

  // Two specs mean the same exactly when they are alike.
  lemma MeansAlike(s: Spec, t: Spec)
    ensures SpecViewOf(s) == SpecViewOf(t) <==> Alike(s, t)
  {
    hide EnvViewsOf, SameEnv, EnvReach;
    SameEnvViews(s.extraEnv, t.extraEnv);
  }

  // The same for the status.
  lemma StatusMeansAlike(s: Status, t: Status)
    ensures StatusViewOf(s) == StatusViewOf(t) <==>
            t == s.(conditions := t.conditions) && SameSlice(s.conditions, t.conditions)
  {
  }

  // ---- A value depends on nothing but what it reaches ----

  twostate lemma EnvKept(env: array?<EnvVarSpec>)
    requires forall o: object | old(allocated(o)) && o in old(EnvReach(env)) :: unchanged(o)
    ensures EnvViewsOf(env) == old(EnvViewsOf(env)) && EnvReach(env) == old(EnvReach(env))
  {
    if env != null {
      assert env in old(EnvReach(env));
      ghost var es := old(env[..]);
      assert env[..] == es;
      forall i | 0 <= i < |es|
        ensures EnvViewOf(es[i]) == old(EnvViewOf(es[i]))
      {
        assert es[i] in es;
        assert es[i].secretKeyRef != null ==> es[i].secretKeyRef in old(EnvReach(env));
      }
      assert EnvViews(es) == old(EnvViews(es));
    }
  }

  twostate lemma SpecKept(s: Spec)
    requires forall o: object | old(allocated(o)) && o in old(SpecReach(s)) :: unchanged(o)
    ensures SpecViewOf(s) == old(SpecViewOf(s)) && SpecReach(s) == old(SpecReach(s))
  {
    hide EnvReach, EnvViewsOf;
    assert forall o: object | o in old(EnvReach(s.extraEnv)) :: o in old(SpecReach(s));
    EnvKept(s.extraEnv);
    var disk, nas, selector, tolerations := s.disk.storageClasses, s.nas.storageClasses, s.controller.nodeSelector,
        s.controller.tolerations;
    assert disk != null ==> disk in old(SpecReach(s));
    assert nas != null ==> nas in old(SpecReach(s));
    assert selector != null ==> selector in old(SpecReach(s));
    assert tolerations != null ==> tolerations in old(SpecReach(s));
  }

  lemma EnvIsAllocated(env: array?<EnvVarSpec>)
    ensures forall o: object | o in EnvReach(env) :: allocated(o)
  {
  }

  lemma ReachIsAllocated(s: Spec)
    ensures forall o: object | o in SpecReach(s) :: allocated(o) && !(o is AlibabaCloudCSIDriver)
  {
  }

  // ---- DeepCopyInto; the out-parameter is the memory out points to ----

  // make, then the built-in copy.
  method CopySlice<T(0)>(a: array<T>) returns (b: array<T>)
    ensures fresh(b) && b[..] == a[..]
  {
    b := new T[a.Length];
    var i := 0;
    while i < a.Length
      invariant i <= a.Length
      invariant b[..i] == a[..i]
      modifies b
    {
      b[i] := a[i];
      i := i + 1;
    }
  }

  method CopyEnvVarSpec(e: EnvVarSpec) returns (out: EnvVarSpec)
    ensures EnvViewOf(out) == EnvViewOf(e)
    ensures out.secretKeyRef != null ==> fresh(out.secretKeyRef)
  {
    out := e;
    if e.secretKeyRef != null {
      var copy := new SecretKeySelector(e.secretKeyRef.name, e.secretKeyRef.key);
      out := out.(secretKeyRef := copy);
    }
  }

  lemma SameViews(a: seq<EnvVarSpec>, b: seq<EnvVarSpec>)
    requires |a| == |b| && forall i | 0 <= i < |a| :: EnvViewOf(a[i]) == EnvViewOf(b[i])
    ensures EnvViews(a) == EnvViews(b)
  {
  }

  method CopyEnv(env: array<EnvVarSpec>) returns (out: array<EnvVarSpec>)
    ensures fresh(out) && fresh(Secrets(out[..]))
    ensures EnvViews(out[..]) == EnvViews(env[..])
  {
    hide EnvViews;
    out := new EnvVarSpec[env.Length];
    var i := 0;
    while i < env.Length
      invariant i <= env.Length
      invariant forall k | 0 <= k < i :: out[k].secretKeyRef != null ==> fresh(out[k].secretKeyRef)
      invariant forall k | 0 <= k < i :: EnvViewOf(out[k]) == EnvViewOf(env[k])
      modifies out
    {
      var e := CopyEnvVarSpec(env[i]);
      out[i] := e;
      i := i + 1;
    }
    SameViews(out[..], env[..]);
  }

  lemma CopiedOne(from: map<string, string>, todo: set<string>, key: string)
    requires key in todo && todo <= from.Keys
    ensures (from - todo)[key := from[key]] == from - (todo - {key})
  {
  }

  method CopyMap(m: StringMap) returns (out: StringMap)
    ensures fresh(out) && out.entries == m.entries
  {
    out := new StringMap();
    var todo := m.entries.Keys;
    while todo != {}
      invariant todo <= m.entries.Keys
      invariant out.entries == m.entries - todo
      modifies out
      decreases |todo|
    {
      var key :| key in todo;
      CopiedOne(m.entries, todo, key);
      out.entries := out.entries[key := m.entries[key]];
      todo := todo - {key};
    }
  }

  method CopyControllerSpec(c: ControllerSpec) returns (out: ControllerSpec)
    ensures ControllerViewOf(out) == ControllerViewOf(c)
    ensures fresh(ControllerReach(out))
  {
    out := c;
    if c.nodeSelector != null {
      var copy := CopyMap(c.nodeSelector);
      out := out.(nodeSelector := copy);
    }
    if c.tolerations != null {
      var copy := CopySlice(c.tolerations);
      out := out.(tolerations := copy);
    }
  }

  method CopyDiskSpec(d: DiskSpec) returns (out: DiskSpec)
    ensures DiskViewOf(out) == DiskViewOf(d)
    ensures fresh(Slot(out.storageClasses))
  {
    out := d;
    if d.storageClasses != null {
      var copy := CopySlice(d.storageClasses);
      out := out.(storageClasses := copy);
    }
  }

  method CopyNASSpec(n: NASSpec) returns (out: NASSpec)
    ensures NASViewOf(out) == NASViewOf(n)
    ensures fresh(Slot(out.storageClasses))
  {
    out := n;
    if n.storageClasses != null {
      var copy := CopySlice(n.storageClasses);
      out := out.(storageClasses := copy);
    }
  }

  method CopyExtraEnv(env: array?<EnvVarSpec>) returns (out: array?<EnvVarSpec>)
    ensures EnvViewsOf(out) == EnvViewsOf(env)
    ensures fresh(EnvReach(out))
  {
    out := null;
    if env != null {
      out := CopyEnv(env);
    }
  }

  method CopySpec(s: Spec) returns (out: Spec)
    ensures SpecViewOf(out) == SpecViewOf(s)
    ensures fresh(SpecReach(out))
  {
    hide EnvViews, EnvViewsOf, EnvReach;
    EnvIsAllocated(s.extraEnv);
    out := s;
    var disk := CopyDiskSpec(s.disk);
    out := out.(disk := disk);
    var nas := CopyNASSpec(s.nas);
    out := out.(nas := nas);
    out := out.(oss := s.oss);
    var env := CopyExtraEnv(s.extraEnv);
    out := out.(extraEnv := env);
    EnvIsAllocated(env);
    EnvIsAllocated(s.extraEnv);
    label Before:
    out := out.(auth := s.auth);
    var controller := CopyControllerSpec(s.controller);
    out := out.(controller := controller);
    EnvKept@Before(env);
    EnvKept@Before(s.extraEnv);
  }

  method CopyStatus(s: Status) returns (out: Status)
    ensures StatusViewOf(out) == StatusViewOf(s)
    ensures fresh(Slot(out.conditions))
  {
    out := s;
    if s.conditions != null {
      var copy := CopySlice(s.conditions);
      out := out.(conditions := copy);
    }
  }

  // ---- The custom resource ----

  class AlibabaCloudCSIDriver {
    var name: string
    var generation: int
    var spec: Spec
    var status: Status

    ghost function Reach(): set<object>
      reads this, spec.extraEnv
    {
      {this} + SpecReach(spec) + Slot(status.conditions)
    }

    ghost function View(): (string, int, SpecView, StatusView)
      reads this, spec.extraEnv, Reach()
    {
      (name, generation, SpecViewOf(spec), StatusViewOf(status))
    }

    constructor (name: string, generation: int, spec: Spec, status: Status)
      ensures this.name == name && this.generation == generation && this.spec == spec && this.status == status
    {
      this.name, this.generation, this.spec, this.status := name, generation, spec, status;
    }

    // The copy means the same and shares nothing mutable with the original.
    method DeepCopy() returns (out: AlibabaCloudCSIDriver)
      ensures fresh(out.Reach())
      ensures out.View() == old(View())
      ensures View() == old(View()) && Reach() == old(Reach())
    {
      hide SpecViewOf, SpecReach;
      ReachIsAllocated(this.spec);
      var spec := CopySpec(this.spec);
      ReachIsAllocated(spec);
      SpecKept(this.spec);
      label Before:
      var status := CopyStatus(this.status);
      out := new AlibabaCloudCSIDriver(name, generation, spec, status);
      SpecKept@Before(spec);
      SpecKept(this.spec);
    }
  }

  // Whatever is later done to things one of two separate values reaches, the other does
  // not see.
  twostate lemma NotVisible(d: AlibabaCloudCSIDriver, changed: AlibabaCloudCSIDriver)
    requires old(d.Reach()) !! old(changed.Reach())
    requires forall o: object | old(allocated(o)) && o in old(d.Reach()) && o !in old(changed.Reach()) :: unchanged(o)
    ensures d.View() == old(d.View()) && d.Reach() == old(d.Reach())
  {
    hide SpecViewOf, SpecReach;
    assert d in old(d.Reach());
    assert forall o: object | o in old(SpecReach(d.spec)) :: o in old(d.Reach());
    SpecKept(d.spec);
    var conditions := d.status.conditions;
    assert conditions != null ==> conditions in old(d.Reach());
  }

  // Reconcile keeps a copy as the base of its status patch and then writes the status:
  // the base still shows the object as it was read.
  method SetStatus(cr: AlibabaCloudCSIDriver, conditions: array<CSIDriverCondition>, diskReady: bool, nasReady: bool)
    returns (base: AlibabaCloudCSIDriver)
    modifies cr
    ensures base.View() == old(cr.View())
    ensures cr.View() == old(cr.View()).(3 := StatusView(Some(conditions[..]), cr.generation, diskReady, nasReady, false))
    ensures base.Reach() !! cr.Reach()
  {
    hide SpecViewOf, SpecReach;
    ReachIsAllocated(cr.spec);
    base := cr.DeepCopy();
    ReachIsAllocated(base.spec);
    label Before:
    cr.status := cr.status.(observedGeneration := cr.generation);
    cr.status := cr.status.(diskDriverReady := diskReady);
    cr.status := cr.status.(nasDriverReady := nasReady);
    cr.status := cr.status.(ossDriverReady := false);
    cr.status := cr.status.(conditions := conditions);
    SpecKept@Before(base.spec);
    SpecKept(cr.spec);
  }
}
