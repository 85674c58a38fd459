/**
 The API server as the operator meets it: a versioned object store, the one custom
 resource, and everything that can happen between two calls.

 A world carries a script. Every API call consumes one turn of it: the edits other
 clients make before the call is served, whether the call fails or the operator dies
 around it, and how far behind a cached read is. A lemma about all worlds is therefore
 a lemma about all interleavings. An exhausted script leaves the operator undisturbed.
 */
module Cluster {
  import opened Base
  import opened DriverTypes
  import opened DriverEnv
  import opened MergePatch

  datatype Kind =
    | ServiceAccount
    | ClusterRole
    | ClusterRoleBinding
    | CSIDriver
    | StorageClass
    | Deployment
    | DaemonSet
    | SnapshotClass
    | StorageProfile
    | Namespace
    | OtherKind(kind: string)

  // The namespaced kinds live in kube-system; objects elsewhere fall under OtherKind.
  datatype Key = Key(kind: Kind, name: string)

  datatype OwnerRef = OwnerRef(group: string, kind: string, name: string, uid: nat, controller: bool)

  datatype Payload =
    | AccountPayload
    | RolePayload
    | BindingPayload(roleName: string)
    | DriverPayload(attachRequired: bool, seLinuxMount: bool)
    | ClassPayload(
        provisioner: string, annotations: map<string, string>, parameters: map<string, string>,
        reclaimPolicy: string, allowExpansion: bool, bindingMode: string)
    | WorkloadPayload(
        app: string, image: string, env: seq<EnvVar>, replicas: int,
        nodeSelector: map<string, string>, tolerations: seq<Toleration>)
    | SnapshotPayload(driver: string)
    | Document(doc: Json)
    | Foreign(content: string)

  // A manifest that was never stored has uid and resourceVersion 0.
  datatype Obj = Obj(
    uid: nat, rv: nat, owners: seq<OwnerRef>, labels: map<string, string>, payload: Payload)

  // sccKinds: the kinds of security.openshift.io/v1, None if the group is not served.
  datatype Apis = Apis(sccKinds: Option<seq<string>>, snapshots: bool, cdi: bool)

  datatype State = State(objects: map<Key, Obj>, driver: Option<Driver>, apis: Apis, now: nat)

  const SCC_KIND := "SecurityContextConstraints"

  predicate SccServed(apis: Apis) {
    apis.sccKinds.Some? && SCC_KIND in apis.sccKinds.value
  }

  // What other clients of the API server may do.
  datatype Edit =
    | Put(key: Key, owners: seq<OwnerRef>, labels: map<string, string>, payload: Payload)
    | Remove(key: Key)
    | PutSpec(spec: Spec)
    | RemoveDriver
    | Serve(apis: Apis)
    | Tick(seconds: nat)

  datatype Fault =
    | NoFault
    | Reject       // the call fails without effect
    | LostReply    // the call takes effect but the caller sees a failure
    | CrashBefore  // the operator dies before the call is served
    | CrashAfter   // the operator dies after the call took effect

  datatype Turn = Turn(edits: seq<Edit>, fault: Fault, lag: nat)

  const CALM := Turn([], NoFault, 0)

  datatype Target = OnObject(key: Key) | OnDriver | OnCluster

  datatype Event = Event(byOperator: bool, target: Target, before: State, after: State)

  datatype Version = Version(key: Key, obj: Obj)

  // `versions` records what each resourceVersion ever stood for, `log` every change.
  datatype World = World(
    name: string, hasConfig: bool, state: State, clock: nat, versions: map<nat, Version>,
    script: seq<Turn>, log: seq<Event>, alive: bool)

  datatype Request =
    | GetObject(key: Key)
    | GetDriver
    | Create(key: Key, obj: Obj)
    | Update(key: Key, obj: Obj)
    | PatchProfile(key: Key, patch: Json)
    | PatchStatus(base: Status, next: Status)
    | MapScc
    | DiscoverScc

  datatype Reply =
    | Done
    | Found(obj: Obj)
    | FoundDriver(driver: Driver)
    | Kinds(kinds: seq<string>)
    | Failed(err: Error)

  function ErrorOf(r: Reply): Option<Error> {
    if r.Failed? then Some(r.err) else None
  }

  // ---- Changing the state ----

  function Commit(w: World, byOperator: bool, target: Target, s: State): World {
    w.(state := s, log := w.log + [Event(byOperator, target, w.state, s)])
  }

  // Every write of an object stamps it with a version never used before.
  function Write(w: World, byOperator: bool, key: Key, obj: Obj): World {
    var stamped := obj.(rv := w.clock);
    Commit(w.(clock := w.clock + 1, versions := w.versions[w.clock := Version(key, stamped)]),
           byOperator, OnObject(key), w.state.(objects := w.state.objects[key := stamped]))
  }

  function ApplyEdit(w: World, e: Edit): World {
    match e
    case Put(key, owners, labels, payload) =>
      var uid := if key in w.state.objects then w.state.objects[key].uid else w.clock;
      Write(w, false, key, Obj(uid, 0, owners, labels, payload))
    case Remove(key) =>
      Commit(w, false, OnObject(key), w.state.(objects := w.state.objects - {key}))
    case PutSpec(spec) =>
      if w.state.driver.None? then
        Commit(w.(clock := w.clock + 1), false, OnDriver,
               w.state.(driver := Some(Driver(w.name, w.clock, 1, spec, EMPTY_STATUS))))
      else
        var d := w.state.driver.value;
        var generation := if spec == d.spec then d.generation else d.generation + 1;
        Commit(w, false, OnDriver, w.state.(driver := Some(d.(generation := generation, spec := spec))))
    case RemoveDriver => Commit(w, false, OnDriver, w.state.(driver := None))
    case Serve(apis) => Commit(w, false, OnCluster, w.state.(apis := apis))
    case Tick(n) => Commit(w, false, OnCluster, w.state.(now := w.state.now + n))
  }

  function ApplyEdits(w: World, edits: seq<Edit>): World
    decreases |edits|
  {
    if edits == [] then w else ApplyEdits(ApplyEdit(w, edits[0]), edits[1..])
  }

  // ---- Serving one request ----

  // What a read that lags behind sees.
  function View(w: World, lag: nat): State {
    if lag == 0 || w.log == [] then w.state
    else if lag <= |w.log| then w.log[|w.log| - lag].before
    else w.log[0].before
  }

  // The status merge patch only carries the fields in which next differs from base.
  function MergeStatus(live: Status, base: Status, next: Status): Status {
    Status(
      if next.observedGeneration == base.observedGeneration then live.observedGeneration else next.observedGeneration,
      if next.diskReady == base.diskReady then live.diskReady else next.diskReady,
      if next.nasReady == base.nasReady then live.nasReady else next.nasReady,
      if next.ossReady == base.ossReady then live.ossReady else next.ossReady,
      if next.conditions == base.conditions then live.conditions else next.conditions)
  }

  function DocumentOf(p: Payload): Json {
    if p.Document? then p.doc else Object(map[])
  }

  function Patched(o: Obj, patch: Json): Obj {
    o.(payload := Document(Merge(DocumentOf(o.payload), patch)))
  }

  function Effect(w: World, req: Request, lag: nat): (Reply, World) {
    var objects := w.state.objects;
    match req
    case GetObject(key) =>
      var seen := View(w, lag);
      if key.kind == StorageProfile && !w.state.apis.cdi then (Failed(NoMatch), w)
      else if key !in seen.objects then (Failed(NotFound), w)
      else (Found(seen.objects[key]), w)
    case GetDriver =>
      var seen := View(w, lag);
      if seen.driver.None? then (Failed(NotFound), w) else (FoundDriver(seen.driver.value), w)
    case Create(key, obj) =>
      if key.kind == SnapshotClass && !w.state.apis.snapshots then (Failed(NoMatch), w)
      else if obj.rv != 0 then (Failed(Invalid), w)
      else if key in objects then (Failed(AlreadyExists), w)
      else (Done, Write(w, true, key, obj.(uid := w.clock)))
    case Update(key, obj) =>
      if key !in objects then (Failed(NotFound), w)
      else if obj.rv != objects[key].rv then (Failed(Conflict), w)
      else (Done, Write(w, true, key, obj.(uid := objects[key].uid)))
    case PatchProfile(key, patch) =>
      if !w.state.apis.cdi then (Failed(NoMatch), w)
      else if key !in objects then (Failed(NotFound), w)
      else (Done, Write(w, true, key, Patched(objects[key], patch)))
    case PatchStatus(base, next) =>
      if w.state.driver.None? then (Failed(NotFound), w)
      else
        var d := w.state.driver.value;
        (Done, Commit(w, true, OnDriver, w.state.(driver := Some(d.(status := MergeStatus(d.status, base, next))))))
    case MapScc =>
      if SccServed(View(w, lag).apis) then (Done, w) else (Failed(NoMatch), w)
    case DiscoverScc =>
      if w.state.apis.sccKinds.None? then (Failed(NotFound), w) else (Kinds(w.state.apis.sccKinds.value), w)
  }

  function Head(script: seq<Turn>): Turn {
    if script == [] then CALM else script[0]
  }

  function Rest(script: seq<Turn>): seq<Turn> {
    if script == [] then [] else script[1..]
  }

  // The world in which a call is served: one turn is used up, its edits are made.
  function Turned(w: World): World {
    ApplyEdits(w.(script := Rest(w.script)), Head(w.script).edits)
  }

  // One API call. A dead operator makes no calls.
  function Do(w: World, req: Request): (Reply, World) {
    if !w.alive then (Failed(Crashed), w)
    else
      var turn := Head(w.script);
      var w1 := Turned(w);
      match turn.fault
      case Reject => (Failed(Unavailable), w1)
      case CrashBefore => (Failed(Crashed), w1.(alive := false))
      case NoFault => Effect(w1, req, turn.lag)
      case LostReply => (Failed(Unavailable), Effect(w1, req, turn.lag).1)
      case CrashAfter => (Failed(Crashed), Effect(w1, req, turn.lag).1.(alive := false))
  }

  // ---- Owner references (controller-runtime's controllerutil and metav1) ----

  function ControllerRef(cr: Driver): OwnerRef {
    OwnerRef("csi.alibabacloud.com", "AlibabaCloudCSIDriver", cr.name, cr.uid, true)
  }

  // Group, kind and name decide, the uid does not.
  predicate SameReferent(a: OwnerRef, b: OwnerRef) {
    a.group == b.group && a.kind == b.kind && a.name == b.name
  }

  function ControllerOf(owners: seq<OwnerRef>): Option<OwnerRef> {
    if owners == [] then None
    else if owners[0].controller then Some(owners[0])
    else ControllerOf(owners[1..])
  }

  predicate ControlledBy(owners: seq<OwnerRef>, uid: nat) {
    var c := ControllerOf(owners);
    c.Some? && c.value.uid == uid
  }

  function Upsert(owners: seq<OwnerRef>, ref: OwnerRef): seq<OwnerRef> {
    if owners == [] then [ref]
    else if SameReferent(owners[0], ref) then [ref] + owners[1..]
    else [owners[0]] + Upsert(owners[1..], ref)
  }

  predicate ForeignControlled(owners: seq<OwnerRef>, ref: OwnerRef) {
    var c := ControllerOf(owners);
    c.Some? && !SameReferent(c.value, ref)
  }

  // None is the AlreadyOwned error.
  function SetController(owners: seq<OwnerRef>, ref: OwnerRef): Option<seq<OwnerRef>> {
    if ForeignControlled(owners, ref) then None else Some(Upsert(owners, ref))
  }
}
