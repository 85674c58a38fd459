/**
 The steps a reconcile pass is made of, and the meaning of each on a world.
 */
module Tasks {
  import opened Base
  import opened DriverTypes
  import opened MergePatch
  import opened Cluster

  const SCC_BINDING_KEY := Key(ClusterRoleBinding, "alibabacloud-csi-privileged")
  const NAMESPACE_KEY := Key(Namespace, "kube-system")

  const SCC_BINDING := BindingPayload("system:openshift:scc:privileged")

  const PRIVILEGED_LABELS: map<string, string> := map[
    "pod-security.kubernetes.io/enforce" := "privileged",
    "pod-security.kubernetes.io/audit" := "privileged",
    "pod-security.kubernetes.io/warn" := "privileged"]

  // RetryOnConflict(DefaultRetry).
  const ATTEMPTS: nat := 5

  datatype Task =
    | Adopt(key: Key, payload: Payload)          // createOrAdopt
    | Replace(key: Key, payload: Payload)        // createOrUpdate
    | Ignore(key: Key, payload: Payload)         // create, ignore AlreadyExists and NoMatch
    | PatchIfPresent(key: Key, patch: Json)      // the StorageProfile patch
    | Admit                                      // privileged-pod admission

  // ---- Meaning of the tasks ----

  function Manifest(cr: Driver, payload: Payload): Obj {
    Obj(0, 0, [ControllerRef(cr)], map[], payload)
  }

  function AdoptOnce(w: World, cr: Driver, key: Key): (Option<Error>, World) {
    var got := Do(w, GetObject(key));
    if !got.0.Found? then (ErrorOf(got.0), got.1)
    else
      var existing := got.0.obj;
      if ControlledBy(existing.owners, cr.uid) then (None, got.1)
      else
        var owners := SetController(existing.owners, ControllerRef(cr));
        if owners.None? then (Some(AlreadyOwned), got.1)
        else
          var put := Do(got.1, Update(key, existing.(owners := owners.value)));
          (ErrorOf(put.0), put.1)
  }

  function AdoptLoop(w: World, cr: Driver, key: Key, attempts: nat): (Option<Error>, World)
    decreases attempts
  {
    if attempts == 0 then (Some(Conflict), w)
    else
      var r := AdoptOnce(w, cr, key);
      if r.0 == Some(Conflict) then AdoptLoop(r.1, cr, key, attempts - 1) else r
  }

  function CreateOrAdopt(w: World, cr: Driver, key: Key, payload: Payload): (Option<Error>, World) {
    var r := Do(w, Create(key, Manifest(cr, payload)));
    if r.0 == Failed(AlreadyExists) then AdoptLoop(r.1, cr, key, ATTEMPTS) else (ErrorOf(r.0), r.1)
  }

  // The desired object carries the resourceVersion of the last read, also into a later Create.
  function UpdateOnce(w: World, key: Key, desired: Obj): (Option<Error>, Obj, World) {
    var got := Do(w, GetObject(key));
    if got.0 == Failed(NotFound) then
      var made := Do(got.1, Create(key, desired));
      (ErrorOf(made.0), desired, made.1)
    else if !got.0.Found? then (ErrorOf(got.0), desired, got.1)
    else
      var next := desired.(rv := got.0.obj.rv);
      var put := Do(got.1, Update(key, next));
      (ErrorOf(put.0), next, put.1)
  }

  function UpdateLoop(w: World, key: Key, desired: Obj, attempts: nat): (Option<Error>, World)
    decreases attempts
  {
    if attempts == 0 then (Some(Conflict), w)
    else
      var r := UpdateOnce(w, key, desired);
      if r.0 == Some(Conflict) then UpdateLoop(r.2, key, r.1, attempts - 1) else (r.0, r.2)
  }

  function CreateOrUpdate(w: World, cr: Driver, key: Key, payload: Payload): (Option<Error>, World) {
    UpdateLoop(w, key, Manifest(cr, payload), ATTEMPTS)
  }

  function CreateOrIgnore(w: World, cr: Driver, key: Key, payload: Payload): (Option<Error>, World) {
    var r := Do(w, Create(key, Manifest(cr, payload)));
    (if r.0 == Failed(NoMatch) || r.0 == Failed(AlreadyExists) then None else ErrorOf(r.0), r.1)
  }

  function PatchProfileIfPresent(w: World, key: Key, patch: Json): (Option<Error>, World) {
    var got := Do(w, GetObject(key));
    if got.0 == Failed(NoMatch) || got.0 == Failed(NotFound) then (None, got.1)
    else if !got.0.Found? then (ErrorOf(got.0), got.1)
    else
      var r := Do(got.1, PatchProfile(key, patch));
      (ErrorOf(r.0), r.1)
  }

  // A mapper miss is confirmed by a fresh discovery before it is believed.
  function SccAvailable(w: World): (bool, World) {
    var mapped := Do(w, MapScc);
    if mapped.0.Done? then (true, mapped.1)
    else if !w.hasConfig then (false, mapped.1)
    else
      var r := Do(mapped.1, DiscoverScc);
      (r.0.Kinds? && SCC_KIND in r.0.kinds, r.1)
  }

  predicate Covers(labels: map<string, string>, want: map<string, string>) {
    forall k | k in want :: k in labels && labels[k] == want[k]
  }

  predicate Privileged(labels: map<string, string>) {
    Covers(labels, PRIVILEGED_LABELS)
  }

  function LabelNamespace(w: World): (Option<Error>, World) {
    var got := Do(w, GetObject(NAMESPACE_KEY));
    if got.0 == Failed(NotFound) then (None, got.1)
    else if !got.0.Found? then (ErrorOf(got.0), got.1)
    else
      var ns := got.0.obj;
      if Privileged(ns.labels) then (None, got.1)
      else
        var put := Do(got.1, Update(NAMESPACE_KEY, ns.(labels := ns.labels + PRIVILEGED_LABELS)));
        (ErrorOf(put.0), put.1)
  }

  function GrantAdmission(w: World, cr: Driver): (Option<Error>, World) {
    var scc := SccAvailable(w);
    if scc.0 then CreateOrAdopt(scc.1, cr, SCC_BINDING_KEY, SCC_BINDING) else LabelNamespace(scc.1)
  }

  function RunTask(w: World, cr: Driver, t: Task): (Option<Error>, World) {
    match t
    case Adopt(key, payload) => CreateOrAdopt(w, cr, key, payload)
    case Replace(key, payload) => CreateOrUpdate(w, cr, key, payload)
    case Ignore(key, payload) => CreateOrIgnore(w, cr, key, payload)
    case PatchIfPresent(key, patch) => PatchProfileIfPresent(w, key, patch)
    case Admit => GrantAdmission(w, cr)
  }

  // Tasks run in order and stop at the first error.
  function RunAll(w: World, cr: Driver, tasks: seq<Task>): (Option<Error>, World)
    decreases |tasks|
  {
    if tasks == [] then (None, w)
    else
      var r := RunTask(w, cr, tasks[0]);
      if r.0.Some? then r else RunAll(r.1, cr, tasks[1..])
  }
}
