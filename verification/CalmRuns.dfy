/**
 What an undisturbed run of tasks does: it succeeds and changes every object by a pure
 function of that object alone.
 */
module CalmRuns {
  import opened Base
  import opened DriverTypes
  import opened MergePatch
  import opened Cluster
  import opened History
  import opened Tasks
  import opened Runs

  // An object up to its uid and resourceVersion.
  datatype Body = Body(owners: seq<OwnerRef>, labels: map<string, string>, payload: Payload)

  function BodyOf(o: Obj): Body {
    Body(o.owners, o.labels, o.payload)
  }

  function At(s: State, key: Key): Option<Body> {
    if key in s.objects then Some(BodyOf(s.objects[key])) else None
  }

  function Fresh(cr: Driver, payload: Payload): Body {
    Body([ControllerRef(cr)], map[], payload)
  }

  function Adopted(cr: Driver, payload: Payload, b: Option<Body>): Option<Body> {
    if b.None? then Some(Fresh(cr, payload))
    else if ControlledBy(b.value.owners, cr.uid) then b
    else Some(b.value.(owners := Upsert(b.value.owners, ControllerRef(cr))))
  }

  // What one task makes of the object at a key.
  function TaskOn(cr: Driver, t: Task, apis: Apis, key: Key, b: Option<Body>): Option<Body> {
    match t
    case Adopt(k, payload) => if k == key then Adopted(cr, payload, b) else b
    case Replace(k, payload) => if k == key then Some(Fresh(cr, payload)) else b
    case Ignore(k, payload) => if k == key && b.None? && apis.snapshots then Some(Fresh(cr, payload)) else b
    case PatchIfPresent(k, patch) =>
      if k == key && b.Some?
          && apis.cdi then Some(b.value.(payload := Document(Merge(DocumentOf(b.value.payload), patch)))) else b
    case Admit =>
      if SccServed(apis) then (if key == SCC_BINDING_KEY then Adopted(cr, SCC_BINDING, b) else b)
      else if key == NAMESPACE_KEY && b.Some? then Some(b.value.(labels := b.value.labels + PRIVILEGED_LABELS))
      else b
  }

  function PlanOn(cr: Driver, tasks: seq<Task>, apis: Apis, key: Key, b: Option<Body>): Option<Body>
    decreases |tasks|
  {
    if tasks == [] then b else PlanOn(cr, tasks[1..], apis, key, TaskOn(cr, tasks[0], apis, key, b))
  }

  // Each kind of object is handled by one kind of task.
  predicate Typed(t: Task) {
    match t
    case Adopt(k, _) => k.kind in {ServiceAccount, ClusterRole, ClusterRoleBinding, CSIDriver, StorageClass}
    case Replace(k, _) => k.kind in {Deployment, DaemonSet}
    case Ignore(k, _) => k.kind == SnapshotClass
    case PatchIfPresent(k, _) => k.kind == StorageProfile
    case Admit => true
  }

  predicate AllTyped(tasks: seq<Task>) {
    forall i | 0 <= i < |tasks| :: Typed(tasks[i])
  }

  // The create-or-adopt keys of a task.
  function AdoptKeys(t: Task): set<Key> {
    match t
    case Adopt(k, _) => {k}
    case Admit => {SCC_BINDING_KEY}
    case _ => {}
  }

  ghost predicate Adoptable(cr: Driver, b: Option<Body>) {
    b.Some? ==> !ForeignControlled(b.value.owners, ControllerRef(cr))
  }

  ghost predicate Friendly(cr: Driver, tasks: seq<Task>, s: State) {
    forall i, k | 0 <= i < |tasks| && k in AdoptKeys(tasks[i]) :: Adoptable(cr, At(s, k))
  }

  // ---- Owner references ----

  // Taking control makes the operator's reference the controller.
  lemma {:induction false} UpsertControls(owners: seq<OwnerRef>, ref: OwnerRef)
    requires ref.controller && !ForeignControlled(owners, ref)
    ensures ControllerOf(Upsert(owners, ref)) == Some(ref)
  {
    if owners != [] && !SameReferent(owners[0], ref) {
      UpsertControls(owners[1..], ref);
      assert Upsert(owners, ref)[1..] == Upsert(owners[1..], ref);
    }
  }

  // ---- One task ----

  ghost predicate SameCluster(s: State, s': State) {
    s'.driver == s.driver && s'.apis == s.apis && s'.now == s.now
  }

  ghost predicate UidsKept(s: State, s': State) {
    forall k | k in s.objects :: k in s'.objects && s'.objects[k].uid == s.objects[k].uid
  }

  // From w to w' only the object at key changed, into b.
  ghost predicate Became(w: World, w': World, key: Key, b: Option<Body>) {
    && w'.alive
    && SameCluster(w.state, w'.state)
    && UidsKept(w.state, w'.state)
    && (forall k :: At(w'.state, k) == if k == key then b else At(w.state, k))
  }

  lemma WriteBecomes(w: World, key: Key, obj: Obj)
    requires w.alive
    requires key in w.state.objects ==> obj.uid == w.state.objects[key].uid
    ensures Became(w, Write(w, true, key, obj), key, Some(BodyOf(obj)))
  {
  }

  lemma CalmCreate(w: World, key: Key, obj: Obj)
    requires w.alive && obj.rv == 0 && Undisturbed(w, Do(w, Create(key, obj)).1)
    requires key.kind == SnapshotClass ==> w.state.apis.snapshots
    ensures var r := Do(w, Create(key, obj));
            if key in w.state.objects then r == (Failed(AlreadyExists), Tail(w))
            else r.0 == Done && Became(w, r.1, key, Some(BodyOf(obj)))
  {
    hide Do, Write, Became;
    CalmDo(w, Create(key, obj));
    if key !in w.state.objects {
      var t := Tail(w);
      WriteBecomes(t, key, obj.(uid := t.clock));
      SameStart(w, t, Write(t, true, key, obj.(uid := t.clock)), key, Some(BodyOf(obj)));
    }
  }

  lemma SameStart(w: World, t: World, w': World, key: Key, b: Option<Body>)
    requires t.state == w.state && Became(t, w', key, b)
    ensures Became(w, w', key, b)
  {
  }

  lemma CalmGet(w: World, key: Key)
    requires w.alive && key.kind != StorageProfile && Undisturbed(w, Do(w, GetObject(key)).1)
    ensures Do(w, GetObject(key)) ==
            (if key in w.state.objects then Found(w.state.objects[key]) else Failed(NotFound), Tail(w))
  {
    CalmDo(w, GetObject(key));
  }

  lemma CalmUpdate(w: World, key: Key, obj: Obj)
    requires w.alive && key in w.state.objects && obj.rv == w.state.objects[key].rv
    requires Undisturbed(w, Do(w, Update(key, obj)).1)
    ensures var r := Do(w, Update(key, obj)); r.0 == Done && Became(w, r.1, key, Some(BodyOf(obj)))
  {
    hide Do, Write, Became;
    CalmDo(w, Update(key, obj));
    var t := Tail(w);
    var stored := obj.(uid := t.state.objects[key].uid);
    WriteBecomes(t, key, stored);
    SameStart(w, t, Write(t, true, key, stored), key, Some(BodyOf(obj)));
  }

  lemma StillThere(w: World, key: Key)
    requires w.alive
    ensures Became(w, w, key, At(w.state, key))
    ensures Became(w, Tail(w), key, At(w.state, key))
  {
  }

  lemma CalmAdoptLoop(w: World, cr: Driver, key: Key, payload: Payload)
    requires w.alive && key in w.state.objects && key.kind != StorageProfile
    requires Adoptable(cr, At(w.state, key))
    requires Undisturbed(w, AdoptLoop(w, cr, key, ATTEMPTS).1)
    ensures var r := AdoptLoop(w, cr, key, ATTEMPTS);
            r.0 == None && Became(w, r.1, key, Adopted(cr, payload, At(w.state, key)))
  {
    hide Do, Became, Reaches, SetController, Upsert;
    var get := GetObject(key);
    var got := Do(w, get);
    var once := AdoptOnce(w, cr, key);
    DoReaches(w, get);
    AdoptOnceReaches(w, cr, key);
    AdoptLoopReaches(once.1, cr, key, ATTEMPTS - 1);
    AdoptLoopReaches(w, cr, key, ATTEMPTS);
    var last := AdoptLoop(w, cr, key, ATTEMPTS).1;
    CalmFirst(w, got.1, once.1, last, cr, key);
    CalmGet(w, key);
    StillThere(w, key);
    var existing := w.state.objects[key];
    if !ControlledBy(existing.owners, cr.uid) {
      var owners := SetController(existing.owners, ControllerRef(cr));
      SetControllerAdopts(cr, existing.owners);
      var adopted := existing.(owners := owners.value);
      CalmUpdate(got.1, key, adopted);
      SameStart(w, got.1, Do(got.1, Update(key, adopted)).1, key, Some(BodyOf(adopted)));
    }
  }

  lemma SetControllerAdopts(cr: Driver, owners: seq<OwnerRef>)
    requires !ForeignControlled(owners, ControllerRef(cr))
    ensures SetController(owners, ControllerRef(cr)) == Some(Upsert(owners, ControllerRef(cr)))
  {
  }

  // The read and the first attempt of an undisturbed adoption are undisturbed.
  lemma CalmFirst(w: World, got: World, once: World, last: World, cr: Driver, key: Key)
    requires got == Do(w, GetObject(key)).1 && once == AdoptOnce(w, cr, key).1
    requires last == AdoptLoop(w, cr, key, ATTEMPTS).1
    requires Undisturbed(w, last)
    ensures Undisturbed(w, got) && Undisturbed(got, once)
  {
    hide Do, Reaches, SetController;
    DoReaches(w, GetObject(key));
    AdoptOnceReaches(w, cr, key);
    AdoptLoopReaches(once, cr, key, ATTEMPTS - 1);
    AdoptGetReaches(w, cr, key);
    ReachesReflexive(once);
    UndisturbedParts(w, once, last);
    UndisturbedParts(w, got, once);
  }

  lemma AdoptGetReaches(w: World, cr: Driver, key: Key)
    ensures Reaches(Do(w, GetObject(key)).1, AdoptOnce(w, cr, key).1)
  {
    hide Reaches, Do, SetController;
    var got := Do(w, GetObject(key));
    ReachesReflexive(got.1);
    if got.0.Found? {
      var owners := SetController(got.0.obj.owners, ControllerRef(cr));
      if owners.Some? {
        DoReaches(got.1, Update(key, got.0.obj.(owners := owners.value)));
      }
    }
  }

  lemma CalmAdopt(w: World, cr: Driver, key: Key, payload: Payload)
    requires w.alive && key.kind !in {StorageProfile, SnapshotClass} && Adoptable(cr, At(w.state, key))
    requires Undisturbed(w, CreateOrAdopt(w, cr, key, payload).1)
    ensures var r := CreateOrAdopt(w, cr, key, payload);
            r.0 == None && Became(w, r.1, key, Adopted(cr, payload, At(w.state, key)))
  {
    hide Do, Became, Reaches, AdoptLoop;
    var create := Create(key, Manifest(cr, payload));
    var made := Do(w, create);
    var last := CreateOrAdopt(w, cr, key, payload).1;
    DoReaches(w, create);
    AdoptLoopReaches(made.1, cr, key, ATTEMPTS);
    ReachesReflexive(made.1);
    UndisturbedParts(w, made.1, last);
    CalmCreate(w, key, Manifest(cr, payload));
    if key in w.state.objects {
      CalmAdoptLoop(made.1, cr, key, payload);
      SameStart(w, made.1, last, key, Adopted(cr, payload, At(w.state, key)));
    }
  }

  lemma CalmReplace(w: World, cr: Driver, key: Key, payload: Payload)
    requires w.alive && key.kind !in {StorageProfile, SnapshotClass}
    requires Undisturbed(w, CreateOrUpdate(w, cr, key, payload).1)
    ensures var r := CreateOrUpdate(w, cr, key, payload);
            r.0 == None && Became(w, r.1, key, Some(Fresh(cr, payload)))
  {
    hide Do, Became, Reaches;
    var desired := Manifest(cr, payload);
    var get := GetObject(key);
    var got := Do(w, get);
    var once := UpdateOnce(w, key, desired);
    var last := CreateOrUpdate(w, cr, key, payload).1;
    DoReaches(w, get);
    UpdateOnceReaches(w, key, desired);
    UpdateLoopReaches(once.2, key, once.1, ATTEMPTS - 1);
    ReachesReflexive(once.2);
    UndisturbedParts(w, once.2, last);
    UpdateGetReaches(w, key, desired);
    UndisturbedParts(w, got.1, once.2);
    CalmGet(w, key);
    if key in w.state.objects {
      var next := desired.(rv := w.state.objects[key].rv);
      CalmUpdate(got.1, key, next);
      SameStart(w, got.1, once.2, key, Some(Fresh(cr, payload)));
    } else {
      CalmCreate(got.1, key, desired);
      SameStart(w, got.1, once.2, key, Some(Fresh(cr, payload)));
    }
  }

  lemma UpdateGetReaches(w: World, key: Key, desired: Obj)
    ensures Reaches(Do(w, GetObject(key)).1, UpdateOnce(w, key, desired).2)
  {
    hide Reaches, Do;
    var got := Do(w, GetObject(key));
    ReachesReflexive(got.1);
    DoReaches(got.1, Create(key, desired));
    if got.0.Found? {
      DoReaches(got.1, Update(key, desired.(rv := got.0.obj.rv)));
    }
  }

  lemma CalmIgnore(w: World, cr: Driver, key: Key, payload: Payload)
    requires w.alive && key.kind == SnapshotClass && Undisturbed(w, CreateOrIgnore(w, cr, key, payload).1)
    ensures var r := CreateOrIgnore(w, cr, key, payload);
            r.0 == None && Became(w, r.1, key, TaskOn(cr, Ignore(key, payload), w.state.apis, key, At(w.state, key)))
  {
    hide Do, Became;
    StillThere(w, key);
    if w.state.apis.snapshots {
      CalmCreate(w, key, Manifest(cr, payload));
    } else {
      CalmDo(w, Create(key, Manifest(cr, payload)));
    }
  }

  lemma CalmPatch(w: World, cr: Driver, key: Key, patch: Json)
    requires w.alive && key.kind == StorageProfile && Undisturbed(w, PatchProfileIfPresent(w, key, patch).1)
    ensures var r := PatchProfileIfPresent(w, key, patch);
            r.0 == None && Became(w, r.1, key,
              TaskOn(cr, PatchIfPresent(key, patch), w.state.apis, key, At(w.state, key)))
  {
    hide Do, Became, Reaches, Write, Merge, DocumentOf;
    var get := GetObject(key);
    var got := Do(w, get);
    var req := PatchProfile(key, patch);
    var last := PatchProfileIfPresent(w, key, patch).1;
    DoReaches(w, get);
    DoReaches(got.1, req);
    ReachesReflexive(got.1);
    UndisturbedParts(w, got.1, last);
    CalmDo(w, get);
    StillThere(w, key);
    if w.state.apis.cdi && key in w.state.objects {
      CalmDo(got.1, req);
      var t := Tail(got.1);
      var patched := Patched(t.state.objects[key], patch);
      WriteBecomes(t, key, patched);
      SameStart(w, t, last, key, Some(BodyOf(patched)));
    }
  }

  lemma CalmScc(w: World)
    requires w.alive && Undisturbed(w, SccAvailable(w).1)
    ensures var r := SccAvailable(w);
            r.0 == SccServed(w.state.apis) && r.1.alive && r.1.state == w.state
  {
    hide Do, Reaches;
    var mapped := Do(w, MapScc);
    var last := SccAvailable(w).1;
    DoReaches(w, MapScc);
    DoReaches(mapped.1, DiscoverScc);
    ReachesReflexive(mapped.1);
    UndisturbedParts(w, mapped.1, last);
    CalmDo(w, MapScc);
    if !mapped.0.Done? && w.hasConfig {
      CalmDo(mapped.1, DiscoverScc);
    }
  }

  lemma CalmLabel(w: World)
    requires w.alive && Undisturbed(w, LabelNamespace(w).1)
    ensures var r := LabelNamespace(w);
            var b := At(w.state, NAMESPACE_KEY);
            r.0 == None && Became(w, r.1, NAMESPACE_KEY,
              if b.Some? then Some(b.value.(labels := b.value.labels + PRIVILEGED_LABELS)) else b)
  {
    hide Do, Became, Reaches;
    var get := GetObject(NAMESPACE_KEY);
    var got := Do(w, get);
    var last := LabelNamespace(w).1;
    DoReaches(w, get);
    LabelGetReaches(w);
    UndisturbedParts(w, got.1, last);
    CalmGet(w, NAMESPACE_KEY);
    StillThere(w, NAMESPACE_KEY);
    if NAMESPACE_KEY in w.state.objects {
      var ns := w.state.objects[NAMESPACE_KEY];
      if Privileged(ns.labels) {
        assert ns.labels + PRIVILEGED_LABELS == ns.labels;
      } else {
        var next := ns.(labels := ns.labels + PRIVILEGED_LABELS);
        CalmUpdate(got.1, NAMESPACE_KEY, next);
        SameStart(w, got.1, last, NAMESPACE_KEY, Some(BodyOf(next)));
      }
    }
  }

  lemma LabelGetReaches(w: World)
    ensures Reaches(Do(w, GetObject(NAMESPACE_KEY)).1, LabelNamespace(w).1)
  {
    hide Reaches, Do;
    var got := Do(w, GetObject(NAMESPACE_KEY));
    ReachesReflexive(got.1);
    if got.0.Found? {
      DoReaches(got.1, Update(NAMESPACE_KEY, got.0.obj.(labels := got.0.obj.labels + PRIVILEGED_LABELS)));
    }
  }

  // From w to w' every object changed by the pure function of one task.
  ghost predicate Performed(w: World, w': World, cr: Driver, t: Task) {
    && w'.alive
    && SameCluster(w.state, w'.state)
    && UidsKept(w.state, w'.state)
    && (forall k :: At(w'.state, k) == TaskOn(cr, t, w.state.apis, k, At(w.state, k)))
  }

  lemma CalmAdmit(w: World, cr: Driver)
    requires w.alive && Adoptable(cr, At(w.state, SCC_BINDING_KEY))
    requires Undisturbed(w, GrantAdmission(w, cr).1)
    ensures var r := GrantAdmission(w, cr); r.0 == None && Performed(w, r.1, cr, Admit)
  {
    hide Reaches, SccAvailable, LabelNamespace, CreateOrAdopt;
    var scc := SccAvailable(w);
    SccAvailableReaches(w);
    CreateOrAdoptReaches(scc.1, cr, SCC_BINDING_KEY, SCC_BINDING);
    LabelNamespaceReaches(scc.1);
    UndisturbedParts(w, scc.1, GrantAdmission(w, cr).1);
    CalmScc(w);
    if scc.0 {
      CalmAdopt(scc.1, cr, SCC_BINDING_KEY, SCC_BINDING);
    } else {
      CalmLabel(scc.1);
    }
  }

  // An undisturbed task succeeds and does what TaskOn says, to every object.
  lemma CalmTask(w: World, cr: Driver, t: Task)
    requires w.alive && Typed(t) && (forall k | k in AdoptKeys(t) :: Adoptable(cr, At(w.state, k)))
    requires Undisturbed(w, RunTask(w, cr, t).1)
    ensures var r := RunTask(w, cr, t); r.0 == None && Performed(w, r.1, cr, t)
  {
    hide Do, CreateOrAdopt, CreateOrUpdate, CreateOrIgnore, PatchProfileIfPresent, GrantAdmission, Adoptable;
    match t
    case Adopt(key, payload) =>
      assert key in AdoptKeys(t);
      CalmAdopt(w, cr, key, payload);
    case Replace(key, payload) => CalmReplace(w, cr, key, payload);
    case Ignore(key, payload) => CalmIgnore(w, cr, key, payload);
    case PatchIfPresent(key, patch) => CalmPatch(w, cr, key, patch);
    case Admit =>
      assert SCC_BINDING_KEY in AdoptKeys(t);
      CalmAdmit(w, cr);
  }

  lemma TaskKeepsAdoptable(cr: Driver, t: Task, apis: Apis, key: Key, b: Option<Body>)
    requires Adoptable(cr, b)
    ensures Adoptable(cr, TaskOn(cr, t, apis, key, b))
  {
    hide Upsert;
    if b.Some? {
      UpsertControls(b.value.owners, ControllerRef(cr));
    }
  }

  // An undisturbed run of any task list succeeds, and the object at every key ends as
  // PlanOn computes it from the object that was there.
  lemma {:induction false} CalmAll(w: World, cr: Driver, tasks: seq<Task>)
    requires w.alive && AllTyped(tasks) && Friendly(cr, tasks, w.state)
    requires Undisturbed(w, RunAll(w, cr, tasks).1)
    ensures var r := RunAll(w, cr, tasks);
            && r.0 == None
            && r.1.alive
            && SameCluster(w.state, r.1.state)
            && UidsKept(w.state, r.1.state)
            && (forall k :: At(r.1.state, k) == PlanOn(cr, tasks, w.state.apis, k, At(w.state, k)))
    decreases |tasks|
  {
    hide RunTask, Reaches, TaskOn, Adoptable, Typed, AdoptKeys;
    if tasks != [] {
      var t := tasks[0];
      var r := RunTask(w, cr, t);
      RunTaskReaches(w, cr, t);
      RunAllReaches(r.1, cr, tasks[1..]);
      ReachesReflexive(r.1);
      UndisturbedParts(w, r.1, RunAll(w, cr, tasks).1);
      CalmTask(w, cr, t);
      forall i, k | 0 <= i < |tasks[1..]| && k in AdoptKeys(tasks[1..][i])
        ensures Adoptable(cr, At(r.1.state, k))
      {
        assert k in AdoptKeys(tasks[i + 1]);
        TaskKeepsAdoptable(cr, t, w.state.apis, k, At(w.state, k));
      }
      CalmAll(r.1, cr, tasks[1..]);
    }
  }
}
