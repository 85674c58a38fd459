/** Closed forms of PlanOn: which task decides what becomes of an object, for any task list. */
module Outcome {
  import opened Base
  import opened DriverTypes
  import opened MergePatch
  import opened Cluster
  import opened Tasks
  import opened CalmRuns

  // ---- Create-or-adopt kinds: the first entry decides, and only if the object is absent ----

  predicate AdoptKind(kind: Kind) {
    kind in {ServiceAccount, ClusterRole, ClusterRoleBinding, CSIDriver, StorageClass}
  }

  function AdoptsAt(t: Task, apis: Apis, key: Key): Option<Payload> {
    match t
    case Adopt(k, payload) => if k == key then Some(payload) else None
    case Admit => if SccServed(apis) && key == SCC_BINDING_KEY then Some(SCC_BINDING) else None
    case _ => None
  }

  function FirstAdopted(tasks: seq<Task>, apis: Apis, key: Key): Option<Payload>
    decreases |tasks|
  {
    if tasks == [] then None
    else if AdoptsAt(tasks[0], apis, key).Some? then AdoptsAt(tasks[0], apis, key)
    else FirstAdopted(tasks[1..], apis, key)
  }

  lemma AdoptedIsControlled(cr: Driver, payload: Payload, b: Option<Body>)
    requires Adoptable(cr, b)
    ensures var a := Adopted(cr, payload, b);
            a.Some? && ControlledBy(a.value.owners, cr.uid) && Adoptable(cr, a)
  {
    hide Upsert;
    if b.Some? {
      UpsertControls(b.value.owners, ControllerRef(cr));
    }
  }

  lemma {:induction false} AdoptOutcome(cr: Driver, tasks: seq<Task>, apis: Apis, key: Key, b: Option<Body>)
    requires AllTyped(tasks) && AdoptKind(key.kind) && Adoptable(cr, b)
    ensures PlanOn(cr, tasks, apis, key, b) ==
            var first := FirstAdopted(tasks, apis, key);
            if first.None? then b else Adopted(cr, first.value, b)
    decreases |tasks|
  {
    hide Adoptable, Upsert;
    if tasks != [] {
      assert Typed(tasks[0]);
      var p := AdoptsAt(tasks[0], apis, key);
      var b' := TaskOn(cr, tasks[0], apis, key, b);
      assert b' == if p.None? then b else Adopted(cr, p.value, b);
      if p.Some? {
        AdoptedIsControlled(cr, p.value, b);
      }
      AdoptOutcome(cr, tasks[1..], apis, key, b');
    }
  }

  // ---- Workloads: the last entry decides, whatever was there ----

  function LastReplaced(tasks: seq<Task>, key: Key): Option<Payload>
    decreases |tasks|
  {
    if tasks == [] then None
    else if LastReplaced(tasks[1..], key).Some? then LastReplaced(tasks[1..], key)
    else if tasks[0].Replace? && tasks[0].key == key then Some(tasks[0].payload)
    else None
  }

  lemma {:induction false} ReplaceOutcome(cr: Driver, tasks: seq<Task>, apis: Apis, key: Key, b: Option<Body>)
    requires AllTyped(tasks) && key.kind in {Deployment, DaemonSet}
    ensures PlanOn(cr, tasks, apis, key, b) ==
            var last := LastReplaced(tasks, key);
            if last.None? then b else Some(Fresh(cr, last.value))
    decreases |tasks|
  {
    if tasks != [] {
      assert Typed(tasks[0]);
      ReplaceOutcome(cr, tasks[1..], apis, key, TaskOn(cr, tasks[0], apis, key, b));
    }
  }

  // ---- Snapshot classes: created when absent and served, never touched otherwise ----

  function FirstIgnored(tasks: seq<Task>, key: Key): Option<Payload>
    decreases |tasks|
  {
    if tasks == [] then None
    else if tasks[0].Ignore? && tasks[0].key == key then Some(tasks[0].payload)
    else FirstIgnored(tasks[1..], key)
  }

  lemma {:induction false} SnapshotOutcome(cr: Driver, tasks: seq<Task>, apis: Apis, key: Key, b: Option<Body>)
    requires AllTyped(tasks) && key.kind == SnapshotClass
    ensures PlanOn(cr, tasks, apis, key, b) ==
            var first := FirstIgnored(tasks, key);
            if b.Some? || first.None? || !apis.snapshots then b else Some(Fresh(cr, first.value))
    decreases |tasks|
  {
    if tasks != [] {
      assert Typed(tasks[0]);
      SnapshotOutcome(cr, tasks[1..], apis, key, TaskOn(cr, tasks[0], apis, key, b));
    }
  }

  // ---- Storage profiles: the patches overlay the spec, field by field ----

  // A spec patch without null and without nested objects.
  ghost predicate Flat(f: map<string, Json>) {
    forall k | k in f :: !f[k].Null? && !f[k].Object?
  }

  function SpecPatch(f: map<string, Json>): Json {
    Object(map["spec" := Object(f)])
  }

  function SpecOf(doc: Json): map<string, Json> {
    if "spec" in Fields(doc) then Fields(Fields(doc)["spec"]) else map[]
  }

  function Overlay(doc: Json, f: map<string, Json>): Json {
    Object(Fields(doc)["spec" := Object(SpecOf(doc) + f)])
  }

  // Merging a flat spec patch sets exactly its fields and keeps every other one.
  lemma MergeIsOverlay(doc: Json, f: map<string, Json>)
    requires Flat(f)
    ensures Merge(doc, SpecPatch(f)) == Overlay(doc, f)
  {
    var spec := if "spec" in Fields(doc) then Fields(doc)["spec"] else Null;
    var merged := Merge(spec, Object(f));
    assert merged.fields == SpecOf(doc) + f by {
      assert Fields(spec) == SpecOf(doc);
      forall k | k in f
        ensures Merge(if k in Fields(spec) then Fields(spec)[k] else Null, f[k]) == f[k]
      {
      }
    }
    assert Merge(doc, SpecPatch(f)).fields == Overlay(doc, f).fields;
  }

  ghost predicate FlatPatches(tasks: seq<Task>) {
    forall i | 0 <= i < |tasks| && tasks[i].PatchIfPresent? ::
      Flat(SpecOf(tasks[i].patch)) && tasks[i].patch == SpecPatch(SpecOf(tasks[i].patch))
  }

  predicate PatchesAt(t: Task, key: Key) {
    t.PatchIfPresent? && t.key == key
  }

  predicate Patches(tasks: seq<Task>, key: Key) {
    exists i | 0 <= i < |tasks| :: PatchesAt(tasks[i], key)
  }

  // The union of all patches of a profile; later entries win.
  function AllPatches(tasks: seq<Task>, key: Key): map<string, Json>
    decreases |tasks|
  {
    if tasks == [] then map[]
    else (if PatchesAt(tasks[0], key) then SpecOf(tasks[0].patch) else map[]) + AllPatches(tasks[1..], key)
  }

  function Patch(b: Body, f: map<string, Json>): Body {
    b.(payload := Document(Overlay(DocumentOf(b.payload), f)))
  }

  lemma PatchTwice(b: Body, f: map<string, Json>, g: map<string, Json>)
    ensures Patch(Patch(b, f), g) == Patch(b, f + g)
  {
    var doc := DocumentOf(b.payload);
    assert SpecOf(Overlay(doc, f)) + g == SpecOf(doc) + (f + g);
    assert Fields(Overlay(doc, f))["spec" := Object(SpecOf(doc) + (f + g))] ==
           Fields(doc)["spec" := Object(SpecOf(doc) + (f + g))];
  }

  lemma {:induction false} ProfileOutcome(cr: Driver, tasks: seq<Task>, apis: Apis, key: Key, b: Option<Body>)
    requires AllTyped(tasks) && FlatPatches(tasks) && key.kind == StorageProfile
    ensures PlanOn(cr, tasks, apis, key, b) ==
            if b.None? || !apis.cdi || !Patches(tasks, key) then b else Some(Patch(b.value, AllPatches(tasks, key)))
    decreases |tasks|
  {
    hide Patch, Merge, Overlay, Flat;
    if tasks != [] {
      var t, rest := tasks[0], tasks[1..];
      assert Typed(t);
      var b' := TaskOn(cr, t, apis, key, b);
      assert forall i | 0 <= i < |rest| :: rest[i] == tasks[i + 1];
      ProfileOutcome(cr, rest, apis, key, b');
      PatchesCons(tasks, key);
      if PatchesAt(t, key) && b.Some? && apis.cdi {
        var f := SpecOf(t.patch);
        PatchStep(b.value, t.patch);
        if Patches(rest, key) {
          PatchTwice(b.value, f, AllPatches(rest, key));
        } else {
          NoPatches(rest, key);
          assert f + map[] == f;
        }
      } else if b.Some? && apis.cdi {
        assert map[] + AllPatches(rest, key) == AllPatches(rest, key);
      }
    }
  }

  lemma PatchStep(b: Body, patch: Json)
    requires Flat(SpecOf(patch)) && patch == SpecPatch(SpecOf(patch))
    ensures b.(payload := Document(Merge(DocumentOf(b.payload), patch))) == Patch(b, SpecOf(patch))
  {
    MergeIsOverlay(DocumentOf(b.payload), SpecOf(patch));
  }

  lemma PatchesCons(tasks: seq<Task>, key: Key)
    requires tasks != []
    ensures Patches(tasks, key) <==> PatchesAt(tasks[0], key) || Patches(tasks[1..], key)
  {
    if Patches(tasks, key) && !PatchesAt(tasks[0], key) {
      var i :| 0 <= i < |tasks| && PatchesAt(tasks[i], key);
      assert tasks[1..][i - 1] == tasks[i];
    }
  }

  lemma {:induction false} NoPatches(tasks: seq<Task>, key: Key)
    requires !Patches(tasks, key)
    ensures AllPatches(tasks, key) == map[]
    decreases |tasks|
  {
    if tasks != [] {
      PatchesCons(tasks, key);
      NoPatches(tasks[1..], key);
    }
  }

  // ---- The namespace, and everything else ----

  predicate Admits(tasks: seq<Task>) {
    Admit in tasks
  }

  lemma {:induction false} NamespaceOutcome(cr: Driver, tasks: seq<Task>, apis: Apis, key: Key, b: Option<Body>)
    requires AllTyped(tasks) && key.kind == Namespace
    ensures PlanOn(cr, tasks, apis, key, b) ==
            if key == NAMESPACE_KEY && b.Some? && Admits(tasks) && !SccServed(apis)
            then Some(b.value.(labels := b.value.labels + PRIVILEGED_LABELS)) else b
    decreases |tasks|
  {
    if tasks != [] {
      assert Typed(tasks[0]);
      var b' := TaskOn(cr, tasks[0], apis, key, b);
      NamespaceOutcome(cr, tasks[1..], apis, key, b');
      if b.Some? {
        assert b.value.labels + PRIVILEGED_LABELS + PRIVILEGED_LABELS == b.value.labels + PRIVILEGED_LABELS;
      }
    }
  }

  lemma {:induction false} OtherOutcome(cr: Driver, tasks: seq<Task>, apis: Apis, key: Key, b: Option<Body>)
    requires AllTyped(tasks) && key.kind.OtherKind?
    ensures PlanOn(cr, tasks, apis, key, b) == b
    decreases |tasks|
  {
    if tasks != [] {
      assert Typed(tasks[0]);
      OtherOutcome(cr, tasks[1..], apis, key, b);
    }
  }
}
