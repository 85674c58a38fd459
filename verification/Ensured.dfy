/** What a task that returned nil has put in place, at the moment it returns. */
module Ensured {
  import opened Base
  import opened DriverTypes
  import opened MergePatch
  import opened Cluster
  import opened History
  import opened Tasks
  import opened PlanFacts
  import opened Runs
  import opened CalmRuns
  import opened Ordering
  import opened Admission

  ghost predicate InPlace(cr: Driver, t: Task, s: State) {
    match t
    case Adopt(key, _) => OwnedAt(s, key, cr.uid)
    case Replace(key, payload) => At(s, key) == Some(Fresh(cr, payload))
    case Ignore(key, _) => key in s.objects || !s.apis.snapshots
    case PatchIfPresent(key, patch) =>
      key in s.objects && s.apis.cdi ==>
        var doc := DocumentOf(s.objects[key].payload); Merge(doc, patch) == doc
    case Admit =>
      || OwnedAt(s, SCC_BINDING_KEY, cr.uid)
      || NAMESPACE_KEY !in s.objects
      || Privileged(s.objects[NAMESPACE_KEY].labels)
  }

  lemma {:induction false} ReplaceInPlace(w: World, cr: Driver, key: Key, desired: Obj, payload: Payload, attempts: nat)
    requires BodyOf(desired) == Fresh(cr, payload) && UpdateLoop(w, key, desired, attempts).0 == None
    ensures At(UpdateLoop(w, key, desired, attempts).1.state, key) == Some(Fresh(cr, payload))
    decreases attempts
  {
    hide Do;
    var r := UpdateOnce(w, key, desired);
    if r.0 == Some(Conflict) {
      ReplaceInPlace(r.2, cr, key, r.1, payload, attempts - 1);
    } else {
      var got := Do(w, GetObject(key));
      GetReplies(w, key);
      if got.0 == Failed(NotFound) {
        CreateReplies(got.1, key, desired);
        Created(got.1, key, desired);
      } else {
        UpdateServed(got.1, key, desired.(rv := got.0.obj.rv));
      }
    }
  }

  lemma Created(w: World, key: Key, obj: Obj)
    requires Do(w, Create(key, obj)).0 == Done
    ensures At(Do(w, Create(key, obj)).1.state, key) == Some(BodyOf(obj))
  {
    hide Turned;
    ServedDo(w, Create(key, obj));
  }

  lemma PatchInPlace(w: World, cr: Driver, key: Key, patch: Json)
    requires FreshReads(w.script) && PatchProfileIfPresent(w, key, patch).0 == None && key.kind == StorageProfile
    ensures InPlace(cr, PatchIfPresent(key, patch), PatchProfileIfPresent(w, key, patch).1.state)
  {
    hide Turned, Merge, FreshReads;
    var got := Do(w, GetObject(key));
    HeadIsFresh(w);
    GetReplies(w, key);
    ServedDo(w, GetObject(key));
    if got.0.Found? {
      PatchReplies(got.1, key, patch);
      ServedDo(got.1, PatchProfile(key, patch));
      MergeTwice(DocumentOf(Turned(got.1).state.objects[key].payload), patch);
    }
  }

  lemma PatchReplies(w: World, key: Key, patch: Json)
    ensures Do(w, PatchProfile(key, patch)).0.Done? || Do(w, PatchProfile(key, patch)).0.Failed?
  {
    hide Turned, Merge, Write;
  }

  lemma AdmitInPlace(w: World, cr: Driver)
    requires FreshReads(w.script) && GrantAdmission(w, cr).0 == None
    ensures InPlace(cr, Admit, GrantAdmission(w, cr).1.state)
  {
    hide FreshReads, CreateOrAdopt, SccAvailable, LabelNamespace, Reaches, Privileged;
    var scc := SccAvailable(w);
    SccAvailableReaches(w);
    FreshScript(w, scc.1);
    if scc.0 {
      CreateOrAdoptOwns(scc.1, cr, SCC_BINDING_KEY, SCC_BINDING);
    } else {
      LabelEnds(scc.1);
    }
  }

  lemma IgnoreInPlace(w: World, cr: Driver, key: Key, payload: Payload)
    requires CreateOrIgnore(w, cr, key, payload).0 == None
    ensures InPlace(cr, Ignore(key, payload), CreateOrIgnore(w, cr, key, payload).1.state)
  {
    hide Turned;
    ServedDo(w, Create(key, Manifest(cr, payload)));
  }

  lemma TaskInPlace(w: World, cr: Driver, t: Task)
    requires FreshReads(w.script) && Typed(t) && RunTask(w, cr, t).0 == None
    ensures InPlace(cr, t, RunTask(w, cr, t).1.state)
  {
    hide FreshReads, CreateOrAdopt, UpdateLoop, CreateOrIgnore, PatchProfileIfPresent, GrantAdmission, Merge,
        OwnedAt, Privileged, DocumentOf;
    match t
    case Adopt(key, payload) => CreateOrAdoptOwns(w, cr, key, payload);
    case Replace(key, payload) => ReplaceInPlace(w, cr, key, Manifest(cr, payload), payload, ATTEMPTS);
    case Ignore(key, payload) => IgnoreInPlace(w, cr, key, payload);
    case PatchIfPresent(key, patch) => PatchInPlace(w, cr, key, patch);
    case Admit => AdmitInPlace(w, cr);
  }

  // The world at the moment the first n tasks of a pass are done.
  function After(w: World, cr: Driver, tasks: seq<Task>, n: nat): World
    requires n <= |tasks|
  {
    RunAll(w, cr, tasks[..n]).1
  }

  // Every task of a list that returned nil was in place at some moment of the run,
  // whatever others did meanwhile.
  lemma AllInPlace(w: World, cr: Driver, tasks: seq<Task>, i: nat)
    requires FreshReads(w.script) && AllTyped(tasks) && i < |tasks| && RunAll(w, cr, tasks).0 == None
    ensures InPlace(cr, tasks[i], After(w, cr, tasks, i + 1).state)
    ensures Reaches(w, After(w, cr, tasks, i + 1)) && Reaches(After(w, cr, tasks, i + 1), RunAll(w, cr, tasks).1)
  {
    hide FreshReads, RunAll, RunTask, Reaches, InPlace, Typed;
    var t := tasks[i];
    assert tasks == tasks[..i + 1] + tasks[i + 1..] && tasks[..i + 1] == tasks[..i] + [t];
    RunConcat(w, cr, tasks[..i + 1], tasks[i + 1..]);
    RunConcat(w, cr, tasks[..i], [t]);
    var before := After(w, cr, tasks, i);
    RunOne(before, cr, t);
    RunAllReaches(w, cr, tasks[..i]);
    RunAllReaches(w, cr, tasks[..i + 1]);
    RunAllReaches(After(w, cr, tasks, i + 1), cr, tasks[i + 1..]);
    FreshScript(w, before);
    assert Typed(t);
    TaskInPlace(before, cr, t);
  }
}
