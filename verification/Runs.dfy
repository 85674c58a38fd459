/** Tasks, task lists and passes reach worlds: the facts of History hold across them. */
module Runs {
  import opened Base
  import opened DriverTypes
  import opened Cluster
  import opened History
  import opened Tasks
  import opened Plan

  lemma TwoCalls(w: World, first: Request, second: Request)
    ensures Reaches(w, Do(w, first).1)
    ensures Reaches(w, Do(Do(w, first).1, second).1)
    ensures Reaches(Do(w, first).1, Do(Do(w, first).1, second).1)
  {
    hide Reaches, Do;
    ReachesReflexive(w);
    var w1 := Do(w, first).1;
    DoReaches(w, first);
    DoReaches(w1, second);
    ReachesTransitive(w, w1, Do(w1, second).1);
  }

  lemma AdoptOnceReaches(w: World, cr: Driver, key: Key)
    ensures Reaches(w, AdoptOnce(w, cr, key).1)
  {
    hide Reaches, Do, SetController;
    ReachesReflexive(w);
    var got := Do(w, GetObject(key));
    DoReaches(w, GetObject(key));
    if got.0.Found? {
      var owners := SetController(got.0.obj.owners, ControllerRef(cr));
      if owners.Some? {
        TwoCalls(w, GetObject(key), Update(key, got.0.obj.(owners := owners.value)));
      }
    }
  }

  lemma {:induction false} AdoptLoopReaches(w: World, cr: Driver, key: Key, attempts: nat)
    ensures Reaches(w, AdoptLoop(w, cr, key, attempts).1)
    decreases attempts
  {
    hide Reaches, AdoptOnce;
    ReachesReflexive(w);
    if attempts > 0 {
      var r := AdoptOnce(w, cr, key);
      AdoptOnceReaches(w, cr, key);
      AdoptLoopReaches(r.1, cr, key, attempts - 1);
      ReachesTransitive(w, r.1, AdoptLoop(r.1, cr, key, attempts - 1).1);
    }
  }

  lemma CreateOrAdoptReaches(w: World, cr: Driver, key: Key, payload: Payload)
    ensures Reaches(w, CreateOrAdopt(w, cr, key, payload).1)
  {
    hide Reaches, Do, AdoptLoop;
    ReachesReflexive(w);
    var req := Create(key, Manifest(cr, payload));
    var r := Do(w, req);
    DoReaches(w, req);
    AdoptLoopReaches(r.1, cr, key, ATTEMPTS);
    ReachesTransitive(w, r.1, AdoptLoop(r.1, cr, key, ATTEMPTS).1);
  }

  lemma UpdateOnceReaches(w: World, key: Key, desired: Obj)
    ensures Reaches(w, UpdateOnce(w, key, desired).2)
  {
    hide Reaches, Do;
    ReachesReflexive(w);
    var got := Do(w, GetObject(key));
    DoReaches(w, GetObject(key));
    TwoCalls(w, GetObject(key), Create(key, desired));
    if got.0.Found? {
      TwoCalls(w, GetObject(key), Update(key, desired.(rv := got.0.obj.rv)));
    }
  }

  lemma {:induction false} UpdateLoopReaches(w: World, key: Key, desired: Obj, attempts: nat)
    ensures Reaches(w, UpdateLoop(w, key, desired, attempts).1)
    decreases attempts
  {
    hide Reaches, UpdateOnce;
    ReachesReflexive(w);
    if attempts > 0 {
      var r := UpdateOnce(w, key, desired);
      UpdateOnceReaches(w, key, desired);
      if r.0 == Some(Conflict) {
        var last := UpdateLoop(r.2, key, r.1, attempts - 1).1;
        UpdateLoopReaches(r.2, key, r.1, attempts - 1);
        ReachesTransitive(w, r.2, last);
      }
    }
  }

  lemma SccAvailableReaches(w: World)
    ensures Reaches(w, SccAvailable(w).1)
  {
    hide Reaches, Do;
    ReachesReflexive(w);
    TwoCalls(w, MapScc, DiscoverScc);
  }

  lemma LabelNamespaceReaches(w: World)
    ensures Reaches(w, LabelNamespace(w).1)
  {
    hide Reaches, Do;
    ReachesReflexive(w);
    var got := Do(w, GetObject(NAMESPACE_KEY));
    DoReaches(w, GetObject(NAMESPACE_KEY));
    if got.0.Found? {
      TwoCalls(w, GetObject(NAMESPACE_KEY),
               Update(NAMESPACE_KEY, got.0.obj.(labels := got.0.obj.labels + PRIVILEGED_LABELS)));
    }
  }

  lemma GrantAdmissionReaches(w: World, cr: Driver)
    ensures Reaches(w, GrantAdmission(w, cr).1)
  {
    hide Reaches, SccAvailable, CreateOrAdopt, LabelNamespace;
    ReachesReflexive(w);
    var scc := SccAvailable(w);
    SccAvailableReaches(w);
    CreateOrAdoptReaches(scc.1, cr, SCC_BINDING_KEY, SCC_BINDING);
    LabelNamespaceReaches(scc.1);
    ReachesTransitive(w, scc.1, GrantAdmission(w, cr).1);
  }

  lemma RunTaskReaches(w: World, cr: Driver, t: Task)
    ensures Reaches(w, RunTask(w, cr, t).1)
  {
    hide Reaches, Do, UpdateLoop, CreateOrAdopt, GrantAdmission;
    ReachesReflexive(w);
    match t
    case Adopt(key, payload) => CreateOrAdoptReaches(w, cr, key, payload);
    case Replace(key, payload) => UpdateLoopReaches(w, key, Manifest(cr, payload), ATTEMPTS);
    case Ignore(key, payload) => DoReaches(w, Create(key, Manifest(cr, payload)));
    case PatchIfPresent(key, patch) => TwoCalls(w, GetObject(key), PatchProfile(key, patch));
    case Admit => GrantAdmissionReaches(w, cr);
  }

  lemma {:induction false} RunAllReaches(w: World, cr: Driver, tasks: seq<Task>)
    ensures Reaches(w, RunAll(w, cr, tasks).1)
    decreases |tasks|
  {
    hide Reaches, RunTask;
    ReachesReflexive(w);
    if tasks != [] {
      var r := RunTask(w, cr, tasks[0]);
      RunTaskReaches(w, cr, tasks[0]);
      RunAllReaches(r.1, cr, tasks[1..]);
      ReachesTransitive(w, r.1, RunAll(r.1, cr, tasks[1..]).1);
    }
  }

  lemma PhasesReach(w: World, cr: Driver)
    ensures Reaches(w, Phases(w, cr).world)
  {
    hide Reaches, RunAll, DiskTasks, NasTasks;
    ReachesReflexive(w);
    var rbac := RunAll(w, cr, RBAC_TASKS);
    RunAllReaches(w, cr, RBAC_TASKS);
    ReachesReflexive(rbac.1);
    RunAllReaches(rbac.1, cr, DiskTasks(cr.spec));
    var disk := if rbac.0.None? && cr.spec.disk.enabled then RunAll(rbac.1, cr, DiskTasks(cr.spec)) else rbac;
    ReachesTransitive(w, rbac.1, disk.1);
    ReachesReflexive(disk.1);
    RunAllReaches(disk.1, cr, NasTasks(cr.spec));
    ReachesTransitive(w, disk.1, Phases(w, cr).world);
  }

  lemma PassReaches(w: World)
    ensures Reaches(w, Pass(w).1)
  {
    hide Reaches, Do, Phases;
    ReachesReflexive(w);
    var got := Do(w, GetDriver);
    DoReaches(w, GetDriver);
    if got.0.FoundDriver? {
      var cr := got.0.driver;
      var p := Phases(got.1, cr);
      PhasesReach(got.1, cr);
      ReachesTransitive(w, got.1, p.world);
      DoReaches(p.world, PatchStatus(cr.status, NextStatus(cr, p)));
      ReachesTransitive(w, p.world, Pass(w).1);
    }
  }

  lemma AfterReadReaches(w: World)
    ensures Reaches(Do(w, GetDriver).1, Pass(w).1)
  {
    hide Do, Phases, Reaches;
    var got := Do(w, GetDriver);
    ReachesReflexive(got.1);
    if got.0.FoundDriver? {
      var cr := got.0.driver;
      var p := Phases(got.1, cr);
      PhasesReach(got.1, cr);
      DoReaches(p.world, PatchStatus(cr.status, NextStatus(cr, p)));
      ReachesTransitive(got.1, p.world, Pass(w).1);
    }
  }

  // A stretch without disturbance has none in its parts.
  lemma UndisturbedParts(a: World, b: World, c: World)
    requires Reaches(a, b) && Reaches(b, c) && Undisturbed(a, c)
    ensures Undisturbed(a, b) && Undisturbed(b, c)
  {
    SuffixDisturbances(b.script, a.script);
    SuffixDisturbances(c.script, b.script);
  }
}
