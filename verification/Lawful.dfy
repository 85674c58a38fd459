/**
 What the operator may ever write: for every script, also with stale reads and crashes,
 each change it makes to the store is one permitted by the step it is at.
 */
module Lawful {
  import opened Base
  import opened DriverTypes
  import opened MergePatch
  import opened Cluster
  import opened History
  import opened Tasks
  import opened Runs
  import opened CalmRuns

  // Creation, or taking over an object nobody else controls: the live object keeps
  // everything except its owner references and its resourceVersion.
  ghost predicate AdoptStep(cr: Driver, payload: Payload, b: Option<Obj>, a: Obj) {
    if b.None? then BodyOf(a) == Fresh(cr, payload)
    else
      && !ForeignControlled(b.value.owners, ControllerRef(cr))
      && !ControlledBy(b.value.owners, cr.uid)
      && a == b.value.(owners := Upsert(b.value.owners, ControllerRef(cr)), rv := a.rv)
  }

  ghost predicate StepAt(cr: Driver, t: Task, key: Key, b: Option<Obj>, a: Obj) {
    match t
    case Adopt(k, payload) => key == k && AdoptStep(cr, payload, b, a)
    case Replace(k, payload) => key == k && BodyOf(a) == Fresh(cr, payload) && (b.Some? ==> a.uid == b.value.uid)
    case Ignore(k, payload) => key == k && b.None? && BodyOf(a) == Fresh(cr, payload)
    case PatchIfPresent(k, patch) => key == k && b.Some? && a == Patched(b.value, patch).(rv := a.rv)
    case Admit =>
      || (key == SCC_BINDING_KEY && AdoptStep(cr, SCC_BINDING, b, a))
      || (key == NAMESPACE_KEY && b.Some? && a == b.value.(labels := b.value.labels + PRIVILEGED_LABELS, rv := a.rv))
  }

  // What t permits: one object changed, the way t changes it.
  ghost predicate Permitted(cr: Driver, t: Task, e: Event) {
    && e.target.OnObject?
    && OnlyAt(e.target.key, e)
    && StepAt(cr, t, e.target.key, Lookup(e.before, e.target.key), e.after.objects[e.target.key])
  }

  // Every operator event between w and w' is permitted.
  ghost predicate Law(w: World, w': World, cr: Driver, t: Task) {
    w.log <= w'.log && forall i | |w.log| <= i < |w'.log| && w'.log[i].byOperator :: Permitted(cr, t, w'.log[i])
  }

  lemma LawTransitive(a: World, b: World, c: World, cr: Driver, t: Task)
    requires Law(a, b, cr, t) && Law(b, c, cr, t)
    ensures Law(a, c, cr, t)
  {
  }

  lemma DoEvents(w: World, req: Request)
    ensures var w' := Do(w, req).1;
            w.log <= w'.log && forall i | |w.log| <= i < |w'.log| && w'.log[i].byOperator :: Answers(req, w'.log[i])
  {
    hide Effect, Answers, Turned, FromScript, WellFormed, Path;
    if w.alive {
      var t := Turned(w);
      TurnedEvents(w);
      EffectEvent(t, req, Head(w.script).lag);
      DoCases(w, req);
    }
  }

  lemma TurnedEvents(w: World)
    ensures w.log <= Turned(w).log
    ensures forall i | |w.log| <= i < |Turned(w).log| :: !Turned(w).log[i].byOperator
  {
    hide FromScript, WellFormed, Path, Extends, ApplyEdit;
    if w.script != [] {
      EditsReach(w.script, Tail(w), 0);
      assert w.script[0].edits[0..] == w.script[0].edits;
      var events := Trace(Tail(w), Turned(w));
      forall i | |w.log| <= i < |Turned(w).log|
        ensures !Turned(w).log[i].byOperator
      {
        assert Turned(w).log[i] == events[i - |w.log|];
      }
    }
  }

  // A call that makes no change to the store is lawful for every task.
  lemma ReadLaw(w: World, req: Request, cr: Driver, t: Task)
    requires req.GetObject? || req.MapScc? || req.DiscoverScc?
    ensures Law(w, Do(w, req).1, cr, t)
  {
    hide Do;
    DoEvents(w, req);
  }

  lemma CreateLaw(w: World, cr: Driver, t: Task, key: Key, obj: Obj)
    requires forall a: Obj | BodyOf(a) == BodyOf(obj) :: StepAt(cr, t, key, None, a)
    ensures Law(w, Do(w, Create(key, obj)).1, cr, t)
  {
    hide Do, StepAt;
    DoEvents(w, Create(key, obj));
    var w' := Do(w, Create(key, obj)).1;
    forall i | |w.log| <= i < |w'.log| && w'.log[i].byOperator
      ensures Permitted(cr, t, w'.log[i])
    {
      assert BodyOf(w'.log[i].after.objects[key]) == BodyOf(obj);
    }
  }

  // A read, stale or not, returns a version that was once stored under the key.
  lemma ReadIsRegistered(w: World, key: Key)
    requires WellFormed(w) && Do(w, GetObject(key)).0.Found?
    ensures var r := Do(w, GetObject(key));
            WellFormed(r.1) && r.0.obj.rv in r.1.versions && r.1.versions[r.0.obj.rv] == Version(key, r.0.obj)
  {
    hide Path, FromScript, Turned;
    DoReaches(w, GetObject(key));
    TurnedReaches(w);
    var t := Turned(w);
    assert Registered(View(t, Head(w.script).lag), t.versions);
  }

  // No lost write: an update is served only if the version it was computed from is live.
  lemma UpdateIsCurrent(w: World, key: Key, read: Obj, next: Obj, i: nat)
    requires WellFormed(w) && read.rv in w.versions && w.versions[read.rv] == Version(key, read) && next.rv == read.rv
    requires |w.log| <= i < |Do(w, Update(key, next)).1.log| && Do(w, Update(key, next)).1.log[i].byOperator
    ensures var e := Do(w, Update(key, next)).1.log[i];
            && Answers(Update(key, next), e)
            && e.before.objects[key] == read
  {
    hide Do, Path, FromScript, Trace;
    DoEvents(w, Update(key, next));
    DoReaches(w, Update(key, next));
    var w' := Do(w, Update(key, next)).1;
    assert Registered(w'.log[i].before, w'.versions);
  }

  lemma UpdateLaw(w: World, cr: Driver, t: Task, key: Key, read: Obj, next: Obj)
    requires WellFormed(w) && read.rv in w.versions && w.versions[read.rv] == Version(key, read) && next.rv == read.rv
    requires forall v: nat :: StepAt(cr, t, key, Some(read), next.(uid := read.uid, rv := v))
    ensures Law(w, Do(w, Update(key, next)).1, cr, t)
  {
    hide Do, StepAt, Path, WellFormed, FromScript;
    DoReaches(w, Update(key, next));
    var w' := Do(w, Update(key, next)).1;
    forall i | |w.log| <= i < |w'.log| && w'.log[i].byOperator
      ensures Permitted(cr, t, w'.log[i])
    {
      UpdateIsCurrent(w, key, read, next, i);
    }
  }

  lemma AdoptOnceLaw(w: World, cr: Driver, t: Task, key: Key, payload: Payload)
    requires WellFormed(w)
    requires forall b, a | AdoptStep(cr, payload, b, a) :: StepAt(cr, t, key, b, a)
    ensures var r := AdoptOnce(w, cr, key); Law(w, r.1, cr, t) && WellFormed(r.1)
  {
    hide Do, WellFormed, StepAt, Law, Reaches, Upsert;
    var got := Do(w, GetObject(key));
    ReadLaw(w, GetObject(key), cr, t);
    AdoptOnceReaches(w, cr, key);
    ReachedWellFormed(w, AdoptOnce(w, cr, key).1);
    if got.0.Found? {
      var existing := got.0.obj;
      ReadIsRegistered(w, key);
      var owners := SetController(existing.owners, ControllerRef(cr));
      if !ControlledBy(existing.owners, cr.uid) && owners.Some? {
        var next := existing.(owners := owners.value);
        forall v: nat
          ensures StepAt(cr, t, key, Some(existing), next.(uid := existing.uid, rv := v))
        {
          assert AdoptStep(cr, payload, Some(existing), next.(uid := existing.uid, rv := v));
        }
        UpdateLaw(got.1, cr, t, key, existing, next);
        LawTransitive(w, got.1, Do(got.1, Update(key, next)).1, cr, t);
      }
    }
  }

  lemma ReachedWellFormed(w: World, w': World)
    requires Reaches(w, w') && WellFormed(w)
    ensures WellFormed(w')
  {
  }

  lemma LawReflexive(w: World, cr: Driver, t: Task)
    ensures Law(w, w, cr, t)
  {
  }

  lemma {:induction false} AdoptLoopLaw(w: World, cr: Driver, t: Task, key: Key, payload: Payload, attempts: nat)
    requires WellFormed(w)
    requires forall b, a | AdoptStep(cr, payload, b, a) :: StepAt(cr, t, key, b, a)
    ensures Law(w, AdoptLoop(w, cr, key, attempts).1, cr, t)
    decreases attempts
  {
    hide WellFormed, Law, AdoptOnce, AdoptStep, StepAt;
    LawReflexive(w, cr, t);
    if attempts > 0 {
      var r := AdoptOnce(w, cr, key);
      AdoptOnceLaw(w, cr, t, key, payload);
      if r.0 == Some(Conflict) {
        AdoptLoopLaw(r.1, cr, t, key, payload, attempts - 1);
        LawTransitive(w, r.1, AdoptLoop(r.1, cr, key, attempts - 1).1, cr, t);
      }
    }
  }

  lemma CreateOrAdoptLaw(w: World, cr: Driver, t: Task, key: Key, payload: Payload)
    requires WellFormed(w)
    requires forall b, a | AdoptStep(cr, payload, b, a) :: StepAt(cr, t, key, b, a)
    ensures Law(w, CreateOrAdopt(w, cr, key, payload).1, cr, t)
  {
    hide WellFormed, Law, AdoptLoop, StepAt, Do, Reaches;
    var made := Do(w, Create(key, Manifest(cr, payload)));
    forall a: Obj | BodyOf(a) == BodyOf(Manifest(cr, payload))
      ensures StepAt(cr, t, key, None, a)
    {
      assert AdoptStep(cr, payload, None, a);
    }
    CreateLaw(w, cr, t, key, Manifest(cr, payload));
    if made.0 == Failed(AlreadyExists) {
      DoReaches(w, Create(key, Manifest(cr, payload)));
      ReachedWellFormed(w, made.1);
      AdoptLoopLaw(made.1, cr, t, key, payload, ATTEMPTS);
      LawTransitive(w, made.1, CreateOrAdopt(w, cr, key, payload).1, cr, t);
    }
  }

  lemma UpdateOnceLaw(w: World, cr: Driver, key: Key, payload: Payload, desired: Obj)
    requires WellFormed(w) && BodyOf(desired) == Fresh(cr, payload)
    ensures var r := UpdateOnce(w, key, desired);
            Law(w, r.2, cr, Replace(key, payload)) && WellFormed(r.2) && BodyOf(r.1) == Fresh(cr, payload)
  {
    hide WellFormed, Law, Do, Reaches;
    var t := Replace(key, payload);
    var got := Do(w, GetObject(key));
    ReadLaw(w, GetObject(key), cr, t);
    UpdateOnceReaches(w, key, desired);
    ReachedWellFormed(w, UpdateOnce(w, key, desired).2);
    if got.0 == Failed(NotFound) {
      CreateLaw(got.1, cr, t, key, desired);
      LawTransitive(w, got.1, Do(got.1, Create(key, desired)).1, cr, t);
    } else if got.0.Found? {
      var next := desired.(rv := got.0.obj.rv);
      ReadIsRegistered(w, key);
      UpdateLaw(got.1, cr, t, key, got.0.obj, next);
      LawTransitive(w, got.1, Do(got.1, Update(key, next)).1, cr, t);
    }
  }

  lemma {:induction false} UpdateLoopLaw(w: World, cr: Driver, key: Key, payload: Payload, desired: Obj, attempts: nat)
    requires WellFormed(w) && BodyOf(desired) == Fresh(cr, payload)
    ensures Law(w, UpdateLoop(w, key, desired, attempts).1, cr, Replace(key, payload))
    decreases attempts
  {
    hide WellFormed, Law, UpdateOnce;
    var t := Replace(key, payload);
    LawReflexive(w, cr, t);
    if attempts > 0 {
      var r := UpdateOnce(w, key, desired);
      UpdateOnceLaw(w, cr, key, payload, desired);
      if r.0 == Some(Conflict) {
        UpdateLoopLaw(r.2, cr, key, payload, r.1, attempts - 1);
        LawTransitive(w, r.2, UpdateLoop(r.2, key, r.1, attempts - 1).1, cr, t);
      }
    }
  }

  lemma ProfileLaw(w: World, cr: Driver, key: Key, patch: Json)
    ensures Law(w, PatchProfileIfPresent(w, key, patch).1, cr, PatchIfPresent(key, patch))
  {
    hide Do, Merge;
    var t := PatchIfPresent(key, patch);
    var got := Do(w, GetObject(key));
    ReadLaw(w, GetObject(key), cr, t);
    if got.0.Found? {
      DoEvents(got.1, PatchProfile(key, patch));
    }
  }

  lemma SccAvailableLaw(w: World, cr: Driver, t: Task)
    ensures Law(w, SccAvailable(w).1, cr, t)
  {
    hide Do, Law;
    var mapped := Do(w, MapScc);
    ReadLaw(w, MapScc, cr, t);
    ReadLaw(mapped.1, DiscoverScc, cr, t);
    LawTransitive(w, mapped.1, Do(mapped.1, DiscoverScc).1, cr, t);
  }

  lemma LabelNamespaceLaw(w: World, cr: Driver)
    requires WellFormed(w)
    ensures Law(w, LabelNamespace(w).1, cr, Admit)
  {
    hide Do, Law, WellFormed;
    var got := Do(w, GetObject(NAMESPACE_KEY));
    ReadLaw(w, GetObject(NAMESPACE_KEY), cr, Admit);
    if got.0.Found? {
      var ns := got.0.obj;
      var next := ns.(labels := ns.labels + PRIVILEGED_LABELS);
      ReadIsRegistered(w, NAMESPACE_KEY);
      UpdateLaw(got.1, cr, Admit, NAMESPACE_KEY, ns, next);
      LawTransitive(w, got.1, Do(got.1, Update(NAMESPACE_KEY, next)).1, cr, Admit);
    }
  }

  // One task, any interleaving: nothing but what it permits.
  lemma TaskLaw(w: World, cr: Driver, t: Task)
    requires WellFormed(w)
    ensures Law(w, RunTask(w, cr, t).1, cr, t)
  {
    hide WellFormed, Law, Do, AdoptStep, Reaches, CreateOrAdopt, UpdateLoop, PatchProfileIfPresent, LabelNamespace,
        SccAvailable;
    match t
    case Adopt(key, payload) => CreateOrAdoptLaw(w, cr, t, key, payload);
    case Replace(key, payload) => UpdateLoopLaw(w, cr, key, payload, Manifest(cr, payload), ATTEMPTS);
    case Ignore(key, payload) => CreateLaw(w, cr, t, key, Manifest(cr, payload));
    case PatchIfPresent(key, patch) => ProfileLaw(w, cr, key, patch);
    case Admit =>
      var scc := SccAvailable(w);
      SccAvailableLaw(w, cr, t);
      SccAvailableReaches(w);
      ReachedWellFormed(w, scc.1);
      if scc.0 {
        CreateOrAdoptLaw(scc.1, cr, t, SCC_BINDING_KEY, SCC_BINDING);
      } else {
        LabelNamespaceLaw(scc.1, cr);
      }
      LawTransitive(w, scc.1, RunTask(w, cr, t).1, cr, t);
  }

  // A list of tasks, any interleaving: nothing but what one of them permits.
  lemma {:induction false} RunAllLaw(w: World, cr: Driver, tasks: seq<Task>)
    requires WellFormed(w)
    ensures var w' := RunAll(w, cr, tasks).1;
            w.log <= w'.log && forall i | |w.log| <= i < |w'.log| && w'.log[i].byOperator ::
              exists t :: t in tasks && Permitted(cr, t, w'.log[i])
    decreases |tasks|
  {
    hide WellFormed, RunTask, Permitted, Reaches;
    if tasks != [] {
      var r := RunTask(w, cr, tasks[0]);
      TaskLaw(w, cr, tasks[0]);
      RunTaskReaches(w, cr, tasks[0]);
      ReachedWellFormed(w, r.1);
      if r.0.None? {
        RunAllLaw(r.1, cr, tasks[1..]);
      }
    }
  }
}
