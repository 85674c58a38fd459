/** Privileged-pod admission after a successful ensureRBAC. */
module Admission {
  import opened Base
  import opened DriverTypes
  import opened Cluster
  import opened History
  import opened Tasks
  import opened Plan
  import opened PlanFacts
  import opened Runs
  import opened CalmRuns
  import opened Ordering

  ghost predicate OwnedAt(s: State, key: Key, uid: nat) {
    key in s.objects && ControlledBy(s.objects[key].owners, uid)
  }

  lemma FreshGetObject(w: World, key: Key)
    requires FreshReads(w.script) && Do(w, GetObject(key)).0.Found?
    ensures Lookup(Do(w, GetObject(key)).1.state, key) == Some(Do(w, GetObject(key)).0.obj)
  {
    hide Turned;
    ServedDo(w, GetObject(key));
  }

  lemma {:induction false} AdoptLoopOwns(w: World, cr: Driver, key: Key, attempts: nat)
    requires FreshReads(w.script) && AdoptLoop(w, cr, key, attempts).0 == None
    ensures OwnedAt(AdoptLoop(w, cr, key, attempts).1.state, key, cr.uid)
    decreases attempts
  {
    hide Do, Reaches, FreshReads, Upsert, ForeignControlled;
    var r := AdoptOnce(w, cr, key);
    if r.0 == Some(Conflict) {
      AdoptOnceReaches(w, cr, key);
      FreshScript(w, r.1);
      AdoptLoopOwns(r.1, cr, key, attempts - 1);
    } else {
      var got := Do(w, GetObject(key));
      GetReplies(w, key);
      FreshGetObject(w, key);
      var owners := got.0.obj.owners;
      if !ControlledBy(owners, cr.uid) {
        var next := got.0.obj.(owners := SetController(owners, ControllerRef(cr)).value);
        UpsertControls(owners, ControllerRef(cr));
        UpdateServed(got.1, key, next);
      }
    }
  }

  // A successful createOrAdopt returns with the object in place and controlled by the CR.
  lemma CreateOrAdoptOwns(w: World, cr: Driver, key: Key, payload: Payload)
    requires FreshReads(w.script) && CreateOrAdopt(w, cr, key, payload).0 == None
    ensures OwnedAt(CreateOrAdopt(w, cr, key, payload).1.state, key, cr.uid)
  {
    hide Do, Reaches, FreshReads, AdoptLoop;
    var obj := Manifest(cr, payload);
    var made := Do(w, Create(key, obj));
    CreateReplies(w, key, obj);
    if made.0 == Failed(AlreadyExists) {
      DoReaches(w, Create(key, obj));
      FreshScript(w, made.1);
      AdoptLoopOwns(made.1, cr, key, ATTEMPTS);
    } else {
      CreateServed(w, key, obj);
    }
  }

  lemma CreateServed(w: World, key: Key, obj: Obj)
    requires Do(w, Create(key, obj)).0 == Done
    ensures var s := Do(w, Create(key, obj)).1.state; key in s.objects && s.objects[key].owners == obj.owners
  {
    hide Turned;
    ServedDo(w, Create(key, obj));
  }

  // The SCC branch is taken only where the API is served.
  lemma SccIsServed(w: World)
    requires FreshReads(w.script) && SccAvailable(w).0
    ensures SccServed(SccAvailable(w).1.state.apis)
  {
    hide Turned, Reaches, FreshReads;
    var mapped := Do(w, MapScc);
    DoReaches(w, MapScc);
    FreshScript(w, mapped.1);
    HeadIsFresh(w);
    if mapped.0.Done? {
      ServedDo(w, MapScc);
    } else {
      ServedDo(mapped.1, DiscoverScc);
    }
  }

  lemma HeadIsFresh(w: World)
    requires FreshReads(w.script)
    ensures Head(w.script).lag == 0
  {
  }

  // security.openshift.io/v1 is served and has the kind.
  predicate ServesScc(apis: Apis) {
    apis.sccKinds.Some? && "SecurityContextConstraints" in apis.sccKinds.value
  }

  // The mapper answers the next call from a discovery that knew the API.
  predicate MapperHits(w: World) {
    w.alive && Head(w.script).fault == NoFault && ServesScc(View(Turned(w), Head(w.script).lag).apis)
  }

  // A discovery made by the next call is answered and finds the API.
  predicate DiscoveryHits(w: World) {
    w.alive && Head(w.script).fault == NoFault && ServesScc(Turned(w).state.apis)
  }

  // Detection is positive exactly when one of its two calls hits.
  lemma DetectionIsExact(w: World)
    ensures SccAvailable(w).0 <==> MapperHits(w) || (w.hasConfig && DiscoveryHits(Do(w, MapScc).1))
  {
    hide Turned, View;
  }

  // After every successful ensureRBAC, whatever happens in between: if the mapper or the
  // discovery that follows it hits, as one of them does when the API is served and the
  // calls do not fail, the SCC binding is in place and controlled by the CR; if not, the
  // namespace, if there is one, carries the three privileged labels.
  lemma AdmissionAfterRBAC(w: World, cr: Driver)
    requires FreshReads(w.script) && RunAll(w, cr, RBAC_TASKS).0 == None
    ensures var s := RunAll(w, cr, RBAC_TASKS).1.state;
            var before := RunAll(w, cr, RBAC_TASKS[..3]).1;
            if MapperHits(before) || (before.hasConfig && DiscoveryHits(Do(before, MapScc).1))
            then OwnedAt(s, SCC_BINDING_KEY, cr.uid)
            else NAMESPACE_KEY !in s.objects || Privileged(s.objects[NAMESPACE_KEY].labels)
  {
    hide Reaches, FreshReads, CreateOrAdopt, SccAvailable, LabelNamespace, Privileged, OwnedAt, MapperHits,
        DiscoveryHits, Do;
    UnrollRbac(w, cr);
    var before := RunAll(w, cr, RBAC_TASKS[..3]).1;
    RunAllReaches(w, cr, RBAC_TASKS[..3]);
    FreshScript(w, before);
    var scc := SccAvailable(before);
    DetectionIsExact(before);
    SccAvailableReaches(before);
    FreshScript(before, scc.1);
    if scc.0 {
      CreateOrAdoptOwns(scc.1, cr, SCC_BINDING_KEY, SCC_BINDING);
    } else {
      LabelEnds(scc.1);
    }
  }

  // ---- A pass that misses the API ----

  const REJECTED := Turn([], Reject, 0)

  lemma CreatesOne(w: World, cr: Driver, key: Key, payload: Payload)
    requires w.alive && w.script != [] && w.script[0] == CALM && key !in w.state.objects && key.kind != SnapshotClass
    ensures var r := CreateOrAdopt(w, cr, key, payload);
            && r.0 == None && r.1.alive && r.1.script == w.script[1..] && r.1.hasConfig == w.hasConfig
            && r.1.state.objects.Keys == w.state.objects.Keys + {key}
            && r.1.state.apis == w.state.apis && r.1.state.driver == w.state.driver
  {
    hide AdoptLoop;
    assert Turned(w) == Tail(w);
  }

  // On a cluster that serves the API, both detection calls fail: ensureRBAC falls back,
  // returns nil, and the binding is missing.
  lemma BindingMissed(w: World, cr: Driver)
    requires w.alive && w.hasConfig && w.state.objects == map[] && SccServed(w.state.apis)
    requires w.script == [CALM, CALM, CALM, REJECTED, REJECTED]
    ensures var r := RunAll(w, cr, RBAC_TASKS);
            && r.0 == None && r.1.alive && r.1.script == []
            && SccServed(r.1.state.apis) && SCC_BINDING_KEY !in r.1.state.objects && r.1.state.driver == w.state.driver
  {
    hide CreateOrAdopt, RunAll, SccServed, GrantAdmission;
    UnrollRbac(w, cr);
    CreatesThree(w, cr);
    FallsBack(RunAll(w, cr, RBAC_TASKS[..3]).1, cr);
  }

  lemma CreatesThree(w: World, cr: Driver)
    requires w.alive && w.state.objects == map[] && w.script == [CALM, CALM, CALM, REJECTED, REJECTED]
    ensures var r := RunAll(w, cr, RBAC_TASKS[..3]);
            && r.0 == None && r.1.alive && r.1.script == [REJECTED, REJECTED] && r.1.hasConfig == w.hasConfig
            && r.1.state.objects.Keys == {ACCOUNT_KEY, ROLE_KEY, BINDING_KEY}
            && r.1.state.apis == w.state.apis && r.1.state.driver == w.state.driver
  {
    hide CreateOrAdopt, RunAll, SccServed, GrantAdmission;
    UnrollRbac(w, cr);
    CreatesOne(w, cr, ACCOUNT_KEY, AccountPayload);
    var w1 := CreateOrAdopt(w, cr, ACCOUNT_KEY, AccountPayload).1;
    CreatesOne(w1, cr, ROLE_KEY, RolePayload);
    var w2 := CreateOrAdopt(w1, cr, ROLE_KEY, RolePayload).1;
    CreatesOne(w2, cr, BINDING_KEY, BindingPayload("alibaba-cloud-csi-role"));
  }

  lemma FallsBack(w: World, cr: Driver)
    requires w.alive && w.hasConfig && w.script == [REJECTED, REJECTED] && NAMESPACE_KEY !in w.state.objects
    ensures var r := GrantAdmission(w, cr); r.0 == None && r.1.alive && r.1.script == [] && r.1.state == w.state
  {
    hide CreateOrAdopt, SccServed;
    var t := Tail(w);
    assert Do(w, MapScc) == (Failed(Unavailable), t);
    assert t.script == [REJECTED];
    assert Do(t, DiscoverScc) == (Failed(Unavailable), Tail(t));
    var u := Tail(t);
    assert SccAvailable(w) == (false, u);
    assert Turned(u) == u;
    assert Do(u, GetObject(NAMESPACE_KEY)) == (Failed(NotFound), u);
  }

  lemma LabelEnds(w: World)
    requires FreshReads(w.script) && LabelNamespace(w).0 == None
    ensures var s := LabelNamespace(w).1.state;
            NAMESPACE_KEY !in s.objects || Privileged(s.objects[NAMESPACE_KEY].labels)
  {
    hide Do, Privileged, FreshReads;
    var got := Do(w, GetObject(NAMESPACE_KEY));
    FreshGet(w);
    if got.0.Found? {
      var next := got.0.obj.(labels := got.0.obj.labels + PRIVILEGED_LABELS);
      UpdateServed(got.1, NAMESPACE_KEY, next);
      AddedLabels(got.0.obj.labels);
    }
  }
}
