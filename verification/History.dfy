/** What every API call keeps: versions name contents, the log only grows, the script is used up. */
module History {
  import opened Base
  import opened DriverTypes
  import opened Cluster

  ghost predicate Registered(s: State, versions: map<nat, Version>) {
    forall k | k in s.objects :: s.objects[k].rv in versions && versions[s.objects[k].rv] == Version(k, s.objects[k])
  }

  // Equal resourceVersion implies equal content, over the whole history.
  ghost predicate WellFormed(w: World) {
    && Registered(w.state, w.versions)
    && (forall i | 0 <= i < |w.log| :: Registered(w.log[i].before, w.versions))
    && (forall v | v in w.versions :: 0 < v < w.clock)
    && 0 < w.clock
  }

  predicate Extends(v: map<nat, Version>, v': map<nat, Version>) {
    forall n | n in v :: n in v' && v'[n] == v[n]
  }

  predicate IsSuffix(a: seq<Turn>, b: seq<Turn>) {
    |a| <= |b| && a == b[|b| - |a|..]
  }

  // ---- Events ----

  // The events lead from s to s'.
  ghost predicate Path(s: State, events: seq<Event>, s': State)
    decreases |events|
  {
    if events == [] then s == s'
    else
      var last := events[|events| - 1];
      last.after == s' && Path(s, events[..|events| - 1], last.before)
  }

  lemma {:induction false} PathConcat(s: State, a: seq<Event>, m: State, b: seq<Event>, s': State)
    requires Path(s, a, m) && Path(m, b, s')
    ensures Path(s, a + b, s')
    decreases |b|
  {
    if b == [] {
      assert a + b == a;
    } else {
      var last := b[|b| - 1];
      assert (a + b)[..|a + b| - 1] == a + b[..|b| - 1];
      PathConcat(s, a, m, b[..|b| - 1], last.before);
    }
  }

  // What every event keeps holds all along a path.
  lemma {:induction false} PathInvariant(s: State, events: seq<Event>, s': State, inv: State -> bool)
    requires Path(s, events, s') && inv(s)
    requires forall i | 0 <= i < |events| :: inv(events[i].before) ==> inv(events[i].after)
    ensures inv(s')
    ensures forall i | 0 <= i < |events| :: inv(events[i].before)
    decreases |events|
  {
    if events != [] {
      var front := events[..|events| - 1];
      PathInvariant(s, front, events[|events| - 1].before, inv);
      assert forall i | 0 <= i < |front| :: events[i] == front[i];
    }
  }

  // The same up to the k-th event only.
  lemma {:induction false} PathInvariantTo(s: State, events: seq<Event>, s': State, inv: State -> bool, k: nat)
    requires Path(s, events, s') && inv(s) && k <= |events|
    requires forall i | 0 <= i < k :: inv(events[i].before) ==> inv(events[i].after)
    ensures inv(if k < |events| then events[k].before else s')
    decreases |events|
  {
    if events != [] {
      var last := events[|events| - 1];
      var front := events[..|events| - 1];
      assert forall i | 0 <= i < |front| :: front[i] == events[i];
      PathInvariantTo(s, front, last.before, inv, if k == |events| then k - 1 else k);
    }
  }

  ghost predicate OnlyAt(key: Key, e: Event) {
    && e.target == OnObject(key)
    && key in e.after.objects
    && e.after == e.before.(objects := e.before.objects[key := e.after.objects[key]])
  }

  function Lookup(s: State, key: Key): Option<Obj> {
    if key in s.objects then Some(s.objects[key]) else None
  }

  // e is the event of the edit.
  ghost predicate Made(edit: Edit, name: string, e: Event) {
    match edit
    case Put(key, owners, labels, payload) =>
      && OnlyAt(key, e)
      && e.after.objects[key] == Obj(e.after.objects[key].uid, e.after.objects[key].rv, owners, labels, payload)
      && (key in e.before.objects ==> e.after.objects[key].uid == e.before.objects[key].uid)
    case Remove(key) => e.target == OnObject(key) && e.after == e.before.(objects := e.before.objects - {key})
    case PutSpec(spec) =>
      && e.after == e.before.(driver := e.after.driver)
      && e.after.driver.Some?
      && var d' := e.after.driver.value;
         d'.spec == spec &&
         if e.before.driver.None? then d'.name == name && d'.generation == 1 && d'.status == EMPTY_STATUS
         else
           var d := e.before.driver.value;
           d' == d.(spec := spec, generation := if spec == d.spec then d.generation else d.generation + 1)
    case RemoveDriver => e.after == e.before.(driver := None)
    case Serve(apis) => e.after == e.before.(apis := apis)
    case Tick(n) => e.after == e.before.(now := e.before.now + n)
  }

  ghost predicate FromScript(script: seq<Turn>, name: string, e: Event) {
    exists i, j | 0 <= i < |script| && 0 <= j < |script[i].edits| :: Made(script[i].edits[j], name, e)
  }

  // The operator never changes more of the custom resource than its status.
  ghost predicate OperatorShape(e: Event) {
    && e.after.apis == e.before.apis && e.after.now == e.before.now
    && (!e.target.OnObject? ==> e.after.objects == e.before.objects)
    && (e.after.driver.Some? <==> e.before.driver.Some?)
    && (e.after.driver.Some? ==> e.after.driver.value == e.before.driver.value.(status := e.after.driver.value.status))
  }

  ghost predicate Allowed(script: seq<Turn>, name: string, e: Event) {
    if e.byOperator then OperatorShape(e) else FromScript(script, name, e)
  }

  // ---- Uids ----

  // The custom resource of a state, if any, has an old uid and shares it with no object.
  ghost predicate DriverApart(w: World, s: State) {
    s.driver.Some? ==>
      && s.driver.value.uid < w.clock
      && forall k | k in w.state.objects :: w.state.objects[k].uid != s.driver.value.uid
  }

  ghost predicate Created(e: Event) {
    e.before.driver.None? && e.after.driver.Some?
  }

  // No uid is given out twice: all are old, custom resources and objects share none, and a
  // custom resource that is created has a uid that none before it had.
  ghost predicate FreshUids(w: World) {
    && (forall k | k in w.state.objects :: w.state.objects[k].uid < w.clock)
    && DriverApart(w, w.state)
    && (forall i | 0 <= i < |w.log| :: DriverApart(w, w.log[i].before))
    && (forall i, j | 0 <= j <= i < |w.log| && Created(w.log[i]) && w.log[j].before.driver.Some? ::
          w.log[j].before.driver.value.uid != w.log[i].after.driver.value.uid)
  }

  // One more event that creates or removes objects, or changes the custom resource.
  lemma EventFreshUids(w: World, w': World)
    requires FreshUids(w) && w.clock <= w'.clock
    requires |w'.log| == |w.log| + 1 && w'.log[..|w.log|] == w.log
    requires w'.log[|w.log|].before == w.state && w'.log[|w.log|].after == w'.state
    requires forall k | k in w'.state.objects ::
               || (k in w.state.objects && w'.state.objects[k].uid == w.state.objects[k].uid)
               || (w'.state.objects[k].uid == w.clock < w'.clock && w'.state.driver == w.state.driver)
    requires w'.state.driver.Some? ==>
               || (w.state.driver.Some? && w'.state.driver.value.uid == w.state.driver.value.uid)
               || (w'.state.driver.value.uid == w.clock < w'.clock && w'.state.objects == w.state.objects)
    ensures FreshUids(w')
  {
    forall i | 0 <= i < |w'.log|
      ensures DriverApart(w', w'.log[i].before)
    {
      assert w'.log[i].before == if i < |w.log| then w.log[i].before else w.state;
    }
    forall i, j | 0 <= j <= i < |w'.log| && Created(w'.log[i]) && w'.log[j].before.driver.Some?
      ensures w'.log[j].before.driver.value.uid != w'.log[i].after.driver.value.uid
    {
      if i < |w.log| {
        assert w'.log[i] == w.log[i] && w'.log[j] == w.log[j];
      } else if j < |w.log| {
        assert w'.log[j] == w.log[j] && DriverApart(w, w.log[j].before);
      }
    }
  }

  function Trace(w: World, w': World): seq<Event>
    requires w.log <= w'.log
  {
    w'.log[|w.log|..]
  }

  // A world reached from another one by edits and calls: its new events lead from the
  // one state to the other, and what others did was in the script.
  ghost predicate Reaches(w: World, w': World) {
    && w.log <= w'.log
    && Path(w.state, Trace(w, w'), w'.state)
    && (forall i | 0 <= i < |Trace(w, w')| :: Allowed(w.script, w.name, Trace(w, w')[i]))
    && w.clock <= w'.clock
    && w.name == w'.name
    && w.hasConfig == w'.hasConfig
    && IsSuffix(w'.script, w.script)
    && (WellFormed(w) ==> WellFormed(w') && Extends(w.versions, w'.versions))
    && (FreshUids(w) ==> FreshUids(w'))
  }

  lemma ReachesReflexive(w: World)
    ensures Reaches(w, w)
  {
    hide FreshUids;
    assert Trace(w, w) == [];
    assert w.script[0..] == w.script;
  }

  lemma SuffixScript(a: seq<Turn>, b: seq<Turn>, name: string, e: Event)
    requires IsSuffix(a, b) && Allowed(a, name, e)
    ensures Allowed(b, name, e)
  {
    hide Made, OperatorShape;
    if e.byOperator {
      return;
    }
    var i, j :| 0 <= i < |a| && 0 <= j < |a[i].edits| && Made(a[i].edits[j], name, e);
    assert b[|b| - |a| + i] == a[i];
  }

  lemma ReachesTransitive(a: World, b: World, c: World)
    requires Reaches(a, b) && Reaches(b, c)
    ensures Reaches(a, c)
  {
    hide Path, Allowed, WellFormed, FreshUids;
    assert Trace(a, c) == Trace(a, b) + Trace(b, c);
    PathConcat(a.state, Trace(a, b), b.state, Trace(b, c), c.state);
    forall i | 0 <= i < |Trace(a, c)|
      ensures Allowed(a.script, a.name, Trace(a, c)[i])
    {
      if i >= |Trace(a, b)| {
        assert Trace(a, c)[i] == Trace(b, c)[i - |Trace(a, b)|];
        SuffixScript(b.script, a.script, a.name, Trace(a, c)[i]);
      }
    }
  }

  lemma RegisteredExtends(s: State, v: map<nat, Version>, v': map<nat, Version>)
    requires Registered(s, v) && Extends(v, v')
    ensures Registered(s, v')
  {
  }

  // One new event, made by the operator or by the next edit.
  lemma EventReaches(w: World, w': World, e: Event)
    requires w'.log == w.log + [e] && e.before == w.state && e.after == w'.state
    requires Allowed(w.script, w.name, e)
    requires w.clock <= w'.clock && w'.name == w.name && w'.hasConfig == w.hasConfig
    requires w'.script == w.script && w'.alive == w.alive
    requires WellFormed(w) ==> WellFormed(w') && Extends(w.versions, w'.versions)
    requires FreshUids(w) ==> FreshUids(w')
    ensures Reaches(w, w')
  {
    hide WellFormed, Allowed, Extends, Path, FreshUids;
    assert Trace(w, w') == [e];
    PathOne(e);
    assert w'.script[0..] == w.script;
  }

  // A change that touches no object, or removes one, keeps every version.
  lemma CommitWellFormed(w: World, clock: nat, byOperator: bool, target: Target, s: State)
    requires w.clock <= clock && WellFormed(w)
    requires forall k | k in s.objects :: k in w.state.objects && s.objects[k] == w.state.objects[k]
    ensures WellFormed(Commit(w.(clock := clock), byOperator, target, s))
  {
    var w' := Commit(w.(clock := clock), byOperator, target, s);
    assert forall i | 0 <= i < |w.log| :: w'.log[i] == w.log[i];
  }

  lemma WriteWellFormed(w: World, byOperator: bool, key: Key, obj: Obj)
    requires WellFormed(w)
    ensures var w' := Write(w, byOperator, key, obj); WellFormed(w') && Extends(w.versions, w'.versions)
  {
    var w' := Write(w, byOperator, key, obj);
    assert Extends(w.versions, w'.versions);
    forall i | 0 <= i < |w'.log|
      ensures Registered(w'.log[i].before, w'.versions)
    {
      RegisteredExtends(if i < |w.log| then w.log[i].before else w.state, w.versions, w'.versions);
    }
    RegisteredExtends(w.state, w.versions, w'.versions);
  }

  lemma EditEvent(w: World, edit: Edit)
    ensures var w' := ApplyEdit(w, edit);
            && w'.log == w.log + [Event(false, w'.log[|w.log|].target, w.state, w'.state)]
            && Made(edit, w.name, w'.log[|w.log|])
            && w.clock <= w'.clock && w'.name == w.name && w'.hasConfig == w.hasConfig
            && w'.script == w.script && w'.alive == w.alive
  {
  }

  lemma EditWellFormed(w: World, edit: Edit)
    requires WellFormed(w)
    ensures var w' := ApplyEdit(w, edit); WellFormed(w') && Extends(w.versions, w'.versions)
  {
    hide WellFormed;
    match edit
    case Put(key, owners, labels, payload) =>
      var uid := if key in w.state.objects then w.state.objects[key].uid else w.clock;
      WriteWellFormed(w, false, key, Obj(uid, 0, owners, labels, payload));
    case Remove(key) =>
      CommitWellFormed(w, w.clock, false, OnObject(key), w.state.(objects := w.state.objects - {key}));
    case PutSpec(spec) =>
      if w.state.driver.None? {
        CommitWellFormed(w, w.clock + 1, false, OnDriver,
                         w.state.(driver := Some(Driver(w.name, w.clock, 1, spec, EMPTY_STATUS))));
      } else {
        var d := w.state.driver.value;
        var generation := if spec == d.spec then d.generation else d.generation + 1;
        CommitWellFormed(w, w.clock, false, OnDriver,
            w.state.(driver := Some(d.(generation := generation, spec := spec))));
      }
    case RemoveDriver => CommitWellFormed(w, w.clock, false, OnDriver, w.state.(driver := None));
    case Serve(apis) => CommitWellFormed(w, w.clock, false, OnCluster, w.state.(apis := apis));
    case Tick(n) => CommitWellFormed(w, w.clock, false, OnCluster, w.state.(now := w.state.now + n));
  }

  lemma EditFreshUids(w: World, edit: Edit)
    requires FreshUids(w)
    ensures FreshUids(ApplyEdit(w, edit))
  {
    hide FreshUids;
    EventFreshUids(w, ApplyEdit(w, edit));
  }

  // ---- Edits ----

  // Edits of the first turn of a script, made on a world that already left that turn behind.
  ghost predicate EditsReached(script: seq<Turn>, w: World, w': World) {
    && w.log <= w'.log
    && Path(w.state, Trace(w, w'), w'.state)
    && (forall i | 0 <= i < |Trace(w, w')| :: !Trace(w, w')[i].byOperator && FromScript(script, w.name, Trace(w, w')[i]))
    && w.clock <= w'.clock && w'.name == w.name && w'.hasConfig == w.hasConfig
    && w'.script == w.script && w'.alive == w.alive
    && (WellFormed(w) ==> WellFormed(w') && Extends(w.versions, w'.versions))
    && (FreshUids(w) ==> FreshUids(w'))
  }

  lemma {:induction false} EditsReach(script: seq<Turn>, w: World, from: nat)
    requires script != [] && from <= |script[0].edits|
    ensures EditsReached(script, w, ApplyEdits(w, script[0].edits[from..]))
    decreases |script[0].edits| - from
  {
    hide WellFormed, ApplyEdit, Made, Extends, FreshUids;
    var edits := script[0].edits;
    if from == |edits| {
      assert Trace(w, w) == [];
      SelfExtends(w);
    } else {
      var w1 := ApplyEdit(w, edits[from]);
      var w2 := ApplyEdits(w1, edits[from + 1..]);
      assert edits[from..][1..] == edits[from + 1..];
      EditEvent(w, edits[from]);
      EditsReach(script, w1, from + 1);
      var e := w1.log[|w.log|];
      assert FromScript(script, w.name, e);
      assert Trace(w, w2) == [e] + Trace(w1, w2);
      PathOne(e);
      PathConcat(w.state, [e], w1.state, Trace(w1, w2), w2.state);
      if WellFormed(w) {
        EditWellFormed(w, edits[from]);
        ExtendsTransitive(w.versions, w1.versions, w2.versions);
      }
      if FreshUids(w) {
        EditFreshUids(w, edits[from]);
      }
    }
  }

  lemma PathOne(e: Event)
    ensures Path(e.before, [e], e.after)
  {
    assert [e][..0] == [];
  }

  lemma SelfExtends(w: World)
    ensures Extends(w.versions, w.versions)
  {
  }

  lemma ExtendsTransitive(a: map<nat, Version>, b: map<nat, Version>, c: map<nat, Version>)
    requires Extends(a, b) && Extends(b, c)
    ensures Extends(a, c)
  {
  }

  function Tail(w: World): World {
    w.(script := Rest(w.script))
  }

  lemma TurnedReaches(w: World)
    ensures Reaches(w, Turned(w))
  {
    hide Path, FromScript, WellFormed, Extends, FreshUids;
    var w0 := Tail(w);
    if w.script == [] {
      assert Turned(w) == w;
      ReachesReflexive(w);
    } else {
      EditsReach(w.script, w0, 0);
      assert w.script[0].edits[0..] == w.script[0].edits;
      assert Trace(w, Turned(w)) == Trace(w0, Turned(w));
      WellFormedScript(w, w0);
    }
  }

  lemma WellFormedScript(w: World, w0: World)
    requires w0 == w.(script := w0.script)
    ensures WellFormed(w) ==> WellFormed(w0)
    ensures FreshUids(w) ==> FreshUids(w0)
  {
  }

  // ---- Calls ----

  function StatusPatched(s: State, base: Status, next: Status): State
    requires s.driver.Some?
  {
    var d := s.driver.value;
    s.(driver := Some(d.(status := MergeStatus(d.status, base, next))))
  }

  // e is the change the operator makes with a request.
  ghost predicate Answers(req: Request, e: Event) {
    match req
    case Create(key, obj) =>
      && OnlyAt(key, e) && key !in e.before.objects && obj.rv == 0
      && e.after.objects[key] == obj.(uid := e.after.objects[key].uid, rv := e.after.objects[key].rv)
    case Update(key, obj) =>
      && OnlyAt(key, e) && key in e.before.objects && obj.rv == e.before.objects[key].rv
      && e.after.objects[key] == obj.(uid := e.before.objects[key].uid, rv := e.after.objects[key].rv)
    case PatchProfile(key, patch) =>
      && OnlyAt(key, e) && key in e.before.objects
      && e.after.objects[key] == Patched(e.before.objects[key], patch).(rv := e.after.objects[key].rv)
    case PatchStatus(base, next) =>
      e.target == OnDriver && e.before.driver.Some? && e.after == StatusPatched(e.before, base, next)
    case _ => false
  }

  // Serving a request changes nothing, or is one operator event answering it.
  lemma EffectEvent(w: World, req: Request, lag: nat)
    ensures var w' := Effect(w, req, lag).1;
            w' == w ||
            (&& w'.log == w.log + [Event(true, w'.log[|w.log|].target, w.state, w'.state)]
             && Answers(req, w'.log[|w.log|])
             && w.clock <= w'.clock && w'.name == w.name && w'.hasConfig == w.hasConfig
             && w'.script == w.script && w'.alive == w.alive)
  {
    hide View, MergeStatus;
  }

  lemma EffectWellFormed(w: World, req: Request, lag: nat)
    requires WellFormed(w)
    ensures var w' := Effect(w, req, lag).1; WellFormed(w') && Extends(w.versions, w'.versions)
  {
    hide WellFormed, Write, Commit, View, MergeStatus;
    match req
    case Create(key, obj) => WriteWellFormed(w, true, key, obj.(uid := w.clock));
    case Update(key, obj) =>
      if key in w.state.objects {
        WriteWellFormed(w, true, key, obj.(uid := w.state.objects[key].uid));
      }
    case PatchProfile(key, patch) =>
      if key in w.state.objects {
        WriteWellFormed(w, true, key, Patched(w.state.objects[key], patch));
      }
    case PatchStatus(base, next) =>
      if w.state.driver.Some? {
        CommitWellFormed(w, w.clock, true, OnDriver, StatusPatched(w.state, base, next));
        CommitVersions(w, true, OnDriver, StatusPatched(w.state, base, next));
      }
    case _ =>
  }

  lemma EffectFreshUids(w: World, req: Request, lag: nat)
    requires FreshUids(w)
    ensures FreshUids(Effect(w, req, lag).1)
  {
    hide FreshUids, View, MergeStatus, DocumentOf;
    var w' := Effect(w, req, lag).1;
    if w' != w {
      EventFreshUids(w, w');
    }
  }

  lemma CommitVersions(w: World, byOperator: bool, target: Target, s: State)
    ensures Commit(w.(clock := w.clock), byOperator, target, s) == Commit(w, byOperator, target, s)
    ensures Commit(w, byOperator, target, s).versions == w.versions
  {
  }

  lemma AnswerShape(req: Request, e: Event)
    requires Answers(req, e)
    ensures OperatorShape(e)
  {
    hide MergeStatus, Patched;
  }

  lemma EffectReaches(w: World, req: Request, lag: nat)
    ensures Reaches(w, Effect(w, req, lag).1)
  {
    hide Reaches, Effect, WellFormed, Extends, FromScript, Answers, OperatorShape, FreshUids;
    var w' := Effect(w, req, lag).1;
    EffectEvent(w, req, lag);
    if w' == w {
      ReachesReflexive(w);
    } else {
      if WellFormed(w) {
        EffectWellFormed(w, req, lag);
      }
      if FreshUids(w) {
        EffectFreshUids(w, req, lag);
      }
      var e := w'.log[|w.log|];
      AnswerShape(req, e);
      EventReaches(w, w', e);
    }
  }

  lemma DeathReaches(w: World, w': World)
    requires Reaches(w, w')
    ensures Reaches(w, w'.(alive := false))
  {
    hide Path, Allowed, Extends;
    assert Trace(w, w'.(alive := false)) == Trace(w, w');
  }

  lemma EffectAfterTurn(w: World, req: Request)
    ensures Reaches(w, Effect(Turned(w), req, Head(w.script).lag).1)
  {
    hide Reaches, Effect, Turned;
    TurnedReaches(w);
    EffectReaches(Turned(w), req, Head(w.script).lag);
    ReachesTransitive(w, Turned(w), Effect(Turned(w), req, Head(w.script).lag).1);
  }

  // The four worlds in which a call can end.
  lemma DoCases(w: World, req: Request)
    requires w.alive
    ensures var w' := Do(w, req).1;
            var served := Effect(Turned(w), req, Head(w.script).lag).1;
            w' == Turned(w) || w' == served || w' == Turned(w).(alive := false) || w' == served.(alive := false)
  {
    hide Effect, Turned;
  }

  // No call forgets a version, rewrites the log or revives the operator.
  lemma DoReaches(w: World, req: Request)
    ensures Reaches(w, Do(w, req).1)
  {
    hide Reaches, Effect, Turned;
    ReachesReflexive(w);
    if w.alive {
      var served := Effect(Turned(w), req, Head(w.script).lag).1;
      TurnedReaches(w);
      DeathReaches(w, Turned(w));
      EffectAfterTurn(w, req);
      DeathReaches(w, served);
      DoCases(w, req);
    }
  }

  // ---- Counting disturbances ----

  function Disturbances(script: seq<Turn>): nat {
    if script == [] then 0
    else (if script[0] == CALM then 0 else 1) + Disturbances(script[1..])
  }

  lemma {:induction false} SuffixDisturbances(a: seq<Turn>, b: seq<Turn>)
    requires IsSuffix(a, b)
    ensures Disturbances(a) <= Disturbances(b)
  {
    if |a| == |b| {
      assert b[0..] == b;
    } else {
      assert b[1..][|b[1..]| - |a|..] == a;
      SuffixDisturbances(a, b[1..]);
    }
  }

  // The calls between w and w' met no disturbance.
  predicate Undisturbed(w: World, w': World) {
    Disturbances(w'.script) == Disturbances(w.script)
  }

  // A call that met no disturbance is served on the spot, on the current state.
  lemma CalmDo(w: World, req: Request)
    requires w.alive && Undisturbed(w, Do(w, req).1)
    ensures Do(w, req) == Effect(Tail(w), req, 0)
  {
    EffectScript(w, req);
    assert Head(w.script) == CALM;
    assert Turned(w) == Tail(w);
  }

  lemma EffectScript(w: World, req: Request)
    requires w.alive
    ensures Do(w, req).1.script == Rest(w.script)
  {
    var w1 := Turned(w);
    EditsKeepScript(Tail(w), Head(w.script).edits);
    assert Effect(w1, req, Head(w.script).lag).1.script == w1.script by {
      hide ApplyEdits, View, MergeStatus, Patched;
    }
  }

  lemma {:induction false} EditsKeepScript(w: World, edits: seq<Edit>)
    ensures ApplyEdits(w, edits).script == w.script
    ensures ApplyEdits(w, edits).alive == w.alive
    decreases |edits|
  {
    if edits != [] {
      EditsKeepScript(ApplyEdit(w, edits[0]), edits[1..]);
    }
  }
}
