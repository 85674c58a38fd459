/**
 Crash-safe ordering: at every moment of every run, whatever the operator writes for a
 task comes after everything earlier tasks were to put in place.
 */
module Ordering {
  import opened Base
  import opened DriverTypes
  import opened Cluster
  import opened History
  import opened Tasks
  import opened Runs
  import opened CalmRuns
  import opened Lawful

  ghost predicate FreshReads(script: seq<Turn>) {
    forall i | 0 <= i < |script| :: script[i].lag == 0
  }

  predicate AdmissionGranted(s: State) {
    || SCC_BINDING_KEY in s.objects
    || NAMESPACE_KEY !in s.objects
    || Privileged(s.objects[NAMESPACE_KEY].labels)
  }

  // What a finished task leaves behind; admission only counts when reads are fresh.
  ghost predicate Settled(t: Task, live: bool, s: State) {
    match t
    case Adopt(key, _) => key in s.objects
    case Replace(key, _) => key in s.objects
    case Ignore(key, _) => key in s.objects || !s.apis.snapshots
    case PatchIfPresent(_, _) => true
    case Admit => live ==> AdmissionGranted(s)
  }

  // ---- What others may undo ----

  ghost predicate KeepsKey(key: Key, e: Event) {
    key in e.before.objects ==> key in e.after.objects
  }

  predicate Unlabelled(s: State) {
    NAMESPACE_KEY in s.objects && !Privileged(s.objects[NAMESPACE_KEY].labels)
  }

  // An event that leaves alone what t put in place: the object is not removed; for a
  // snapshot class that is absent, its API does not become served; for admission, the SCC
  // binding is not removed or, while there is none, the namespace does not become
  // unlabelled.
  ghost predicate Spares(t: Task, e: Event) {
    match t
    case Adopt(key, _) => KeepsKey(key, e)
    case Replace(key, _) => KeepsKey(key, e)
    case Ignore(key, _) =>
      KeepsKey(key, e) && (key !in e.before.objects && e.after.apis.snapshots ==> e.before.apis.snapshots)
    case PatchIfPresent(_, _) => true
    case Admit =>
      && KeepsKey(SCC_BINDING_KEY, e)
      && (SCC_BINDING_KEY !in e.before.objects && Unlabelled(e.after) ==> Unlabelled(e.before))
  }

  // Others left alone what t put in place, from one position of the log to another.
  ghost predicate Spared(t: Task, log: seq<Event>, from: nat, to: nat)
    requires to <= |log|
  {
    forall i | from <= i < to && !log[i].byOperator :: Spares(t, log[i])
  }

  lemma SparedPrefix(t: Task, log: seq<Event>, longer: seq<Event>, from: nat, to: nat)
    requires log <= longer && to <= |log|
    ensures Spared(t, longer, from, to) <==> Spared(t, log, from, to)
  {
    assert forall i | 0 <= i < to :: longer[i] == log[i];
  }

  ghost predicate NeverRemoved(script: seq<Turn>, key: Key) {
    forall i, j | 0 <= i < |script| && 0 <= j < |script[i].edits| :: script[i].edits[j] != Remove(key)
  }

  lemma EditKeepsPresent(script: seq<Turn>, name: string, key: Key, e: Event)
    requires FromScript(script, name, e) && NeverRemoved(script, key)
    ensures KeepsKey(key, e)
  {
    var i, j :| 0 <= i < |script| && 0 <= j < |script[i].edits| && Made(script[i].edits[j], name, e);
    assert script[i].edits[j] != Remove(key);
  }

  // A script without a removal of the key spares whatever is put in place there.
  lemma NeverRemovedSpares(w: World, w': World, t: Task, from: nat)
    requires Reaches(w, w') && (t.Adopt? || t.Replace?) && NeverRemoved(w.script, t.key) && |w.log| <= from
    ensures Spared(t, w'.log, from, |w'.log|)
  {
    hide WellFormed, Path, Extends, FromScript, NeverRemoved;
    forall i | from <= i < |w'.log| && !w'.log[i].byOperator
      ensures Spares(t, w'.log[i])
    {
      assert w'.log[i] == Trace(w, w')[i - |w.log|];
      EditKeepsPresent(w.script, w.name, t.key, w'.log[i]);
    }
  }

  // ---- Nothing settled is undone ----

  lemma OperatorKeepsSettled(t: Task, live: bool, e: Event, cr: Driver, own: Task)
    requires Settled(t, live, e.before) && Typed(own) && Permitted(cr, own, e)
    ensures Settled(t, live, e.after)
  {
    hide Patched, Upsert, ForeignControlled, ControlledBy;
    var key := e.target.key;
    if key == NAMESPACE_KEY && own.Admit? && SCC_BINDING_KEY != NAMESPACE_KEY && key in e.before.objects {
      assert Privileged(e.after.objects[key].labels);
    }
  }

  lemma OthersKeepSettled(t: Task, live: bool, e: Event)
    requires Settled(t, live, e.before) && Spares(t, e)
    ensures Settled(t, live, e.after)
  {
  }

  // Along a stretch of one task, what is settled stays settled for as long as others
  // spare it.
  lemma StretchKeepsSettled(w: World, w': World, t: Task, live: bool, cr: Driver, own: Task, to: nat)
    requires Reaches(w, w') && Law(w, w', cr, own) && Settled(t, live, w.state) && Typed(own)
    requires |w.log| <= to <= |w'.log| && Spared(t, w'.log, |w.log|, to)
    ensures Settled(t, live, if to < |w'.log| then w'.log[to].before else w'.state)
  {
    hide Settled, Permitted, FromScript, WellFormed, Extends, Path, Typed, Spares;
    var events := Trace(w, w');
    var k := to - |w.log|;
    forall i | 0 <= i < k
      ensures Settled(t, live, events[i].before) ==> Settled(t, live, events[i].after)
    {
      assert events[i] == w'.log[|w.log| + i];
      if Settled(t, live, events[i].before) {
        if events[i].byOperator {
          OperatorKeepsSettled(t, live, events[i], cr, own);
        } else {
          OthersKeepSettled(t, live, events[i]);
        }
      }
    }
    PathInvariantTo(w.state, events, w'.state, s => Settled(t, live, s), k);
  }

  lemma FreshScript(w: World, w': World)
    requires Reaches(w, w') && FreshReads(w.script)
    ensures FreshReads(w'.script)
  {
    hide Path, WellFormed, Allowed;
    forall i | 0 <= i < |w'.script|
      ensures w'.script[i] == w.script[|w.script| - |w'.script| + i]
    {
    }
  }

  // ---- A task that succeeds is settled ----

  // A call that reports neither a transport failure nor a crash was served in full.
  lemma ServedDo(w: World, req: Request)
    requires Do(w, req).0 != Failed(Unavailable) && Do(w, req).0 != Failed(Crashed)
    ensures Do(w, req) == Effect(Turned(w), req, Head(w.script).lag)
  {
    hide Effect, Turned;
  }

  lemma CreateSettles(w: World, key: Key, obj: Obj)
    requires Do(w, Create(key, obj)).0 in {Done, Failed(AlreadyExists)}
    ensures key in Do(w, Create(key, obj)).1.state.objects
  {
    hide Turned;
    ServedDo(w, Create(key, obj));
  }

  lemma AdoptSettles(w: World, cr: Driver, key: Key, payload: Payload)
    requires WellFormed(w) && Typed(Adopt(key, payload))
    requires CreateOrAdopt(w, cr, key, payload).0 == None
    requires var w' := CreateOrAdopt(w, cr, key, payload).1;
             |w.log| <= |w'.log| && Spared(Adopt(key, payload), w'.log, |w.log|, |w'.log|)
    ensures key in CreateOrAdopt(w, cr, key, payload).1.state.objects
  {
    hide Do, Reaches, Law, WellFormed, AdoptLoop, AdoptStep, Spares;
    var t := Adopt(key, payload);
    var create := Create(key, Manifest(cr, payload));
    var made := Do(w, create);
    DoReaches(w, create);
    ReachedWellFormed(w, made.1);
    CreateReplies(w, key, Manifest(cr, payload));
    CreateSettles(w, key, Manifest(cr, payload));
    if made.0 == Failed(AlreadyExists) {
      var last := AdoptLoop(made.1, cr, key, ATTEMPTS).1;
      AdoptLoopLaw(made.1, cr, t, key, payload, ATTEMPTS);
      AdoptLoopReaches(made.1, cr, key, ATTEMPTS);
      LogGrows(w, made.1);
      LogGrows(made.1, last);
      StretchKeepsSettled(made.1, last, t, true, cr, t, |last.log|);
    }
  }

  lemma LogGrows(w: World, w': World)
    requires Reaches(w, w')
    ensures w.log <= w'.log && |w.log| <= |w'.log|
  {
  }

  lemma CreateReplies(w: World, key: Key, obj: Obj)
    ensures Do(w, Create(key, obj)).0.Done? || Do(w, Create(key, obj)).0.Failed?
  {
    hide Turned, Write;
  }

  lemma {:induction false} UpdateSettles(w: World, key: Key, desired: Obj, attempts: nat)
    requires UpdateLoop(w, key, desired, attempts).0 == None
    ensures key in UpdateLoop(w, key, desired, attempts).1.state.objects
    decreases attempts
  {
    hide Do;
    var r := UpdateOnce(w, key, desired);
    if r.0 == Some(Conflict) {
      UpdateSettles(r.2, key, r.1, attempts - 1);
    } else {
      var got := Do(w, GetObject(key));
      GetReplies(w, key);
      if got.0 == Failed(NotFound) {
        CreateReplies(got.1, key, desired);
        CreateSettles(got.1, key, desired);
      } else if got.0.Found? {
        UpdateServed(got.1, key, desired.(rv := got.0.obj.rv));
      }
    }
  }

  lemma GetReplies(w: World, key: Key)
    ensures Do(w, GetObject(key)).0.Found? || Do(w, GetObject(key)).0.Failed?
  {
    hide Turned, View;
  }

  lemma UpdateServed(w: World, key: Key, obj: Obj)
    ensures Do(w, Update(key, obj)).0.Done? || Do(w, Update(key, obj)).0.Failed?
    ensures Do(w, Update(key, obj)).0 == Done ==>
              var s := Do(w, Update(key, obj)).1.state; key in s.objects && BodyOf(s.objects[key]) == BodyOf(obj)
  {
    hide Turned;
    if Do(w, Update(key, obj)).0 == Done {
      ServedDo(w, Update(key, obj));
    }
  }

  lemma IgnoreSettles(w: World, cr: Driver, key: Key, payload: Payload)
    requires CreateOrIgnore(w, cr, key, payload).0 == None
    ensures Settled(Ignore(key, payload), true, CreateOrIgnore(w, cr, key, payload).1.state)
  {
    hide Turned;
    ServedDo(w, Create(key, Manifest(cr, payload)));
  }

  lemma LabelSettles(w: World)
    requires FreshReads(w.script) && LabelNamespace(w).0 == None
    ensures AdmissionGranted(LabelNamespace(w).1.state)
  {
    hide Do, Privileged;
    var got := Do(w, GetObject(NAMESPACE_KEY));
    FreshGet(w);
    if got.0.Found? {
      var ns := got.0.obj;
      var next := ns.(labels := ns.labels + PRIVILEGED_LABELS);
      UpdateServed(got.1, NAMESPACE_KEY, next);
      AddedLabels(ns.labels);
    }
  }

  lemma AddedLabels(labels: map<string, string>)
    ensures Privileged(labels + PRIVILEGED_LABELS)
  {
  }

  lemma FreshGet(w: World)
    requires FreshReads(w.script)
    ensures var r := Do(w, GetObject(NAMESPACE_KEY));
            && (r.0 == Failed(NotFound) ==> NAMESPACE_KEY !in r.1.state.objects)
            && (r.0.Found? ==> Lookup(r.1.state, NAMESPACE_KEY) == Some(r.0.obj))
            && (r.0.Found? || r.0.Failed?)
  {
    hide Turned;
    var r := Do(w, GetObject(NAMESPACE_KEY));
    if r.0.Found? || r.0 == Failed(NotFound) {
      ServedDo(w, GetObject(NAMESPACE_KEY));
    }
  }

  // A task that returned nil has put its object in place, unless others undid it meanwhile.
  lemma TaskSettles(w: World, cr: Driver, t: Task)
    requires WellFormed(w) && Typed(t) && RunTask(w, cr, t).0 == None
    ensures |w.log| <= |RunTask(w, cr, t).1.log|
    ensures var w' := RunTask(w, cr, t).1;
            Spared(t, w'.log, |w.log|, |w'.log|) ==> Settled(t, FreshReads(w.script), w'.state)
  {
    hide WellFormed, Reaches, CreateOrAdopt, UpdateLoop, CreateOrIgnore, LabelNamespace, SccAvailable, FreshReads,
        Settled, Spares;
    var w' := RunTask(w, cr, t).1;
    RunTaskReaches(w, cr, t);
    LogGrows(w, w');
    if Spared(t, w'.log, |w.log|, |w'.log|) {
      match t
      case Adopt(key, payload) =>
        AdoptSettles(w, cr, key, payload);
        PresentIsSettled(t, FreshReads(w.script), w'.state);
      case Replace(key, payload) =>
        UpdateSettles(w, key, Manifest(cr, payload), ATTEMPTS);
        PresentIsSettled(t, FreshReads(w.script), w'.state);
      case Ignore(key, payload) =>
        IgnoreSettles(w, cr, key, payload);
        WeakerSettled(t, FreshReads(w.script), true, w'.state);
      case PatchIfPresent(_, _) => PatchIsSettled(t, FreshReads(w.script), w'.state);
      case Admit => AdmitSettles(w, cr);
    }
  }

  lemma PresentIsSettled(t: Task, live: bool, s: State)
    requires (t.Adopt? || t.Replace?) && t.key in s.objects
    ensures Settled(t, live, s)
  {
  }

  lemma PatchIsSettled(t: Task, live: bool, s: State)
    requires t.PatchIfPresent?
    ensures Settled(t, live, s)
  {
  }

  lemma AdmitSettles(w: World, cr: Driver)
    requires WellFormed(w) && GrantAdmission(w, cr).0 == None
    requires var w' := GrantAdmission(w, cr).1; |w.log| <= |w'.log| && Spared(Admit, w'.log, |w.log|, |w'.log|)
    ensures Settled(Admit, FreshReads(w.script), GrantAdmission(w, cr).1.state)
  {
    hide WellFormed, Reaches, CreateOrAdopt, LabelNamespace, SccAvailable, FreshReads, Privileged;
    var scc := SccAvailable(w);
    var w' := GrantAdmission(w, cr).1;
    SccAvailableReaches(w);
    LogGrows(w, scc.1);
    ReachedWellFormed(w, scc.1);
    if scc.0 {
      CreateOrAdoptReaches(scc.1, cr, SCC_BINDING_KEY, SCC_BINDING);
      LogGrows(scc.1, w');
      assert Spared(Adopt(SCC_BINDING_KEY, SCC_BINDING), w'.log, |scc.1.log|, |w'.log|) by {
        assert forall i | |w.log| <= i < |w'.log| && !w'.log[i].byOperator :: Spares(Admit, w'.log[i]);
      }
      AdoptSettles(scc.1, cr, SCC_BINDING_KEY, SCC_BINDING);
    } else if FreshReads(w.script) {
      FreshScript(w, scc.1);
      LabelSettles(scc.1);
    }
  }

  // ---- The whole list ----

  // The first n tasks are settled in s, each unless others undid it since `start`.
  ghost predicate SettledUpTo(tasks: seq<Task>, n: nat, live: bool, log: seq<Event>, start: nat, to: nat, s: State)
    requires n <= |tasks| && to <= |log|
  {
    forall m | 0 <= m < n :: Spared(tasks[m], log, start, to) ==> Settled(tasks[m], live, s)
  }

  // The i-th event was written for task n, with every earlier task settled that others
  // had spared until then.
  ghost predicate InOrder(cr: Driver, tasks: seq<Task>, n: nat, live: bool, log: seq<Event>, start: nat, i: nat) {
    && i < |log| && n < |tasks|
    && Permitted(cr, tasks[n], log[i])
    && SettledUpTo(tasks, n, live, log, start, i, log[i].before)
  }

  lemma InOrderPrefix(
      cr: Driver, tasks: seq<Task>, n: nat, live: bool, log: seq<Event>, longer: seq<Event>, start: nat, i: nat)
    requires log <= longer && InOrder(cr, tasks, n, live, log, start, i)
    ensures InOrder(cr, tasks, n, live, longer, start, i)
  {
    hide Permitted, Settled, Spared;
    assert longer[i] == log[i];
    forall m | 0 <= m < n && Spared(tasks[m], longer, start, i)
      ensures Settled(tasks[m], live, longer[i].before)
    {
      SparedPrefix(tasks[m], log, longer, start, i);
    }
  }

  // Every prefix of every run is in order: the statement is about each event of the log.
  lemma {:induction false} RunInOrder(w: World, cr: Driver, tasks: seq<Task>, done: nat, live: bool, start: nat)
    requires done <= |tasks| && AllTyped(tasks) && WellFormed(w) && (live ==> FreshReads(w.script)) && start <= |w.log|
    requires SettledUpTo(tasks, done, live, w.log, start, |w.log|, w.state)
    ensures var r := RunAll(w, cr, tasks[done..]);
            && w.log <= r.1.log
            && (forall i | |w.log| <= i < |r.1.log| && r.1.log[i].byOperator ::
                  exists n | done <= n < |tasks| :: InOrder(cr, tasks, n, live, r.1.log, start, i))
            && (r.0 == None ==> SettledUpTo(tasks, |tasks|, live, r.1.log, start, |r.1.log|, r.1.state))
    decreases |tasks| - done
  {
    hide SettledUpTo, WellFormed, FreshReads, Reaches, RunTask, InOrder, Typed;
    if done < |tasks| {
      var t := tasks[done];
      assert tasks[done..][0] == t && tasks[done..][1..] == tasks[done + 1..];
      var r := RunTask(w, cr, t);
      TaskStretch(w, cr, tasks, done, live, start);
      if r.0.None? {
        RunInOrder(r.1, cr, tasks, done + 1, live, start);
        var last := RunAll(r.1, cr, tasks[done + 1..]).1;
        forall i | |w.log| <= i < |r.1.log| && last.log[i].byOperator
          ensures InOrder(cr, tasks, done, live, last.log, start, i)
        {
          assert last.log[i] == r.1.log[i];
          InOrderPrefix(cr, tasks, done, live, r.1.log, last.log, start, i);
        }
      }
    }
  }

  lemma TaskStretch(w: World, cr: Driver, tasks: seq<Task>, done: nat, live: bool, start: nat)
    requires done < |tasks| && AllTyped(tasks) && WellFormed(w) && (live ==> FreshReads(w.script)) && start <= |w.log|
    requires SettledUpTo(tasks, done, live, w.log, start, |w.log|, w.state)
    ensures var r := RunTask(w, cr, tasks[done]);
            && w.log <= r.1.log
            && WellFormed(r.1) && (live ==> FreshReads(r.1.script))
            && (forall i | |w.log| <= i < |r.1.log| && r.1.log[i].byOperator ::
              InOrder(cr, tasks, done, live, r.1.log, start, i))
            && (r.0 == None ==> SettledUpTo(tasks, done + 1, live, r.1.log, start, |r.1.log|, r.1.state))
  {
    hide Settled, WellFormed, FreshReads, Reaches, RunTask, Permitted, Spared, Typed;
    var t := tasks[done];
    assert Typed(t);
    var r := RunTask(w, cr, t);
    TaskLaw(w, cr, t);
    RunTaskReaches(w, cr, t);
    LogGrows(w, r.1);
    ReachedWellFormed(w, r.1);
    if live {
      FreshScript(w, r.1);
    }
    forall i | |w.log| <= i < |r.1.log|
      ensures SettledUpTo(tasks, done, live, r.1.log, start, i, r.1.log[i].before)
    {
      SettledDuring(w, cr, tasks, done, live, start, i);
    }
    if r.0 == None {
      var to := |r.1.log|;
      SettledDuring(w, cr, tasks, done, live, start, to);
      TaskSettles(w, cr, t);
      forall m | 0 <= m < done + 1 && Spared(tasks[m], r.1.log, start, to)
        ensures Settled(tasks[m], live, r.1.state)
      {
        if m == done {
          SparedTail(t, r.1.log, start, |w.log|, to);
          WeakerSettled(t, live, FreshReads(w.script), r.1.state);
        }
      }
    }
  }

  lemma SettledDuring(w: World, cr: Driver, tasks: seq<Task>, done: nat, live: bool, start: nat, i: nat)
    requires done < |tasks| && AllTyped(tasks) && WellFormed(w) && start <= |w.log|
    requires SettledUpTo(tasks, done, live, w.log, start, |w.log|, w.state)
    requires |w.log| <= i <= |RunTask(w, cr, tasks[done]).1.log|
    ensures var log := RunTask(w, cr, tasks[done]).1.log;
            SettledUpTo(tasks, done, live, log, start, i,
                        if i < |log| then log[i].before else RunTask(w, cr, tasks[done]).1.state)
  {
    hide Settled, WellFormed, Reaches, RunTask, Permitted, Spared, Typed, Law;
    var t := tasks[done];
    assert Typed(t);
    var r := RunTask(w, cr, t);
    TaskLaw(w, cr, t);
    RunTaskReaches(w, cr, t);
    LogGrows(w, r.1);
    forall m | 0 <= m < done && Spared(tasks[m], r.1.log, start, i)
      ensures Settled(tasks[m], live, if i < |r.1.log| then r.1.log[i].before else r.1.state)
    {
      SparedHead(tasks[m], r.1.log, start, |w.log|, i);
      SparedPrefix(tasks[m], w.log, r.1.log, start, |w.log|);
      SparedTail(tasks[m], r.1.log, start, |w.log|, i);
      StretchKeepsSettled(w, r.1, tasks[m], live, cr, t, i);
    }
  }

  lemma SparedTail(t: Task, log: seq<Event>, start: nat, from: nat, to: nat)
    requires start <= from && to <= |log| && Spared(t, log, start, to)
    ensures Spared(t, log, from, to)
  {
  }

  lemma SparedHead(t: Task, log: seq<Event>, start: nat, to: nat, end: nat)
    requires to <= end <= |log| && Spared(t, log, start, end)
    ensures Spared(t, log, start, to)
  {
  }

  lemma WeakerSettled(t: Task, live: bool, live': bool, s: State)
    requires (live ==> live') && Settled(t, live', s)
    ensures Settled(t, live, s)
  {
  }
}
