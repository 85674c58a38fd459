/**
 The exact result of the two apply helpers when no call fails and every read is fresh, for
 all edits others make in between.
 */
module Verdicts {
  import opened Base
  import opened DriverTypes
  import opened Cluster
  import opened History
  import opened Tasks
  import opened Lawful

  // No failed call, no crash, no stale read; any edits.
  ghost predicate Plain(script: seq<Turn>) {
    forall i | 0 <= i < |script| :: script[i].fault == NoFault && script[i].lag == 0
  }

  predicate Touched(edits: seq<Edit>, key: Key) {
    exists i | 0 <= i < |edits| :: edits[i] == Remove(key) || (edits[i].Put? && edits[i].key == key)
  }

  // The owners of the object at a key, None if there is no object.
  function OwnersIn(s: State, key: Key): Option<seq<OwnerRef>> {
    if key in s.objects then Some(s.objects[key].owners) else None
  }

  function AfterEdit(o: Option<seq<OwnerRef>>, edit: Edit, key: Key): Option<seq<OwnerRef>> {
    match edit
    case Put(k, owners, _, _) => if k == key then Some(owners) else o
    case Remove(k) => if k == key then None else o
    case _ => o
  }

  function OwnersAfter(o: Option<seq<OwnerRef>>, edits: seq<Edit>, key: Key): Option<seq<OwnerRef>>
    decreases |edits|
  {
    if edits == [] then o else OwnersAfter(AfterEdit(o, edits[0], key), edits[1..], key)
  }

  // The owners after the edits of the first n turns.
  function OwnersAt(script: seq<Turn>, o: Option<seq<OwnerRef>>, key: Key, n: nat): Option<seq<OwnerRef>> {
    if n == 0 then o else OwnersAt(Rest(script), OwnersAfter(o, Head(script).edits, key), key, n - 1)
  }

  function EditsAt(script: seq<Turn>, n: nat): seq<Edit> {
    if n < |script| then script[n].edits else []
  }

  // ---- Edits at one key ----

  lemma {:induction false} EditsAtKey(w: World, edits: seq<Edit>, key: Key)
    requires WellFormed(w)
    ensures var w' := ApplyEdits(w, edits);
            && OwnersIn(w'.state, key) == OwnersAfter(OwnersIn(w.state, key), edits, key)
            && w.clock <= w'.clock
            && (!Touched(edits, key) ==> Lookup(w'.state, key) == Lookup(w.state, key))
            && (Touched(edits, key) && key in w'.state.objects ==> w'.state.objects[key].rv >= w.clock)
    decreases |edits|
  {
    hide WellFormed;
    if edits != [] {
      var w1 := ApplyEdit(w, edits[0]);
      EditWellFormed(w, edits[0]);
      EditAtKey(w, edits[0], key);
      EditsAtKey(w1, edits[1..], key);
      TouchedCons(edits, key);
    }
  }

  lemma EditAtKey(w: World, edit: Edit, key: Key)
    ensures var w' := ApplyEdit(w, edit);
            && OwnersIn(w'.state, key) == OwnersAfter(OwnersIn(w.state, key), [edit], key)
            && w.clock <= w'.clock
            && (!Touched([edit], key) ==> Lookup(w'.state, key) == Lookup(w.state, key))
            && (Touched([edit], key) && key in w'.state.objects ==> w'.state.objects[key].rv >= w.clock)
  {
    assert [edit][1..] == [];
    assert [edit][0] == edit;
  }

  lemma TouchedCons(edits: seq<Edit>, key: Key)
    requires edits != []
    ensures Touched(edits, key) <==> Touched([edits[0]], key) || Touched(edits[1..], key)
    ensures forall o :: OwnersAfter(o, edits, key) == OwnersAfter(OwnersAfter(o, [edits[0]], key), edits[1..], key)
  {
    var e, rest := edits[0], edits[1..];
    assert [e][1..] == [];
    if Touched(edits, key) {
      var i :| 0 <= i < |edits| && (edits[i] == Remove(key) || (edits[i].Put? && edits[i].key == key));
      if i == 0 {
        assert [e][0] == edits[i];
      } else {
        assert rest[i - 1] == edits[i];
      }
    }
    if Touched([e], key) {
      assert edits[0] == e;
    }
    if Touched(rest, key) {
      var i :| 0 <= i < |rest| && (rest[i] == Remove(key) || (rest[i].Put? && rest[i].key == key));
      assert edits[i + 1] == rest[i];
    }
  }

  // ---- One call, one round ----

  lemma PlainDo(w: World, req: Request, key: Key)
    requires w.alive && WellFormed(w) && Plain(w.script)
    ensures var t := Turned(w);
            && Do(w, req) == Effect(t, req, 0)
            && t.alive && t.script == Rest(w.script) && Plain(t.script) && WellFormed(t)
            && OwnersIn(t.state, key) == OwnersAfter(OwnersIn(w.state, key), Head(w.script).edits, key)
            && (!Touched(Head(w.script).edits, key) ==> Lookup(t.state, key) == Lookup(w.state, key))
            && (Touched(Head(w.script).edits, key) && key in t.state.objects ==> t.state.objects[key].rv >= w.clock)
  {
    hide Effect, ApplyEdits, OwnersAfter, Touched, WellFormed, Path, FromScript, Extends;
    TurnedReaches(w);
    ReachedWellFormed(w, Turned(w));
    EditsKeepScript(Tail(w), Head(w.script).edits);
    WellFormedScript(w, Tail(w));
    EditsAtKey(Tail(w), Head(w.script).edits, key);
  }

  lemma VersionIsOld(w: World, key: Key)
    requires WellFormed(w) && key in w.state.objects
    ensures 0 < w.state.objects[key].rv < w.clock
  {
  }

  // What one attempt of createOrUpdate returns.
  function UpdateRound(script: seq<Turn>, o: Option<seq<OwnerRef>>, key: Key, stamped: bool): Option<Error> {
    var write := EditsAt(script, 1);
    if OwnersAt(script, o, key, 1).None? then
      if stamped then Some(Invalid) else if OwnersAt(script, o, key, 2).Some? then Some(AlreadyExists) else None
    else if OwnersAt(script, o, key, 2).None? then Some(NotFound)
    else if Touched(write, key) then Some(Conflict)
    else None
  }

  lemma TwoTurns(script: seq<Turn>, o: Option<seq<OwnerRef>>, key: Key)
    ensures var o1 := OwnersAfter(o, Head(script).edits, key);
            && OwnersAt(script, o, key, 1) == o1
            && OwnersAt(script, o, key, 2) == OwnersAfter(o1, Head(Rest(script)).edits, key)
            && EditsAt(script, 1) == Head(Rest(script)).edits
  {
    hide OwnersAfter;
    var r := Rest(script);
    var o1 := OwnersAfter(o, Head(script).edits, key);
    assert OwnersAt(r, o1, key, 1) == OwnersAt(Rest(r), OwnersAfter(o1, Head(r).edits, key), key, 0);
  }

  lemma UpdateRoundIsExact(w: World, key: Key, desired: Obj)
    requires w.alive && WellFormed(w) && Plain(w.script) && key.kind !in {StorageProfile, SnapshotClass}
    ensures var r := UpdateOnce(w, key, desired);
            var o := OwnersIn(w.state, key);
            && r.0 == UpdateRound(w.script, o, key, desired.rv != 0)
            && (r.0 == Some(Conflict) ==>
                  && r.1.rv != 0 && r.2.alive && WellFormed(r.2)
                  && Plain(r.2.script) && r.2.script == Rest(Rest(w.script))
                  && OwnersIn(r.2.state, key) == OwnersAt(w.script, o, key, 2))
  {
    hide Turned, OwnersAfter, OwnersAt, EditsAt, Touched, WellFormed, Plain, Write;
    var t := Turned(w);
    PlainDo(w, GetObject(key), key);
    TwoTurns(w.script, OwnersIn(w.state, key), key);
    if key in t.state.objects {
      VersionIsOld(t, key);
      PlainDo(t, Update(key, desired.(rv := t.state.objects[key].rv)), key);
    } else {
      PlainDo(t, Create(key, desired), key);
    }
  }

  // ---- createOrUpdate ----

  function UpdateVerdict(
      script: seq<Turn>, o: Option<seq<OwnerRef>>, key: Key, stamped: bool, attempts: nat): Option<Error>
  {
    if attempts == 0 then Some(Conflict)
    else
      var r := UpdateRound(script, o, key, stamped);
      if r != Some(Conflict) then r
      else UpdateVerdict(Rest(Rest(script)), OwnersAt(script, o, key, 2), key, true, attempts - 1)
  }

  lemma {:induction false} UpdateLoopIsExact(w: World, key: Key, desired: Obj, attempts: nat)
    requires w.alive && WellFormed(w) && Plain(w.script) && key.kind !in {StorageProfile, SnapshotClass}
    ensures UpdateLoop(w, key, desired, attempts).0 ==
            UpdateVerdict(w.script, OwnersIn(w.state, key), key, desired.rv != 0, attempts)
    decreases attempts
  {
    hide WellFormed, Plain, UpdateOnce, UpdateRound, OwnersAt;
    if attempts > 0 {
      UpdateRoundIsExact(w, key, desired);
      var r := UpdateOnce(w, key, desired);
      if r.0 == Some(Conflict) {
        UpdateLoopIsExact(r.2, key, r.1, attempts - 1);
      }
    }
  }

  // Round n reads the object and meets a newer one when it writes.
  predicate UpdateConflicts(script: seq<Turn>, o: Option<seq<OwnerRef>>, key: Key, n: nat) {
    && OwnersAt(script, o, key, 2 * n + 1).Some?
    && OwnersAt(script, o, key, 2 * n + 2).Some?
    && Touched(EditsAt(script, 2 * n + 1), key)
  }

  // Round n reads the object and nobody touches it before the write, or it is the first
  // round and there is no object at the read and at the create.
  predicate UpdateWins(script: seq<Turn>, o: Option<seq<OwnerRef>>, key: Key, stamped: bool, n: nat) {
    if OwnersAt(script, o, key, 2 * n + 1).Some? then !Touched(EditsAt(script, 2 * n + 1), key)
    else n == 0 && !stamped && OwnersAt(script, o, key, 2).None?
  }

  ghost predicate UpdateSucceeds(script: seq<Turn>, o: Option<seq<OwnerRef>>, key: Key, stamped: bool, attempts: nat) {
    exists n | 0 <= n < attempts ::
      UpdateWins(script, o, key, stamped, n) && forall m | 0 <= m < n :: UpdateConflicts(script, o, key, m)
  }

  lemma LaterTurns(script: seq<Turn>, o: Option<seq<OwnerRef>>, key: Key, n: nat)
    ensures OwnersAt(script, o, key, n + 2) == OwnersAt(Rest(Rest(script)), OwnersAt(script, o, key, 2), key, n)
    ensures EditsAt(script, n + 2) == EditsAt(Rest(Rest(script)), n)
  {
    hide OwnersAfter;
    TwoTurns(script, o, key);
    var r := Rest(script);
    var o1 := OwnersAfter(o, Head(script).edits, key);
    assert OwnersAt(script, o, key, n + 2) == OwnersAt(r, o1, key, n + 1);
  }

  lemma UntouchedStays(o: Option<seq<OwnerRef>>, edits: seq<Edit>, key: Key)
    requires !Touched(edits, key)
    ensures OwnersAfter(o, edits, key) == o
    decreases |edits|
  {
    if edits != [] {
      TouchedCons(edits, key);
      assert [edits[0]][1..] == [];
      assert !Touched([edits[0]], key) ==> OwnersAfter(o, [edits[0]], key) == o by {
        assert [edits[0]][0] == edits[0];
      }
      UntouchedStays(o, edits[1..], key);
    }
  }

  lemma {:induction false} UpdateVerdictMeans(
      script: seq<Turn>, o: Option<seq<OwnerRef>>, key: Key, stamped: bool, attempts: nat)
    ensures UpdateVerdict(script, o, key, stamped, attempts) == None <==>
            UpdateSucceeds(script, o, key, stamped, attempts)
    decreases attempts
  {
    hide OwnersAt, EditsAt, OwnersAfter, Touched;
    if attempts > 0 {
      var later, o2 := Rest(Rest(script)), OwnersAt(script, o, key, 2);
      FirstUpdateRound(script, o, key, stamped);
      if UpdateRound(script, o, key, stamped) == Some(Conflict) {
        UpdateVerdictMeans(later, o2, key, true, attempts - 1);
        ShiftRounds(script, o, key, stamped, attempts);
      } else if UpdateSucceeds(script, o, key, stamped, attempts) {
        var n :| 0 <= n < attempts && UpdateWins(script, o, key, stamped, n) &&
                 forall m | 0 <= m < n :: UpdateConflicts(script, o, key, m);
        assert n == 0;
      } else {
        assert !UpdateWins(script, o, key, stamped, 0);
      }
    }
  }

  lemma FirstUpdateRound(script: seq<Turn>, o: Option<seq<OwnerRef>>, key: Key, stamped: bool)
    ensures UpdateRound(script, o, key, stamped) == Some(Conflict) <==> UpdateConflicts(script, o, key, 0)
    ensures UpdateRound(script, o, key, stamped) == None <==> UpdateWins(script, o, key, stamped, 0)
  {
    hide OwnersAfter, Touched;
    TwoTurns(script, o, key);
    if !Touched(EditsAt(script, 1), key) {
      UntouchedStays(OwnersAt(script, o, key, 1), EditsAt(script, 1), key);
    }
  }

  lemma LaterRound(script: seq<Turn>, o: Option<seq<OwnerRef>>, key: Key, stamped: bool, n: nat)
    ensures var later, o2 := Rest(Rest(script)), OwnersAt(script, o, key, 2);
            && (UpdateConflicts(script, o, key, n + 1) <==> UpdateConflicts(later, o2, key, n))
            && (UpdateWins(script, o, key, stamped, n + 1) <==> UpdateWins(later, o2, key, true, n))
  {
    hide OwnersAt, EditsAt, Touched;
    LaterTurns(script, o, key, 2 * n + 1);
    LaterTurns(script, o, key, 2 * n + 2);
  }

  lemma ShiftRounds(script: seq<Turn>, o: Option<seq<OwnerRef>>, key: Key, stamped: bool, attempts: nat)
    requires attempts > 0 && UpdateConflicts(script, o, key, 0) && !UpdateWins(script, o, key, stamped, 0)
    ensures UpdateSucceeds(script, o, key, stamped, attempts) <==>
            UpdateSucceeds(Rest(Rest(script)), OwnersAt(script, o, key, 2), key, true, attempts - 1)
  {
    hide UpdateConflicts, UpdateWins, OwnersAt;
    var later, o2 := Rest(Rest(script)), OwnersAt(script, o, key, 2);
    if UpdateSucceeds(script, o, key, stamped, attempts) {
      var n :| 0 <= n < attempts && UpdateWins(script, o, key, stamped, n) &&
               forall m | 0 <= m < n :: UpdateConflicts(script, o, key, m);
      LaterRound(script, o, key, stamped, n - 1);
      forall m | 0 <= m < n - 1
        ensures UpdateConflicts(later, o2, key, m)
      {
        assert UpdateConflicts(script, o, key, m + 1);
        LaterRound(script, o, key, stamped, m);
      }
      assert UpdateWins(later, o2, key, true, n - 1);
    }
    if UpdateSucceeds(later, o2, key, true, attempts - 1) {
      var n :| 0 <= n < attempts - 1 && UpdateWins(later, o2, key, true, n) &&
               forall m | 0 <= m < n :: UpdateConflicts(later, o2, key, m);
      LaterRound(script, o, key, stamped, n);
      forall m | 0 <= m < n + 1
        ensures UpdateConflicts(script, o, key, m)
      {
        if m > 0 {
          assert UpdateConflicts(later, o2, key, m - 1);
          LaterRound(script, o, key, stamped, m - 1);
        }
      }
      assert UpdateWins(script, o, key, stamped, n + 1);
    }
  }

  // createOrUpdate succeeds exactly when, within five rounds, the first one that does not
  // conflict reads the object and nobody touches it before the write, or is the very first
  // and finds no object at the read and at the create.
  lemma CreateOrUpdateIsExact(w: World, cr: Driver, key: Key, payload: Payload)
    requires w.alive && WellFormed(w) && Plain(w.script) && key.kind !in {StorageProfile, SnapshotClass}
    ensures CreateOrUpdate(w, cr, key, payload).0 == None <==>
            UpdateSucceeds(w.script, OwnersIn(w.state, key), key, false, ATTEMPTS)
    ensures CreateOrUpdate(w, cr, key, payload).0 ==
            UpdateVerdict(w.script, OwnersIn(w.state, key), key, false, ATTEMPTS)
  {
    hide WellFormed, Plain, UpdateLoop, UpdateVerdict, UpdateSucceeds;
    UpdateLoopIsExact(w, key, Manifest(cr, payload), ATTEMPTS);
    UpdateVerdictMeans(w.script, OwnersIn(w.state, key), key, false, ATTEMPTS);
  }

  // One deletion between the read and the update, without any other interference, defeats
  // the call: Update on a key that is gone is not retried.
  lemma DeletionAlone(w: World, cr: Driver, key: Key, payload: Payload)
    requires w.alive && WellFormed(w) && key in w.state.objects && key.kind !in {StorageProfile, SnapshotClass}
    requires w.script == [CALM, Turn([Remove(key)], NoFault, 0)]
    ensures CreateOrUpdate(w, cr, key, payload).0 == Some(NotFound)
  {
    hide WellFormed;
    CreateOrUpdateIsExact(w, cr, key, payload);
    TwoTurns(w.script, OwnersIn(w.state, key), key);
    assert w.script[1].edits[1..] == [];
  }

  // So does a competing create between the read and the create.
  lemma CompetingCreate(w: World, cr: Driver, key: Key, payload: Payload, put: Edit)
    requires w.alive && WellFormed(w) && key !in w.state.objects && key.kind !in {StorageProfile, SnapshotClass}
    requires put.Put? && put.key == key && w.script == [CALM, Turn([put], NoFault, 0)]
    ensures CreateOrUpdate(w, cr, key, payload).0 == Some(AlreadyExists)
  {
    hide WellFormed;
    CreateOrUpdateIsExact(w, cr, key, payload);
    TwoTurns(w.script, OwnersIn(w.state, key), key);
    assert w.script[1].edits[1..] == [];
  }

  // ---- createOrAdopt ----

  // What one attempt of the adoption returns.
  function AdoptRound(script: seq<Turn>, o: Option<seq<OwnerRef>>, key: Key, cr: Driver): Option<Error> {
    var read := OwnersAt(script, o, key, 1);
    if read.None? then Some(NotFound)
    else if ControlledBy(read.value, cr.uid) then None
    else if ForeignControlled(read.value, ControllerRef(cr)) then Some(AlreadyOwned)
    else if OwnersAt(script, o, key, 2).None? then Some(NotFound)
    else if Touched(EditsAt(script, 1), key) then Some(Conflict)
    else None
  }

  lemma AdoptRoundIsExact(w: World, cr: Driver, key: Key)
    requires w.alive && WellFormed(w) && Plain(w.script) && key.kind != StorageProfile
    ensures var r := AdoptOnce(w, cr, key);
            var o := OwnersIn(w.state, key);
            && r.0 == AdoptRound(w.script, o, key, cr)
            && (r.0 == Some(Conflict) ==>
                  && r.1.alive && WellFormed(r.1) && Plain(r.1.script) && r.1.script == Rest(Rest(w.script))
                  && OwnersIn(r.1.state, key) == OwnersAt(w.script, o, key, 2))
  {
    hide Turned, OwnersAfter, OwnersAt, EditsAt, Touched, WellFormed, Plain, Write, Upsert, ForeignControlled,
        ControlledBy;
    var t := Turned(w);
    PlainDo(w, GetObject(key), key);
    TwoTurns(w.script, OwnersIn(w.state, key), key);
    if key in t.state.objects {
      var existing := t.state.objects[key];
      VersionIsOld(t, key);
      if !ForeignControlled(existing.owners, ControllerRef(cr)) {
        PlainDo(t, Update(key, existing.(owners := Upsert(existing.owners, ControllerRef(cr)))), key);
      }
    }
  }

  function AdoptVerdict(script: seq<Turn>, o: Option<seq<OwnerRef>>, key: Key, cr: Driver, attempts: nat): Option<Error> {
    if attempts == 0 then Some(Conflict)
    else
      var r := AdoptRound(script, o, key, cr);
      if r != Some(Conflict) then r
      else AdoptVerdict(Rest(Rest(script)), OwnersAt(script, o, key, 2), key, cr, attempts - 1)
  }

  lemma {:induction false} AdoptLoopIsExact(w: World, cr: Driver, key: Key, attempts: nat)
    requires w.alive && WellFormed(w) && Plain(w.script) && key.kind != StorageProfile
    ensures AdoptLoop(w, cr, key, attempts).0 == AdoptVerdict(w.script, OwnersIn(w.state, key), key, cr, attempts)
    decreases attempts
  {
    hide WellFormed, Plain, AdoptOnce, AdoptRound, OwnersAt;
    if attempts > 0 {
      AdoptRoundIsExact(w, cr, key);
      var r := AdoptOnce(w, cr, key);
      if r.0 == Some(Conflict) {
        AdoptLoopIsExact(r.1, cr, key, attempts - 1);
      }
    }
  }

  // Round n reads an object it may and must adopt, and meets a newer one when it writes.
  predicate AdoptConflicts(script: seq<Turn>, o: Option<seq<OwnerRef>>, key: Key, cr: Driver, n: nat) {
    var read := OwnersAt(script, o, key, 2 * n + 1);
    && read.Some?
    && !ControlledBy(read.value, cr.uid) && !ForeignControlled(read.value, ControllerRef(cr))
    && OwnersAt(script, o, key, 2 * n + 2).Some?
    && Touched(EditsAt(script, 2 * n + 1), key)
  }

  // Round n reads an object that is controlled by the custom resource already, or one it
  // may adopt and nobody touches before the write.
  predicate AdoptWins(script: seq<Turn>, o: Option<seq<OwnerRef>>, key: Key, cr: Driver, n: nat) {
    var read := OwnersAt(script, o, key, 2 * n + 1);
    read.Some? &&
    (ControlledBy(read.value, cr.uid) ||
     (!ForeignControlled(read.value, ControllerRef(cr)) && !Touched(EditsAt(script, 2 * n + 1), key)))
  }

  ghost predicate AdoptSucceeds(script: seq<Turn>, o: Option<seq<OwnerRef>>, key: Key, cr: Driver, attempts: nat) {
    exists n | 0 <= n < attempts ::
      AdoptWins(script, o, key, cr, n) && forall m | 0 <= m < n :: AdoptConflicts(script, o, key, cr, m)
  }

  lemma {:induction false} AdoptVerdictMeans(
      script: seq<Turn>, o: Option<seq<OwnerRef>>, key: Key, cr: Driver, attempts: nat)
    ensures AdoptVerdict(script, o, key, cr, attempts) == None <==> AdoptSucceeds(script, o, key, cr, attempts)
    decreases attempts
  {
    hide OwnersAt, EditsAt, OwnersAfter, Touched, ForeignControlled, ControlledBy;
    if attempts > 0 {
      var later, o2 := Rest(Rest(script)), OwnersAt(script, o, key, 2);
      FirstAdoptRound(script, o, key, cr);
      if AdoptRound(script, o, key, cr) == Some(Conflict) {
        AdoptVerdictMeans(later, o2, key, cr, attempts - 1);
        ShiftAdoptRounds(script, o, key, cr, attempts);
      } else if AdoptSucceeds(script, o, key, cr, attempts) {
        var n :| 0 <= n < attempts && AdoptWins(script, o, key, cr, n) &&
                 forall m | 0 <= m < n :: AdoptConflicts(script, o, key, cr, m);
        assert n == 0;
      } else {
        assert !AdoptWins(script, o, key, cr, 0);
      }
    }
  }

  lemma FirstAdoptRound(script: seq<Turn>, o: Option<seq<OwnerRef>>, key: Key, cr: Driver)
    ensures AdoptRound(script, o, key, cr) == Some(Conflict) <==> AdoptConflicts(script, o, key, cr, 0)
    ensures AdoptRound(script, o, key, cr) == None <==> AdoptWins(script, o, key, cr, 0)
  {
    hide OwnersAfter, Touched, ForeignControlled, ControlledBy;
    TwoTurns(script, o, key);
    if !Touched(EditsAt(script, 1), key) {
      UntouchedStays(OwnersAt(script, o, key, 1), EditsAt(script, 1), key);
    }
  }

  lemma LaterAdoptRound(script: seq<Turn>, o: Option<seq<OwnerRef>>, key: Key, cr: Driver, n: nat)
    ensures var later, o2 := Rest(Rest(script)), OwnersAt(script, o, key, 2);
            && (AdoptConflicts(script, o, key, cr, n + 1) <==> AdoptConflicts(later, o2, key, cr, n))
            && (AdoptWins(script, o, key, cr, n + 1) <==> AdoptWins(later, o2, key, cr, n))
  {
    hide OwnersAt, EditsAt, Touched, ForeignControlled, ControlledBy;
    LaterTurns(script, o, key, 2 * n + 1);
    LaterTurns(script, o, key, 2 * n + 2);
  }

  lemma ShiftAdoptRounds(script: seq<Turn>, o: Option<seq<OwnerRef>>, key: Key, cr: Driver, attempts: nat)
    requires attempts > 0 && AdoptConflicts(script, o, key, cr, 0) && !AdoptWins(script, o, key, cr, 0)
    ensures AdoptSucceeds(script, o, key, cr, attempts) <==>
            AdoptSucceeds(Rest(Rest(script)), OwnersAt(script, o, key, 2), key, cr, attempts - 1)
  {
    hide AdoptConflicts, AdoptWins, OwnersAt;
    var later, o2 := Rest(Rest(script)), OwnersAt(script, o, key, 2);
    if AdoptSucceeds(script, o, key, cr, attempts) {
      var n :| 0 <= n < attempts && AdoptWins(script, o, key, cr, n) &&
               forall m | 0 <= m < n :: AdoptConflicts(script, o, key, cr, m);
      LaterAdoptRound(script, o, key, cr, n - 1);
      forall m | 0 <= m < n - 1
        ensures AdoptConflicts(later, o2, key, cr, m)
      {
        assert AdoptConflicts(script, o, key, cr, m + 1);
        LaterAdoptRound(script, o, key, cr, m);
      }
      assert AdoptWins(later, o2, key, cr, n - 1);
    }
    if AdoptSucceeds(later, o2, key, cr, attempts - 1) {
      var n :| 0 <= n < attempts - 1 && AdoptWins(later, o2, key, cr, n) &&
               forall m | 0 <= m < n :: AdoptConflicts(later, o2, key, cr, m);
      LaterAdoptRound(script, o, key, cr, n);
      forall m | 0 <= m < n + 1
        ensures AdoptConflicts(script, o, key, cr, m)
      {
        if m > 0 {
          assert AdoptConflicts(later, o2, key, cr, m - 1);
          LaterAdoptRound(script, o, key, cr, m - 1);
        }
      }
      assert AdoptWins(script, o, key, cr, n + 1);
    }
  }

  // createOrAdopt succeeds exactly when there is no object at the Create or, within five
  // rounds after it, the first one that does not conflict reads an object controlled
  // already, or one it may adopt and nobody touches before the write.
  lemma CreateOrAdoptIsExact(w: World, cr: Driver, key: Key, payload: Payload)
    requires w.alive && WellFormed(w) && Plain(w.script) && key.kind !in {StorageProfile, SnapshotClass}
    ensures var o := OwnersAt(w.script, OwnersIn(w.state, key), key, 1);
            && CreateOrAdopt(w, cr, key, payload).0 ==
               (if o.None? then None else AdoptVerdict(Rest(w.script), o, key, cr, ATTEMPTS))
            && (CreateOrAdopt(w, cr, key, payload).0 == None <==>
                o.None? || AdoptSucceeds(Rest(w.script), o, key, cr, ATTEMPTS))
  {
    hide Turned, WellFormed, Plain, AdoptLoop, AdoptVerdict, AdoptSucceeds, OwnersAfter, Touched, Write;
    var create := Create(key, Manifest(cr, payload));
    var t := Turned(w);
    PlainDo(w, create, key);
    TwoTurns(w.script, OwnersIn(w.state, key), key);
    if key in t.state.objects {
      AdoptLoopIsExact(t, cr, key, ATTEMPTS);
      AdoptVerdictMeans(t.script, OwnersIn(t.state, key), key, cr, ATTEMPTS);
    }
  }

  // A deletion between the Create that finds the object and the read defeats an adoption.
  lemma DeletionDefeatsAdoption(w: World, cr: Driver, key: Key, payload: Payload)
    requires w.alive && WellFormed(w) && key in w.state.objects && key.kind !in {StorageProfile, SnapshotClass}
    requires w.script == [CALM, Turn([Remove(key)], NoFault, 0)]
    ensures CreateOrAdopt(w, cr, key, payload).0 == Some(NotFound)
  {
    hide WellFormed;
    CreateOrAdoptIsExact(w, cr, key, payload);
    TwoTurns(w.script, OwnersIn(w.state, key), key);
    TwoTurns(Rest(w.script), OwnersIn(w.state, key), key);
    assert w.script[1].edits[1..] == [];
  }
}
