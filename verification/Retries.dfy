/** How many interfering updates the two apply helpers withstand. */
module Retries {
  import opened Base
  import opened DriverTypes
  import opened Cluster
  import opened History
  import opened Tasks
  import opened Lawful
  import opened Ordering
  import opened Verdicts

  // How many turns touch the key.
  function Interference(script: seq<Turn>, key: Key): nat {
    if script == [] then 0
    else (if Touched(script[0].edits, key) then 1 else 0) + Interference(script[1..], key)
  }

  // What others put at the key is never controlled by a stranger.
  ghost predicate NoStranger(script: seq<Turn>, key: Key, ref: OwnerRef) {
    forall i, j | 0 <= i < |script| && 0 <= j < |script[i].edits| ::
      script[i].edits[j].Put? && script[i].edits[j].key == key ==> !ForeignControlled(script[i].edits[j].owners, ref)
  }

  // ---- Edits without a removal, and without a stranger ----

  lemma {:induction false} OwnersStay(o: Option<seq<OwnerRef>>, edits: seq<Edit>, key: Key)
    requires o.Some? && Remove(key) !in edits
    ensures OwnersAfter(o, edits, key).Some?
    decreases |edits|
  {
    if edits != [] {
      assert edits[0] != Remove(key);
      OwnersStay(AfterEdit(o, edits[0], key), edits[1..], key);
    }
  }

  ghost predicate KeptOut(o: Option<seq<OwnerRef>>, ref: OwnerRef) {
    o.Some? ==> !ForeignControlled(o.value, ref)
  }

  lemma {:induction false} OwnersKeepOut(o: Option<seq<OwnerRef>>, edits: seq<Edit>, key: Key, ref: OwnerRef)
    requires KeptOut(o, ref)
    requires forall j | 0 <= j < |edits| ::
               edits[j].Put? && edits[j].key == key ==> !ForeignControlled(edits[j].owners, ref)
    ensures KeptOut(OwnersAfter(o, edits, key), ref)
    decreases |edits|
  {
    hide ForeignControlled;
    if edits != [] {
      OwnersKeepOut(AfterEdit(o, edits[0], key), edits[1..], key, ref);
    }
  }

  lemma RestUpdates(script: seq<Turn>, key: Key, ref: OwnerRef)
    requires NeverRemoved(script, key)
    ensures Remove(key) !in Head(script).edits && NeverRemoved(Rest(script), key)
    ensures Interference(script, key) ==
            (if Touched(Head(script).edits, key) then 1 else 0) + Interference(Rest(script), key)
    ensures NoStranger(script, key, ref) ==>
              && NoStranger(Rest(script), key, ref)
              && forall j | 0 <= j < |Head(script).edits| ::
                   var edit := Head(script).edits[j];
                   edit.Put? && edit.key == key ==> !ForeignControlled(edit.owners, ref)
  {
    hide Touched, ForeignControlled;
    if script == [] {
      NothingTouched(key);
    } else {
      forall i | 0 <= i < |script[1..]|
        ensures script[1..][i] == script[i + 1]
      {
      }
    }
  }

  lemma NothingTouched(key: Key)
    ensures !Touched(CALM.edits, key)
  {
  }

  // ---- createOrUpdate ----

  // Each conflict is charged to an interfering update.
  lemma {:induction false} UpdateWithstands(
      script: seq<Turn>, o: Option<seq<OwnerRef>>, key: Key, stamped: bool, attempts: nat)
    requires NeverRemoved(script, key) && o.Some? && Interference(script, key) < attempts
    ensures UpdateVerdict(script, o, key, stamped, attempts) == None
    decreases attempts
  {
    hide NeverRemoved, Interference, Touched, OwnersAfter, OwnersAt, EditsAt;
    var ref := OwnerRef("", "", "", 0, true);
    var o1 := OwnersAfter(o, Head(script).edits, key);
    TwoTurns(script, o, key);
    RestUpdates(script, key, ref);
    OwnersStay(o, Head(script).edits, key);
    RestUpdates(Rest(script), key, ref);
    OwnersStay(o1, Head(Rest(script)).edits, key);
    if UpdateRound(script, o, key, stamped) == Some(Conflict) {
      UpdateWithstands(Rest(Rest(script)), OwnersAt(script, o, key, 2), key, true, attempts - 1);
    }
  }

  // Four interfering updates of a present object still give success. An absent object is
  // created if nobody else creates it.
  lemma CreateOrUpdateWithstandsFour(w: World, cr: Driver, key: Key, payload: Payload)
    requires w.alive && WellFormed(w) && Plain(w.script) && NeverRemoved(w.script, key)
    requires key.kind !in {StorageProfile, SnapshotClass}
    requires Interference(w.script, key) <= if key in w.state.objects then 4 else 0
    ensures CreateOrUpdate(w, cr, key, payload).0 == None
  {
    hide WellFormed, Plain, NeverRemoved, Interference, CreateOrUpdate, UpdateVerdict, OwnersAfter, Touched;
    var o := OwnersIn(w.state, key);
    CreateOrUpdateIsExact(w, cr, key, payload);
    if key in w.state.objects {
      UpdateWithstands(w.script, o, key, false, ATTEMPTS);
    } else {
      var ref := OwnerRef("", "", "", 0, true);
      RestUpdates(w.script, key, ref);
      RestUpdates(Rest(w.script), key, ref);
      TwoTurns(w.script, o, key);
      UntouchedStays(o, Head(w.script).edits, key);
      UntouchedStays(o, Head(Rest(w.script)).edits, key);
      assert UpdateWins(w.script, o, key, false, 0);
    }
  }

  function Round(n: nat): Payload {
    Foreign(seq(n, _ => 'x'))
  }

  // n interfering updates, each with another content and each between a read and the
  // update computed from it.
  function Duel(key: Key, n: nat): seq<Turn> {
    if n == 0 then [] else [CALM, Turn([Put(key, [], map[], Round(n))], NoFault, 0)] + Duel(key, n - 1)
  }

  lemma DuelRound(key: Key, n: nat, rest: seq<Turn>, o: Option<seq<OwnerRef>>, stamped: bool)
    requires n > 0 && o.Some?
    ensures var script := Duel(key, n) + rest;
            && UpdateRound(script, o, key, stamped) == Some(Conflict)
            && Rest(Rest(script)) == Duel(key, n - 1) + rest
            && OwnersAt(script, o, key, 2) == Some([])
  {
    var script := Duel(key, n) + rest;
    TwoTurns(script, o, key);
    assert script[0] == CALM && script[1].edits == [Put(key, [], map[], Round(n))];
    assert script[1].edits[1..] == [];
    assert script[1].edits[0].key == key;
    assert script[2..] == Duel(key, n - 1) + rest;
  }

  lemma {:induction false} DuelIsLost(key: Key, n: nat, o: Option<seq<OwnerRef>>, stamped: bool)
    requires o.Some?
    ensures UpdateVerdict(Duel(key, n), o, key, stamped, n) == Some(Conflict)
    decreases n
  {
    hide UpdateRound, OwnersAt, Duel;
    if n > 0 {
      DuelRound(key, n, [], o, stamped);
      assert Duel(key, n) + [] == Duel(key, n) && Duel(key, n - 1) + [] == Duel(key, n - 1);
      DuelIsLost(key, n - 1, Some([]), true);
    }
  }

  // Five are one too many.
  lemma FiveDefeatCreateOrUpdate(w: World, cr: Driver, key: Key, payload: Payload)
    requires w.alive && WellFormed(w) && key in w.state.objects && key.kind !in {StorageProfile, SnapshotClass}
    requires w.script == Duel(key, 5)
    ensures CreateOrUpdate(w, cr, key, payload).0 == Some(Conflict)
  {
    hide WellFormed, CreateOrUpdate, UpdateVerdict;
    DuelIsPlain(key, 5);
    CreateOrUpdateIsExact(w, cr, key, payload);
    DuelIsLost(key, 5, OwnersIn(w.state, key), false);
  }

  lemma {:induction false} DuelIsPlain(key: Key, n: nat)
    ensures Plain(Duel(key, n))
  {
    if n > 0 {
      DuelIsPlain(key, n - 1);
      var script := Duel(key, n);
      forall i | 2 <= i < |script|
        ensures script[i] == Duel(key, n - 1)[i - 2]
      {
      }
    }
  }

  // Why deletions are excluded: after a conflict the desired object carries a
  // resourceVersion, so if the next read finds the key gone, its Create cannot succeed
  // and the call fails at once.
  lemma DeletionAfterConflict(w: World, cr: Driver, key: Key, payload: Payload)
    requires WellFormed(w) && key.kind != SnapshotClass
    requires UpdateOnce(w, key, Manifest(cr, payload)).0 == Some(Conflict)
    requires Do(UpdateOnce(w, key, Manifest(cr, payload)).2, GetObject(key)).0 == Failed(NotFound)
    ensures CreateOrUpdate(w, cr, key, payload).0 in {Some(Invalid), Some(Unavailable), Some(Crashed)}
  {
    hide Do, Reaches, WellFormed;
    var desired := Manifest(cr, payload);
    var r := UpdateOnce(w, key, desired);
    ConflictMeansFound(w, key, desired);
    ReadIsRegistered(w, key);
    VersionsArePositive(Do(w, GetObject(key)).1, Do(w, GetObject(key)).0.obj.rv);
    StampedCreate(Do(r.2, GetObject(key)).1, key, r.1);
  }

  lemma StampedCreate(w: World, key: Key, obj: Obj)
    requires obj.rv != 0 && key.kind != SnapshotClass
    ensures Do(w, Create(key, obj)).0 in {Failed(Invalid), Failed(Unavailable), Failed(Crashed)}
  {
    hide Turned;
  }

  // One update and one deletion, each between a read and a write, end in Invalid.
  lemma DeletionDefeatsCreateOrUpdate(w: World, cr: Driver, key: Key, payload: Payload)
    requires w.alive && WellFormed(w) && key in w.state.objects && key.kind !in {StorageProfile, SnapshotClass}
    requires w.script == Duel(key, 1) + [Turn([Remove(key)], NoFault, 0)]
    ensures CreateOrUpdate(w, cr, key, payload).0 == Some(Invalid)
  {
    hide WellFormed, CreateOrUpdate, UpdateRound, OwnersAt, Duel;
    var gone := [Turn([Remove(key)], NoFault, 0)];
    DuelIsPlain(key, 1);
    CreateOrUpdateIsExact(w, cr, key, payload);
    DuelRound(key, 1, gone, OwnersIn(w.state, key), false);
    NoDuel(key, gone);
    GoneRound(key, Some([]));
  }

  lemma NoDuel(key: Key, rest: seq<Turn>)
    ensures Duel(key, 0) + rest == rest
  {
  }

  lemma GoneRound(key: Key, o: Option<seq<OwnerRef>>)
    ensures UpdateRound([Turn([Remove(key)], NoFault, 0)], o, key, true) == Some(Invalid)
  {
    var script := [Turn([Remove(key)], NoFault, 0)];
    TwoTurns(script, o, key);
    assert script[0].edits[1..] == [];
  }

  lemma ConflictMeansFound(w: World, key: Key, desired: Obj)
    requires UpdateOnce(w, key, desired).0 == Some(Conflict)
    ensures Do(w, GetObject(key)).0.Found?
    ensures UpdateOnce(w, key, desired).1 == desired.(rv := Do(w, GetObject(key)).0.obj.rv)
  {
    hide Turned, View;
  }

  lemma VersionsArePositive(w: World, v: nat)
    requires WellFormed(w) && v in w.versions
    ensures v > 0
  {
  }

  // ---- createOrAdopt ----

  lemma {:induction false} AdoptWithstands(
      script: seq<Turn>, o: Option<seq<OwnerRef>>, key: Key, cr: Driver, attempts: nat)
    requires NeverRemoved(script, key) && NoStranger(script, key, ControllerRef(cr))
    requires o.Some? && KeptOut(o, ControllerRef(cr)) && Interference(script, key) < attempts
    ensures AdoptVerdict(script, o, key, cr, attempts) == None
    decreases attempts
  {
    hide NeverRemoved, NoStranger, Interference, Touched, OwnersAfter, OwnersAt, EditsAt, ForeignControlled, ControlledBy;
    var ref := ControllerRef(cr);
    var o1 := OwnersAfter(o, Head(script).edits, key);
    TwoTurns(script, o, key);
    RestUpdates(script, key, ref);
    OwnersStay(o, Head(script).edits, key);
    OwnersKeepOut(o, Head(script).edits, key, ref);
    RestUpdates(Rest(script), key, ref);
    OwnersStay(o1, Head(Rest(script)).edits, key);
    OwnersKeepOut(o1, Head(Rest(script)).edits, key, ref);
    if AdoptRound(script, o, key, cr) == Some(Conflict) {
      AdoptWithstands(Rest(Rest(script)), OwnersAt(script, o, key, 2), key, cr, attempts - 1);
    }
  }

  // The same for adoption, whether the object exists beforehand or appears meanwhile.
  lemma CreateOrAdoptWithstandsFour(w: World, cr: Driver, key: Key, payload: Payload)
    requires w.alive && WellFormed(w) && Plain(w.script) && NeverRemoved(w.script, key)
    requires NoStranger(w.script, key, ControllerRef(cr)) && KeptOut(OwnersIn(w.state, key), ControllerRef(cr))
    requires key.kind !in {StorageProfile, SnapshotClass} && Interference(w.script, key) <= 4
    ensures CreateOrAdopt(w, cr, key, payload).0 == None
  {
    hide WellFormed, Plain, NeverRemoved, NoStranger, Interference, CreateOrAdopt, AdoptVerdict, OwnersAfter, Touched,
        ForeignControlled;
    var o := OwnersIn(w.state, key);
    var ref := ControllerRef(cr);
    CreateOrAdoptIsExact(w, cr, key, payload);
    TwoTurns(w.script, o, key);
    RestUpdates(w.script, key, ref);
    OwnersKeepOut(o, Head(w.script).edits, key, ref);
    var o1 := OwnersAt(w.script, o, key, 1);
    if o1.Some? {
      AdoptWithstands(Rest(w.script), o1, key, cr, ATTEMPTS);
    }
  }

  // ---- At most five attempts ----

  lemma {:induction false} UpdateAttempts(w: World, key: Key, desired: Obj, attempts: nat)
    ensures |w.script| <= |UpdateLoop(w, key, desired, attempts).1.script| + 2 * attempts
    decreases attempts
  {
    hide Do, Reaches;
    if attempts > 0 {
      var r := UpdateOnce(w, key, desired);
      OneTurn(w, GetObject(key));
      var got := Do(w, GetObject(key));
      OneTurn(got.1, Create(key, desired));
      if got.0.Found? {
        OneTurn(got.1, Update(key, desired.(rv := got.0.obj.rv)));
      }
      if r.0 == Some(Conflict) {
        UpdateAttempts(r.2, key, r.1, attempts - 1);
      }
    }
  }

  lemma {:induction false} AdoptAttempts(w: World, cr: Driver, key: Key, attempts: nat)
    ensures |w.script| <= |AdoptLoop(w, cr, key, attempts).1.script| + 2 * attempts
    decreases attempts
  {
    hide Do, Reaches, SetController;
    if attempts > 0 {
      var r := AdoptOnce(w, cr, key);
      OneTurn(w, GetObject(key));
      var got := Do(w, GetObject(key));
      if got.0.Found? {
        var owners := SetController(got.0.obj.owners, ControllerRef(cr));
        if owners.Some? {
          OneTurn(got.1, Update(key, got.0.obj.(owners := owners.value)));
        }
      }
      if r.0 == Some(Conflict) {
        AdoptAttempts(r.1, cr, key, attempts - 1);
      }
    }
  }

  lemma OneTurn(w: World, req: Request)
    ensures |w.script| <= |Do(w, req).1.script| + 1
  {
    hide Effect, Do;
    if w.alive {
      EffectScript(w, req);
    } else {
      DeadDo(w, req);
    }
  }

  lemma DeadDo(w: World, req: Request)
    requires !w.alive
    ensures Do(w, req) == (Failed(Crashed), w)
  {
    hide Effect, Turned;
  }

  // However the calls go, neither helper makes more than five attempts of two calls.
  lemma BoundedAttempts(w: World, cr: Driver, key: Key, payload: Payload)
    ensures |w.script| <= |CreateOrUpdate(w, cr, key, payload).1.script| + 10
    ensures |w.script| <= |CreateOrAdopt(w, cr, key, payload).1.script| + 11
  {
    hide Do, UpdateLoop, AdoptLoop;
    UpdateAttempts(w, key, Manifest(cr, payload), ATTEMPTS);
    var create := Create(key, Manifest(cr, payload));
    OneTurn(w, create);
    AdoptAttempts(Do(w, create).1, cr, key, ATTEMPTS);
  }
}
