/** Safety of whole runs: any number of passes, restarts in between, any interleaving. */
module PassSafety {
  import opened Base
  import opened DriverTypes
  import opened MergePatch
  import opened Cluster
  import opened History
  import opened Tasks
  import opened Plan
  import opened PlanFacts
  import opened Runs
  import opened CalmRuns
  import opened Outcome
  import opened PlanShape
  import opened Lawful
  import opened Ordering

  function Restart(w: World): World {
    w.(alive := true)
  }

  // n passes in a row, each by a live operator.
  function Run(w: World, n: nat): World {
    if n == 0 then w else Pass(Restart(Run(w, n - 1))).1
  }

  lemma RestartReaches(w: World)
    ensures Reaches(w, Restart(w))
  {
    hide Path, Allowed, FreshUids;
    ReachesReflexive(w);
    assert Trace(w, Restart(w)) == Trace(w, w);
    WellFormedAlive(w);
  }

  lemma WellFormedAlive(w: World)
    ensures WellFormed(w) ==> WellFormed(Restart(w))
    ensures FreshUids(w) ==> FreshUids(Restart(w))
  {
  }

  lemma {:induction false} RunReaches(w: World, n: nat)
    ensures Reaches(w, Run(w, n))
  {
    hide Reaches, Pass, Restart;
    if n == 0 {
      ReachesReflexive(w);
    } else {
      var before := Run(w, n - 1);
      RunReaches(w, n - 1);
      RestartReaches(before);
      PassReaches(Restart(before));
      ReachesTransitive(w, before, Restart(before));
      ReachesTransitive(w, Restart(before), Run(w, n));
    }
  }

  // ---- One pass ----

  // What the pass that starts in w reads.
  function ReadDriver(w: World): Option<Driver> {
    var got := Do(w, GetDriver);
    if got.0.FoundDriver? then Some(got.0.driver) else None
  }

  // The i-th event is a status write, or is written in order for a task of the plan of cr.
  ghost predicate Orderly(cr: Driver, live: bool, log: seq<Event>, start: nat, i: nat)
    requires i < |log|
  {
    log[i].target == OnDriver || exists n :: InOrder(cr, FullPlan(cr.spec), n, live, log, start, i)
  }

  lemma PassInOrder(w: World, live: bool)
    requires WellFormed(w) && (live ==> FreshReads(w.script))
    ensures w.log <= Pass(w).1.log
    ensures forall i | |w.log| <= i < |Pass(w).1.log| && Pass(w).1.log[i].byOperator ::
              ReadDriver(w).Some? && Orderly(ReadDriver(w).value, live, Pass(w).1.log, |w.log|, i)
  {
    hide Do, WellFormed, FreshReads, Reaches, InOrder, FullPlan, Phases, AllTyped, FlatPatches, SettledUpTo;
    var got := Do(w, GetDriver);
    DoEvents(w, GetDriver);
    if got.0.FoundDriver? {
      var cr := got.0.driver;
      var p := Phases(got.1, cr);
      PhasesInOrder(w, live, cr);
      var last := Pass(w).1;
      DoEvents(p.world, PatchStatus(cr.status, NextStatus(cr, p)));
      forall i | |w.log| <= i < |p.world.log| && last.log[i].byOperator
        ensures Orderly(cr, live, last.log, |w.log|, i)
      {
        assert last.log[i] == p.world.log[i];
        var n :| InOrder(cr, FullPlan(cr.spec), n, live, p.world.log, |w.log|, i);
        InOrderPrefix(cr, FullPlan(cr.spec), n, live, p.world.log, last.log, |w.log|, i);
      }
    }
  }

  lemma PhasesInOrder(w: World, live: bool, cr: Driver)
    requires WellFormed(w) && (live ==> FreshReads(w.script)) && ReadDriver(w) == Some(cr)
    ensures var p := Phases(Do(w, GetDriver).1, cr);
            && w.log <= p.world.log
            && (forall i | |w.log| <= i < |p.world.log| && p.world.log[i].byOperator ::
                  exists n :: InOrder(cr, FullPlan(cr.spec), n, live, p.world.log, |w.log|, i))
            && (p.err == None ==>
                  SettledUpTo(FullPlan(cr.spec), |FullPlan(cr.spec)|, live, p.world.log, |w.log|, |p.world.log|,
                              p.world.state))
  {
    hide Do, WellFormed, FreshReads, Reaches, InOrder, FullPlan, Phases, AllTyped, FlatPatches, SettledUpTo;
    var got := Do(w, GetDriver);
    var tasks := FullPlan(cr.spec);
    DoReaches(w, GetDriver);
    DoEvents(w, GetDriver);
    if live {
      FreshScript(w, got.1);
    }
    ReachedWellFormed(w, got.1);
    PlanTyped(cr.spec);
    PhasesRunPlan(got.1, cr);
    assert tasks[0..] == tasks;
    NothingSettled(tasks, live, got.1.log, |w.log|, got.1.state);
    RunInOrder(got.1, cr, tasks, 0, live, |w.log|);
    var p := Phases(got.1, cr);
    forall i | |w.log| <= i < |p.world.log| && p.world.log[i].byOperator
      ensures exists n :: InOrder(cr, tasks, n, live, p.world.log, |w.log|, i)
    {
      assert |got.1.log| <= i;
    }
  }

  lemma NothingSettled(tasks: seq<Task>, live: bool, log: seq<Event>, start: nat, s: State)
    ensures SettledUpTo(tasks, 0, live, log, start, |log|, s)
  {
  }

  // ---- What the order means ----

  lemma RbacFirst(spec: Spec, n: nat)
    requires n < |FullPlan(spec)|
    ensures 4 <= |FullPlan(spec)|
    ensures forall m | 0 <= m < 4 :: FullPlan(spec)[m] == RBAC_TASKS[m]
    ensures FullPlan(spec)[n].Replace? ==> 4 <= n
  {
    hide DriverTasks;
  }

  // Others removed the key nowhere from one position of the log to another.
  ghost predicate Kept(key: Key, log: seq<Event>, from: nat, to: nat)
    requires to <= |log|
  {
    forall i | from <= i < to && !log[i].byOperator :: KeepsKey(key, log[i])
  }

  // A controller Deployment or node DaemonSet is written only once the service account,
  // the role and its binding are in place, each unless others removed it since, and, with
  // fresh reads, the admission grant, unless others withdrew it since.
  lemma WorkloadsComeAfterGrants(cr: Driver, n: nat, live: bool, log: seq<Event>, start: nat, i: nat)
    requires InOrder(cr, FullPlan(cr.spec), n, live, log, start, i) && log[i].target.key.kind in {Deployment, DaemonSet}
    ensures forall k | k in {ACCOUNT_KEY, ROLE_KEY, BINDING_KEY} && Kept(k, log, start, i) :: k in log[i].before.objects
    ensures live && Spared(Admit, log, start, i) ==> AdmissionGranted(log[i].before)
  {
    hide FullPlan, AdmissionGranted, Patched, AdoptStep, OnlyAt;
    var tasks := FullPlan(cr.spec);
    PlanTyped(cr.spec);
    RbacFirst(cr.spec, n);
    assert Typed(tasks[n]);
    forall m | 0 <= m < 3 && Kept(tasks[m].key, log, start, i)
      ensures tasks[m].key in log[i].before.objects
    {
      KeptIsSpared(tasks[m], log, start, i);
      assert Settled(tasks[m], live, log[i].before);
    }
    assert tasks[0].key == ACCOUNT_KEY && tasks[1].key == ROLE_KEY && tasks[2].key == BINDING_KEY;
    assert Spared(tasks[3], log, start, i) ==> Settled(tasks[3], live, log[i].before);
  }

  lemma KeptIsSpared(t: Task, log: seq<Event>, from: nat, to: nat)
    requires to <= |log| && (t.Adopt? || t.Replace?) && Kept(t.key, log, from, to)
    ensures Spared(t, log, from, to)
  {
  }

  // ---- The NAS driver waits for the disk driver ----

  predicate Names(t: Task, key: Key) {
    if t.Admit? then key in {SCC_BINDING_KEY, NAMESPACE_KEY} else key == t.key
  }

  // A key that no step before those of the NAS driver names.
  ghost predicate NasOnly(spec: Spec, key: Key) {
    forall t | t in RBAC_TASKS + DiskTasks(spec) :: !Names(t, key)
  }

  // The disk driver finished, without an error, in the pass that starts in w and reads cr.
  predicate DiskFinished(w: World, cr: Driver) {
    Phases(Do(w, GetDriver).1, cr).diskReady
  }

  // Whatever a pass with an enabled disk driver writes is a step of the shared RBAC or of
  // the disk driver, or the disk driver finished in this pass.
  lemma NasWaitsForDisk(w: World, cr: Driver, i: nat)
    requires WellFormed(w) && ReadDriver(w) == Some(cr) && cr.spec.disk.enabled
    requires |w.log| <= i < |Pass(w).1.log| && Pass(w).1.log[i].byOperator && Pass(w).1.log[i].target.OnObject?
    ensures DiskFinished(w, cr) || exists t :: t in RBAC_TASKS + DiskTasks(cr.spec) && Permitted(cr, t, Pass(w).1.log[i])
  {
    hide Do, WellFormed, Reaches, Permitted, RunAll, DiskTasks, NasTasks;
    var got := Do(w, GetDriver);
    var p := Phases(got.1, cr);
    DoEvents(w, GetDriver);
    DoEvents(p.world, PatchStatus(cr.status, NextStatus(cr, p)));
    DoReaches(w, GetDriver);
    ReachedWellFormed(w, got.1);
    if !p.diskReady {
      RunConcat(got.1, cr, RBAC_TASKS, DiskTasks(cr.spec));
      assert p.world == RunAll(got.1, cr, RBAC_TASKS + DiskTasks(cr.spec)).1;
      RunAllLaw(got.1, cr, RBAC_TASKS + DiskTasks(cr.spec));
    }
  }

  lemma PermittedNames(cr: Driver, t: Task, e: Event)
    requires Permitted(cr, t, e)
    ensures Names(t, e.target.key)
  {
    hide OnlyAt, Patched, AdoptStep;
  }

  // A NAS object is written only in a pass in which an enabled disk driver finished.
  lemma NasKeyWaitsForDisk(w: World, cr: Driver, i: nat)
    requires WellFormed(w) && ReadDriver(w) == Some(cr) && cr.spec.disk.enabled
    requires |w.log| <= i < |Pass(w).1.log| && Pass(w).1.log[i].byOperator && Pass(w).1.log[i].target.OnObject?
    requires NasOnly(cr.spec, Pass(w).1.log[i].target.key)
    ensures DiskFinished(w, cr)
  {
    hide WellFormed, Pass, Permitted, DiskFinished, DiskTasks;
    NasWaitsForDisk(w, cr, i);
    if !DiskFinished(w, cr) {
      var t :| t in RBAC_TASKS + DiskTasks(cr.spec) && Permitted(cr, t, Pass(w).1.log[i]);
      PermittedNames(cr, t, Pass(w).1.log[i]);
      assert false;
    }
  }

  lemma PlanPrefix(spec: Spec, n: nat)
    requires spec.disk.enabled && n < |RBAC_TASKS| + |DiskTasks(spec)|
    ensures |RBAC_TASKS| + |DiskTasks(spec)| <= |FullPlan(spec)| && FullPlan(spec)[n] in RBAC_TASKS + DiskTasks(spec)
  {
    hide DiskTasks, NasTasks;
    assert FullPlan(spec)[n] == (RBAC_TASKS + DiskTasks(spec))[n];
  }

  // Whatever of the disk driver others spared is still in place when a NAS object is
  // written.
  lemma NasComesAfterDisk(cr: Driver, n: nat, live: bool, log: seq<Event>, start: nat, i: nat, t: Task)
    requires InOrder(cr, FullPlan(cr.spec), n, live, log, start, i)
    requires cr.spec.disk.enabled && NasOnly(cr.spec, log[i].target.key) && t in DiskTasks(cr.spec)
    ensures Spared(t, log, start, i) ==> Settled(t, live, log[i].before)
  {
    hide Settled, Permitted, DiskTasks, NasTasks, Spared, Names;
    var plan := FullPlan(cr.spec);
    PermittedNames(cr, plan[n], log[i]);
    if n < |RBAC_TASKS| + |DiskTasks(cr.spec)| {
      PlanPrefix(cr.spec, n);
      assert false;
    }
    var j :| 0 <= j < |DiskTasks(cr.spec)| && DiskTasks(cr.spec)[j] == t;
    assert plan[|RBAC_TASKS| + j] == t;
  }

  // The driver object, the Deployment and the DaemonSet of NAS are always among those
  // objects; a class or profile is, unless the disk list has an entry of the same name.
  lemma NasObjects(spec: Spec, key: Key)
    requires exists t :: t in NasTasks(spec) && !t.Admit? && t.key == key
    requires key.kind in {StorageClass, StorageProfile} ==>
               forall i | 0 <= i < |spec.disk.classes| :: spec.disk.classes[i].name != key.name
    ensures NasOnly(spec, key)
  {
    hide DiskTasks, NasTasks;
    NasKind(spec, key);
    forall t | t in RBAC_TASKS + DiskTasks(spec)
      ensures !Names(t, key)
    {
      if t in DiskTasks(spec) {
        DiskKeys(spec, t, key);
      }
    }
  }

  const NAS_KEYS: set<Key> := {Key(CSIDriver, NAS_DRIVER), Key(Deployment, "csi-nas-controller"),
      Key(DaemonSet, "csi-nas-node")}

  lemma NasKind(spec: Spec, key: Key)
    requires exists t :: t in NasTasks(spec) && !t.Admit? && t.key == key
    ensures key in NAS_KEYS || key.kind in {StorageClass, StorageProfile}
  {
    hide NasTasks;
    var t :| t in NasTasks(spec) && !t.Admit? && t.key == key;
    NasTaskKind(spec, t);
  }

  lemma NasTaskKind(spec: Spec, t: Task)
    requires t in NasTasks(spec)
    ensures !t.Admit? && (t.key in NAS_KEYS || t.key.kind in {StorageClass, StorageProfile})
  {
    hide NasWorkloadTasks, ProfilePatch, NasClassPayload, NasClaimSets, NasClassesFrom;
    if t in NasClassesFrom(spec.nas, 0) {
      var on := spec.(nas := spec.nas.(enabled := true));
      SameNasClasses(spec.nas, on.nas, 0);
      NasEntries(on, 0, t);
      var i :| 0 <= i && NasEntry(on, i, t);
    } else {
      NasWorkloadKind(spec, t);
    }
  }

  lemma NasWorkloadKind(spec: Spec, t: Task)
    requires t in NasWorkloadTasks(spec)
    ensures !t.Admit? && t.key in NAS_KEYS
  {
    hide ControllerPayload, NodePayload;
  }

  lemma {:induction false} SameNasClasses(a: NasSpec, b: NasSpec, i: nat)
    requires b == a.(enabled := b.enabled) && i <= |a.classes|
    ensures NasClassesFrom(a, i) == NasClassesFrom(b, i)
    decreases |a.classes| - i
  {
    hide NasClassPayload, ProfileTasks;
    if i < |a.classes| {
      SameNasClasses(a, b, i + 1);
    }
  }

  lemma {:induction false} SameDiskClasses(a: DiskSpec, b: DiskSpec, i: nat)
    requires b == a.(enabled := b.enabled) && i <= |a.classes|
    ensures DiskClassesFrom(a, i) == DiskClassesFrom(b, i)
    decreases |a.classes| - i
  {
    hide DiskClassPayload, ProfileTasks;
    if i < |a.classes| {
      SameDiskClasses(a, b, i + 1);
    }
  }

  lemma DiskKeys(spec: Spec, t: Task, key: Key)
    requires t in DiskTasks(spec) && (key in NAS_KEYS || key.kind in {StorageClass, StorageProfile})
    requires key.kind in {StorageClass, StorageProfile} ==>
               forall i | 0 <= i < |spec.disk.classes| :: spec.disk.classes[i].name != key.name
    ensures !Names(t, key)
  {
    hide DiskTasks;
    DiskTaskKind(spec, t);
  }

  lemma DiskTaskKind(spec: Spec, t: Task)
    requires t in DiskTasks(spec)
    ensures !t.Admit? && t.key !in NAS_KEYS
    ensures t.key.kind in {CSIDriver, Deployment, DaemonSet, SnapshotClass, StorageClass, StorageProfile}
    ensures t.key.kind in {StorageClass, StorageProfile} ==>
              exists i :: 0 <= i < |spec.disk.classes| && spec.disk.classes[i].name == t.key.name
  {
    hide DiskWorkloadTasks, ProfilePatch, DiskClassPayload, DiskClaimSets, DiskClassesFrom;
    if t in DiskClassesFrom(spec.disk, 0) {
      var on := spec.(disk := spec.disk.(enabled := true));
      SameDiskClasses(spec.disk, on.disk, 0);
      DiskEntries(on, 0, t);
      var i :| 0 <= i && DiskEntry(on, i, t);
      assert t.key.kind in {StorageClass, StorageProfile} && t.key.name == spec.disk.classes[i].name;
    } else if t in DiskWorkloadTasks(spec) {
      DiskWorkloadKind(spec, t);
    }
  }

  lemma DiskWorkloadKind(spec: Spec, t: Task)
    requires t in DiskWorkloadTasks(spec)
    ensures !t.Admit? && t.key !in NAS_KEYS && t.key.kind in {CSIDriver, Deployment, DaemonSet}
  {
    hide ControllerPayload, NodePayload;
  }

  // ---- The snapshot class a profile links ----

  lemma SnapshotTaskPlace(spec: Spec, n: nat)
    requires n < |FullPlan(spec)| && spec.disk.enabled && spec.disk.snapshot.enabled
    ensures 8 <= |FullPlan(spec)|
    ensures FullPlan(spec)[7] ==
        Ignore(Key(SnapshotClass, LinkedSnapshotClass(spec.disk.snapshot)), SnapshotPayload(DISK_DRIVER))
    ensures FullPlan(spec)[n].PatchIfPresent? ==> 7 < n
  {
    hide NasTasks, DiskClassesFrom, ControllerPayload, NodePayload;
  }

  lemma PatchOrigin(spec: Spec, t: Task)
    requires t in FullPlan(spec) && t.PatchIfPresent?
    ensures SpecOf(t.patch).Keys <= {"claimPropertySets", "cloneStrategy", "snapshotClass"}
    ensures Flat(SpecOf(t.patch)) && t.patch == SpecPatch(SpecOf(t.patch))
    ensures "snapshotClass" in SpecOf(t.patch) ==>
              && spec.disk.enabled && spec.disk.profile.patch && LinkedSnapshotClass(spec.disk.snapshot) != ""
              && SpecOf(t.patch)["snapshotClass"] == Str(LinkedSnapshotClass(spec.disk.snapshot))
  {
    hide FullPlan, Flat, SpecOf, SpecPatch, LinkedSnapshotClass, DiskClassTasks, NasClassTasks, DiskWorkloadTasks,
        NasWorkloadTasks, SnapshotTasks;
    PlanDescribed(spec, t);
    if i :| DiskEntry(spec, i, t) {
      DiskPatch(spec, i, t);
    } else if i :| NasEntry(spec, i, t) {
      NasPatch(spec, i, t);
    } else {
      NoFixedPatch(spec, t);
    }
  }

  lemma DiskPatch(spec: Spec, i: nat, t: Task)
    requires DiskEntry(spec, i, t) && t.PatchIfPresent?
    ensures var c := spec.disk.classes[i];
            t == PatchIfPresent(Key(StorageProfile, c.name),
              ProfilePatch(spec.disk.profile, DiskClaimSets(c.volumeMode), LinkedSnapshotClass(spec.disk.snapshot)))
    ensures SpecOf(t.patch).Keys <= {"claimPropertySets", "cloneStrategy", "snapshotClass"}
    ensures Flat(SpecOf(t.patch)) && t.patch == SpecPatch(SpecOf(t.patch))
    ensures spec.disk.profile.patch
    ensures "snapshotClass" in SpecOf(t.patch) <==> LinkedSnapshotClass(spec.disk.snapshot) != ""
    ensures "snapshotClass" in SpecOf(t.patch) ==>
              SpecOf(t.patch)["snapshotClass"] == Str(LinkedSnapshotClass(spec.disk.snapshot))
  {
    hide Flat, SpecOf, SpecPatch, DiskClassPayload, LinkedSnapshotClass, ProfilePatch;
    ProfileIsFlat(spec.disk.profile, DiskClaimSets(spec.disk.classes[i].volumeMode),
        LinkedSnapshotClass(spec.disk.snapshot));
  }

  lemma NasPatch(spec: Spec, i: nat, t: Task)
    requires NasEntry(spec, i, t) && t.PatchIfPresent?
    ensures t == PatchIfPresent(Key(StorageProfile, spec.nas.classes[i].name),
        ProfilePatch(spec.nas.profile, NasClaimSets(), ""))
    ensures SpecOf(t.patch).Keys <= {"claimPropertySets", "cloneStrategy"}
    ensures Flat(SpecOf(t.patch)) && t.patch == SpecPatch(SpecOf(t.patch))
  {
    hide Flat, SpecOf, SpecPatch, NasClassPayload, ProfilePatch;
    ProfileIsFlat(spec.nas.profile, NasClaimSets(), "");
  }

  lemma NoFixedPatch(spec: Spec, t: Task)
    requires t in RBAC_TASKS || t in DiskWorkloadTasks(spec) || t in SnapshotTasks(spec.disk.snapshot)
        || t in NasWorkloadTasks(spec)
    ensures !t.PatchIfPresent?
  {
    hide ControllerPayload, NodePayload;
  }

  function ProfileSpecAt(s: State, key: Key): map<string, Json>
    requires key in s.objects
  {
    SpecOf(DocumentOf(s.objects[key].payload))
  }

  // A configured class name that profiles link although no pass creates the class.
  predicate LinksUnplanned(spec: Spec) {
    spec.disk.enabled && spec.disk.profile.patch && !spec.disk.snapshot.enabled && spec.disk.snapshot.className != ""
  }

  function LinkedTask(spec: Spec): Task {
    Ignore(Key(SnapshotClass, LinkedSnapshotClass(spec.disk.snapshot)), SnapshotPayload(DISK_DRIVER))
  }

  // A profile write leaves the linked class as it was, or links a class that exists by
  // then or whose API is not served, unless others removed it or turned on the API since.
  lemma ProfileLinksExistingClass(cr: Driver, n: nat, live: bool, log: seq<Event>, start: nat, i: nat)
    requires InOrder(cr, FullPlan(cr.spec), n, live, log, start, i) && log[i].target.key.kind == StorageProfile
    requires !LinksUnplanned(cr.spec) && Spared(LinkedTask(cr.spec), log, start, i)
    ensures LinksExistingClass(log[i])
  {
    hide FullPlan, Merge, SpecOf, Flat;
    var e := log[i];
    var tasks := FullPlan(cr.spec);
    var t := tasks[n];
    PlanTyped(cr.spec);
    assert Typed(t);
    PatchOrigin(cr.spec, t);
    var f := SpecOf(t.patch);
    var doc := DocumentOf(e.before.objects[e.target.key].payload);
    MergeIsOverlay(doc, f);
    OverlaySpec(doc, f);
    if "snapshotClass" in f {
      SnapshotTaskPlace(cr.spec, n);
      assert tasks[7] == LinkedTask(cr.spec);
      assert Settled(tasks[7], live, e.before);
    }
  }

  lemma OverlaySpec(doc: Json, f: map<string, Json>)
    ensures SpecOf(Overlay(doc, f)) == SpecOf(doc) + f
  {
  }

  // ---- The theorem ----

  // The linked snapshot class is unchanged, exists by then, or cannot exist.
  ghost predicate LinksExistingClass(e: Event) {
    e.target.OnObject? &&
    var key := e.target.key;
    && key in e.before.objects && key in e.after.objects
    && var was, now := ProfileSpecAt(e.before, key), ProfileSpecAt(e.after, key);
       "snapshotClass" in now ==>
         || ("snapshotClass" in was && was["snapshotClass"] == now["snapshotClass"])
         || (exists name :: now["snapshotClass"] == Str(name) &&
               (Key(SnapshotClass, name) in e.before.objects || !e.before.apis.snapshots))
  }

  // What is in place when the i-th event, an operator's, happens in a pass for cr that
  // began at position `start` of the log; diskReady says that its disk driver finished.
  ghost predicate SafelyOrdered(cr: Driver, diskReady: bool, live: bool, log: seq<Event>, start: nat, i: nat)
    requires i < |log|
  {
    var e := log[i];
    e.target.OnObject? ==>
      && (e.target.key.kind in {Deployment, DaemonSet} ==>
            && (forall k | k in {ACCOUNT_KEY, ROLE_KEY, BINDING_KEY} && Kept(k, log, start, i) :: k in e.before.objects)
            && (live && Spared(Admit, log, start, i) ==> AdmissionGranted(e.before)))
      && (cr.spec.disk.enabled && NasOnly(cr.spec, e.target.key) ==>
            && diskReady
            && forall t | t in DiskTasks(cr.spec) && Spared(t, log, start, i) :: Settled(t, live, e.before))
      && (e.target.key.kind == StorageProfile && !LinksUnplanned(cr.spec) ==>
            Spared(LinkedTask(cr.spec), log, start, i) ==> LinksExistingClass(e))
  }

  lemma OrderedIsSafe(cr: Driver, diskReady: bool, live: bool, log: seq<Event>, start: nat, i: nat)
    requires i < |log| && Orderly(cr, live, log, start, i)
    requires cr.spec.disk.enabled && log[i].target.OnObject? && NasOnly(cr.spec, log[i].target.key) ==> diskReady
    ensures SafelyOrdered(cr, diskReady, live, log, start, i)
  {
    hide InOrder, FullPlan, Settled, AdmissionGranted, DiskTasks, LinksExistingClass, Spared, Kept, LinksUnplanned,
        NasOnly;
    var e := log[i];
    if e.target.OnObject? {
      var n :| InOrder(cr, FullPlan(cr.spec), n, live, log, start, i);
      if e.target.key.kind in {Deployment, DaemonSet} {
        WorkloadsComeAfterGrants(cr, n, live, log, start, i);
      }
      if e.target.key.kind == StorageProfile && !LinksUnplanned(cr.spec) && Spared(LinkedTask(cr.spec), log, start, i) {
        ProfileLinksExistingClass(cr, n, live, log, start, i);
      }
      if cr.spec.disk.enabled && NasOnly(cr.spec, e.target.key) {
        forall t | t in DiskTasks(cr.spec) && Spared(t, log, start, i)
          ensures Settled(t, live, e.before)
        {
          NasComesAfterDisk(cr, n, live, log, start, i, t);
        }
      }
    }
  }

  // Every event of every pass of every run, crashes, faults and all edits included:
  // workloads come after their grants, NAS objects only in a pass in which an enabled disk
  // driver finished, and a profile links no snapshot class that is still missing. What is
  // in place by then is what others did not themselves undo since the pass began.
  lemma CrashSafeOrdering(w: World, n: nat, live: bool, i: nat)
    requires WellFormed(w) && (live ==> FreshReads(w.script))
    requires |Run(w, n).log| <= i < |Run(w, n + 1).log| && Run(w, n + 1).log[i].byOperator
    ensures var cr := ReadDriver(Restart(Run(w, n)));
            && cr.Some?
            && SafelyOrdered(cr.value, DiskFinished(Restart(Run(w, n)), cr.value), live,
                             Run(w, n + 1).log, |Run(w, n).log|, i)
  {
    hide WellFormed, FreshReads, Orderly, SafelyOrdered, Reaches, Do, Pass, NasOnly, DiskFinished, ReadDriver;
    var before := Restart(Run(w, n));
    RunReaches(w, n);
    RestartReaches(Run(w, n));
    ReachesTransitive(w, Run(w, n), before);
    if live {
      FreshScript(w, before);
    }
    ReachedWellFormed(w, before);
    PassInOrder(before, live);
    assert Run(w, n + 1) == Pass(before).1;
    var cr := ReadDriver(before).value;
    var log := Run(w, n + 1).log;
    if cr.spec.disk.enabled && log[i].target.OnObject? && NasOnly(cr.spec, log[i].target.key) {
      NasKeyWaitsForDisk(before, cr, i);
    }
    OrderedIsSafe(cr, DiskFinished(before, cr), live, log, |before.log|, i);
  }

  // In a run whose script never removes an object of the shared RBAC, it precedes every
  // workload, whatever else others do.
  lemma GrantsComeFirst(w: World, n: nat, i: nat, key: Key)
    requires WellFormed(w) && key in {ACCOUNT_KEY, ROLE_KEY, BINDING_KEY} && NeverRemoved(w.script, key)
    requires |Run(w, n).log| <= i < |Run(w, n + 1).log| && Run(w, n + 1).log[i].byOperator
    requires Run(w, n + 1).log[i].target.OnObject? && Run(w, n + 1).log[i].target.key.kind in {Deployment, DaemonSet}
    ensures key in Run(w, n + 1).log[i].before.objects
  {
    hide WellFormed, Reaches, Run, Spared, Kept, Spares, NeverRemoved;
    var log := Run(w, n + 1).log;
    CrashSafeOrdering(w, n, false, i);
    RunReaches(w, n);
    RunReaches(w, n + 1);
    LogGrows(w, Run(w, n));
    LogGrows(w, Run(w, n + 1));
    NeverRemovedSpares(w, Run(w, n + 1), Adopt(key, AccountPayload), |Run(w, n).log|);
    SparedHead(Adopt(key, AccountPayload), log, |Run(w, n).log|, i, |log|);
    SparedIsKept(key, log, |Run(w, n).log|, i);
  }

  lemma SparedIsKept(key: Key, log: seq<Event>, from: nat, to: nat)
    requires to <= |log| && Spared(Adopt(key, AccountPayload), log, from, to)
    ensures Kept(key, log, from, to)
  {
    forall i | from <= i < to && !log[i].byOperator
      ensures KeepsKey(key, log[i])
    {
      assert Spares(Adopt(key, AccountPayload), log[i]);
    }
  }
}
