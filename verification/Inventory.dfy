/**
 Which objects a custom resource asks for, name by name, and that passes write these and no
 others, in order.
 */
module Inventory {
  import opened Base
  import opened DriverTypes
  import opened Cluster
  import opened History
  import opened Tasks
  import opened Plan
  import opened CalmRuns
  import opened Outcome
  import opened PlanShape
  import opened Lawful
  import opened Ordering
  import opened PassSafety
  import opened Ownership
  import opened Admission
  import opened Delivery
  import opened Requeue
  import NilPass
  import SnapshotLink

  // ---- The names ----

  predicate DiskNamed(spec: Spec, name: string) {
    exists i | 0 <= i < |spec.disk.classes| :: spec.disk.classes[i].name == name
  }

  predicate NasNamed(spec: Spec, name: string) {
    exists i | 0 <= i < |spec.nas.classes| :: spec.nas.classes[i].name == name
  }

  // The objects that do not depend on the class lists, each with its place in the order.
  function Place(key: Key): Option<nat> {
    if key == Key(ServiceAccount, "alibaba-cloud-csi-sa") then Some(0)
    else if key == Key(ClusterRole, "alibaba-cloud-csi-role") then Some(1)
    else if key == Key(ClusterRoleBinding, "alibaba-cloud-csi-binding") then Some(2)
    else if key == Key(CSIDriver, "diskplugin.csi.alibabacloud.com") then Some(4)
    else if key == Key(Deployment, "csi-disk-controller") then Some(5)
    else if key == Key(DaemonSet, "csi-disk-node") then Some(6)
    else if key == Key(CSIDriver, "nasplugin.csi.alibabacloud.com") then Some(9)
    else if key == Key(Deployment, "csi-nas-controller") then Some(10)
    else if key == Key(DaemonSet, "csi-nas-node") then Some(11)
    else None
  }

  // The shared objects come first, then those of the disk driver, then those of NAS.
  predicate FixedWanted(spec: Spec, key: Key) {
    && Place(key).Some?
    && (4 <= Place(key).value <= 6 ==> spec.disk.enabled)
    && (9 <= Place(key).value ==> spec.nas.enabled)
  }

  // What a custom resource asks for and can own: the fixed objects and one StorageClass
  // for each entry of an enabled driver.
  predicate Wanted(spec: Spec, key: Key) {
    || FixedWanted(spec, key)
    || (key.kind == StorageClass && spec.disk.enabled && DiskNamed(spec, key.name))
    || (key.kind == StorageClass && spec.nas.enabled && NasNamed(spec, key.name))
  }

  // What passes may write besides: the admission grant, an enabled snapshot class and the
  // profiles of entries that are to be patched.
  predicate WrittenBesides(spec: Spec, key: Key) {
    || key == Key(ClusterRoleBinding, "alibabacloud-csi-privileged")
    || key == Key(Namespace, "kube-system")
    || (&& spec.disk.enabled && spec.disk.snapshot.enabled
        && key == Key(SnapshotClass, if spec.disk.snapshot.className == "" then "alibaba-cloud-disk-snapclass"
                                     else spec.disk.snapshot.className))
    || (key.kind == StorageProfile && spec.disk.enabled && spec.disk.profile.patch && DiskNamed(spec, key.name))
    || (key.kind == StorageProfile && spec.nas.enabled && spec.nas.profile.patch && NasNamed(spec, key.name))
  }

  // ---- The plan has just these steps ----

  ghost predicate Asks(spec: Spec, key: Key) {
    exists t :: t in FullPlan(spec) && (t.Adopt? || t.Replace?) && t.key == key
  }

  lemma FixedSteps(spec: Spec, t: Task)
    requires t in RBAC_TASKS || (spec.disk.enabled && t in DiskWorkloadTasks(spec))
        || (spec.nas.enabled && t in NasWorkloadTasks(spec))
    ensures t.Admit? || ((t.Adopt? || t.Replace?) && FixedWanted(spec, t.key))
  {
    hide ControllerPayload, NodePayload;
  }

  lemma DiskSteps(spec: Spec, i: nat, t: Task)
    requires DiskEntry(spec, i, t)
    ensures t.Adopt? || t.PatchIfPresent?
    ensures t.Adopt? ==> t.key == Key(StorageClass, spec.disk.classes[i].name)
    ensures t.PatchIfPresent? ==>
              spec.disk.profile.patch && t.key == Key(StorageProfile, spec.disk.classes[i].name)
  {
    hide DiskClassPayload, ProfilePatch, DiskClaimSets;
  }

  lemma NasSteps(spec: Spec, i: nat, t: Task)
    requires NasEntry(spec, i, t)
    ensures t.Adopt? || t.PatchIfPresent?
    ensures t.Adopt? ==> t.key == Key(StorageClass, spec.nas.classes[i].name)
    ensures t.PatchIfPresent? ==> spec.nas.profile.patch && t.key == Key(StorageProfile, spec.nas.classes[i].name)
  {
    hide NasClassPayload, ProfilePatch, NasClaimSets;
  }

  lemma SnapshotSteps(spec: Spec, t: Task)
    requires spec.disk.enabled && t in SnapshotTasks(spec.disk.snapshot)
    ensures t.Ignore? && WrittenBesides(spec, t.key)
  {
  }

  // Each step names objects that are wanted, or written besides.
  lemma StepNames(spec: Spec, t: Task, key: Key)
    requires t in FullPlan(spec) && Names(t, key)
    ensures if t.Adopt? || t.Replace? then Wanted(spec, key) else WrittenBesides(spec, key)
  {
    hide FullPlan, DiskEntry, NasEntry, DiskWorkloadTasks, NasWorkloadTasks, SnapshotTasks, RBAC_TASKS, Place;
    PlanDescribed(spec, t);
    if i :| DiskEntry(spec, i, t) {
      EntryBounds(spec, i, t);
      DiskSteps(spec, i, t);
      assert DiskNamed(spec, key.name);
    } else if i :| NasEntry(spec, i, t) {
      EntryBounds(spec, i, t);
      NasSteps(spec, i, t);
      assert NasNamed(spec, key.name);
    } else if spec.disk.enabled && t in SnapshotTasks(spec.disk.snapshot) {
      SnapshotSteps(spec, t);
    } else {
      FixedSteps(spec, t);
    }
  }

  lemma EntryBounds(spec: Spec, i: int, t: Task)
    ensures DiskEntry(spec, i, t) ==> spec.disk.enabled && 0 <= i < |spec.disk.classes|
    ensures NasEntry(spec, i, t) ==> spec.nas.enabled && 0 <= i < |spec.nas.classes|
  {
    hide DiskClassTasks, NasClassTasks;
  }

  // Where the steps of the fixed objects are.
  function NasStart(spec: Spec): nat {
    4 + if spec.disk.enabled then |DiskTasks(spec)| else 0
  }

  function FixedIndex(spec: Spec, key: Key): nat
    requires FixedWanted(spec, key)
  {
    if Place(key).value < 9 then Place(key).value else NasStart(spec) + Place(key).value - 9
  }

  lemma DiskSection(spec: Spec, j: nat)
    requires spec.disk.enabled && j < |DiskTasks(spec)|
    ensures 4 + j < |FullPlan(spec)| && FullPlan(spec)[4 + j] == DiskTasks(spec)[j]
  {
    hide DiskTasks, NasTasks;
  }

  lemma NasSection(spec: Spec, j: nat)
    requires spec.nas.enabled && j < |NasTasks(spec)|
    ensures NasStart(spec) + j < |FullPlan(spec)| && FullPlan(spec)[NasStart(spec) + j] == NasTasks(spec)[j]
  {
    hide DiskTasks, NasTasks;
  }

  lemma WorkloadSections(spec: Spec)
    ensures |DiskTasks(spec)| >= 3 && DiskTasks(spec)[..3] == DiskWorkloadTasks(spec)
    ensures |NasTasks(spec)| >= 3 && NasTasks(spec)[..3] == NasWorkloadTasks(spec)
  {
    hide ControllerPayload, NodePayload, SnapshotTasks, DiskClassesFrom, NasClassesFrom;
  }

  lemma WorkloadKeys(spec: Spec)
    ensures forall j | 0 <= j < 3 ::
              var d, n := DiskWorkloadTasks(spec)[j], NasWorkloadTasks(spec)[j];
              && (d.Adopt? || d.Replace?) && Place(d.key) == Some(4 + j)
              && (n.Adopt? || n.Replace?) && Place(n.key) == Some(9 + j)
  {
    hide ControllerPayload, NodePayload;
  }

  lemma RbacKeys(spec: Spec)
    ensures |FullPlan(spec)| >= 4 && FullPlan(spec)[3] == Admit
    ensures forall j | 0 <= j < 3 :: FullPlan(spec)[j].Adopt? && Place(FullPlan(spec)[j].key) == Some(j)
  {
    hide DriverTasks;
  }

  lemma OnePlace(a: Key, b: Key)
    requires Place(a).Some? && Place(a) == Place(b)
    ensures a == b
  {
  }

  // The step at the place of a fixed object is the one for it.
  lemma FixedStep(spec: Spec, key: Key)
    requires FixedWanted(spec, key)
    ensures FixedIndex(spec, key) < |FullPlan(spec)|
    ensures var t := FullPlan(spec)[FixedIndex(spec, key)]; (t.Adopt? || t.Replace?) && t.key == key
  {
    hide FullPlan, DiskTasks, NasTasks, DiskWorkloadTasks, NasWorkloadTasks, Place;
    var p := Place(key).value;
    WorkloadSections(spec);
    WorkloadKeys(spec);
    RbacKeys(spec);
    PlaceBounds(key);
    if p < 3 {
      OnePlace(FullPlan(spec)[p].key, key);
    } else if p < 9 {
      DiskSection(spec, p - 4);
      assert DiskTasks(spec)[p - 4] == DiskWorkloadTasks(spec)[p - 4];
      OnePlace(FullPlan(spec)[p].key, key);
    } else {
      NasSection(spec, p - 9);
      assert NasTasks(spec)[p - 9] == NasWorkloadTasks(spec)[p - 9];
      OnePlace(NasTasks(spec)[p - 9].key, key);
    }
  }

  lemma PlaceBounds(key: Key)
    ensures Place(key).Some? ==> Place(key).value in {0, 1, 2, 4, 5, 6, 9, 10, 11}
  {
  }

  lemma {:induction false} NasIsPlanned(spec: Spec, from: nat, i: nat, t: Task)
    requires from <= i < |spec.nas.classes| && t in NasClassTasks(spec.nas, i)
    ensures t in NasClassesFrom(spec.nas, from)
    decreases i - from
  {
    hide NasClassTasks;
    if from < i {
      NasIsPlanned(spec, from + 1, i, t);
    }
  }

  lemma DiskClassStep(spec: Spec, i: nat)
    requires spec.disk.enabled && i < |spec.disk.classes|
    ensures Asks(spec, Key(StorageClass, spec.disk.classes[i].name))
  {
    hide DiskClassPayload, DiskClaimSets, ProfileTasks, DiskClassesFrom;
    var t := DiskClassTasks(spec.disk, i)[0];
    SnapshotLink.ClassIsPlanned(spec, 0, i, t);
    assert t in DiskTasks(spec);
  }

  lemma NasClassStep(spec: Spec, i: nat)
    requires spec.nas.enabled && i < |spec.nas.classes|
    ensures Asks(spec, Key(StorageClass, spec.nas.classes[i].name))
  {
    hide NasClassPayload, NasClaimSets, ProfileTasks, NasClassesFrom;
    var t := NasClassTasks(spec.nas, i)[0];
    NasIsPlanned(spec, 0, i, t);
    assert t in NasTasks(spec);
  }

  // A plan adopts or replaces an object exactly when it is wanted.
  lemma AsksWhatIsWanted(spec: Spec, key: Key)
    ensures Asks(spec, key) <==> Wanted(spec, key)
  {
    hide FullPlan, Place, Names;
    if Asks(spec, key) {
      var t :| t in FullPlan(spec) && (t.Adopt? || t.Replace?) && t.key == key;
      OwnName(t);
      StepNames(spec, t, key);
    }
    if FixedWanted(spec, key) {
      FixedStep(spec, key);
    } else if key.kind == StorageClass {
      if i :| spec.disk.enabled && 0 <= i < |spec.disk.classes| && spec.disk.classes[i].name == key.name {
        DiskClassStep(spec, i);
      }
      if i :| spec.nas.enabled && 0 <= i < |spec.nas.classes| && spec.nas.classes[i].name == key.name {
        NasClassStep(spec, i);
      }
    }
  }

  lemma OwnName(t: Task)
    requires !t.Admit?
    ensures Names(t, t.key)
  {
  }

  // ---- Nothing else is written ----

  // Whatever a pass of any run writes, with all faults, crashes and edits, is wanted by the
  // custom resource that was read, or written besides: of a disabled driver, nothing.
  lemma OnlyWhatIsAsked(w: World, n: nat, i: nat)
    requires WellFormed(w)
    requires |Run(w, n).log| <= i < |Run(w, n + 1).log| && Run(w, n + 1).log[i].byOperator
    requires Run(w, n + 1).log[i].target.OnObject?
    ensures var cr := ReadDriver(Restart(Run(w, n)));
            var key := Run(w, n + 1).log[i].target.key;
            cr.Some? && (Wanted(cr.value.spec, key) || WrittenBesides(cr.value.spec, key))
  {
    hide WellFormed, FullPlan, Permitted, Run, Reaches, Wanted, WrittenBesides, ReadDriver;
    StepOfEvent(w, n, i);
    var cr := ReadDriver(Restart(Run(w, n))).value;
    var e := Run(w, n + 1).log[i];
    var t :| t in FullPlan(cr.spec) && Permitted(cr, t, e);
    PermittedNames(cr, t, e);
    StepNames(cr.spec, t, e.target.key);
  }

  // Each write of a run is permitted by a step of the plan of what the pass read.
  lemma StepOfEvent(w: World, n: nat, i: nat)
    requires WellFormed(w)
    requires |Run(w, n).log| <= i < |Run(w, n + 1).log| && Run(w, n + 1).log[i].byOperator
    requires Run(w, n + 1).log[i].target.OnObject?
    ensures var cr := ReadDriver(Restart(Run(w, n)));
            cr.Some? && exists t :: t in FullPlan(cr.value.spec) && Permitted(cr.value, t, Run(w, n + 1).log[i])
  {
    hide WellFormed, FullPlan, Permitted, Reaches, Pass, ReadDriver;
    var before := Restart(Run(w, n));
    RunReaches(w, n);
    RestartReaches(Run(w, n));
    ReachesTransitive(w, Run(w, n), before);
    ReachedWellFormed(w, before);
    PassLaw(before);
    assert Run(w, n + 1) == Pass(before).1;
    PlannedStep(ReadDriver(before).value, Run(w, n + 1).log[i]);
  }

  // ---- Everything wanted is delivered ----

  lemma {:induction false} SomeAdopted(tasks: seq<Task>, apis: Apis, key: Key, i: nat)
    requires i < |tasks| && tasks[i].Adopt? && tasks[i].key == key
    ensures FirstAdopted(tasks, apis, key).Some?
  {
    if i > 0 {
      SomeAdopted(tasks[1..], apis, key, i - 1);
    }
  }

  lemma {:induction false} SomeReplaced(tasks: seq<Task>, key: Key, i: nat)
    requires i < |tasks| && tasks[i].Replace? && tasks[i].key == key
    ensures LastReplaced(tasks, key).Some?
  {
    if i > 0 {
      SomeReplaced(tasks[1..], key, i - 1);
    }
  }

  lemma ExpectedIsOwned(cr: Driver, apis: Apis, key: Key, s: State)
    requires Wanted(cr.spec, key) && Friendly(cr, FullPlan(cr.spec), s)
    ensures var b := Expected(cr, apis, key, At(s, key)); b.Some? && ControlledBy(b.value.owners, cr.uid)
  {
    hide FullPlan, Wanted, Adopted, Adoptable, FirstAdopted, LastReplaced, FlatPatches;
    var plan := FullPlan(cr.spec);
    AsksWhatIsWanted(cr.spec, key);
    var t :| t in plan && (t.Adopt? || t.Replace?) && t.key == key;
    var i :| 0 <= i < |plan| && plan[i] == t;
    PlanTyped(cr.spec);
    assert Typed(t);
    if t.Adopt? {
      SomeAdopted(plan, apis, key, i);
      assert key in AdoptKeys(plan[i]);
      AdoptedIsControlled(cr, FirstAdopted(plan, apis, key).value, At(s, key));
    } else {
      SomeReplaced(plan, key, i);
    }
  }

  lemma {:induction false} UnnamedIsKept(cr: Driver, tasks: seq<Task>, apis: Apis, key: Key, b: Option<Body>)
    requires forall t | t in tasks :: !Names(t, key)
    ensures PlanOn(cr, tasks, apis, key, b) == b
    decreases |tasks|
  {
    if tasks != [] {
      assert tasks[0] in tasks;
      UnnamedIsKept(cr, tasks[1..], apis, key, b);
    }
  }

  // After an undisturbed pass everything wanted is there and controlled by the custom
  // resource, and what is neither wanted nor written besides is as it was: every object of
  // a disabled driver, for one.
  lemma EverythingWanted(w: World, cr: Driver, key: Key)
    requires w.alive && w.state.driver == Some(cr) && Friendly(cr, FullPlan(cr.spec), w.state)
    requires Undisturbed(w, Pass(w).1)
    ensures Wanted(cr.spec, key) ==> OwnedAt(Pass(w).1.state, key, cr.uid)
    ensures !Wanted(cr.spec, key) && !WrittenBesides(cr.spec, key) ==> At(Pass(w).1.state, key) == At(w.state, key)
  {
    hide Pass, FullPlan, Friendly, Undisturbed, Expected, Wanted, WrittenBesides, PlanOn, Names;
    UndisturbedPass(w, cr);
    if Wanted(cr.spec, key) {
      ExpectedIsOwned(cr, w.state.apis, key, w.state);
    } else if !WrittenBesides(cr.spec, key) {
      forall t | t in FullPlan(cr.spec)
        ensures !Names(t, key)
      {
        if Names(t, key) {
          StepNames(cr.spec, t, key);
        }
      }
      UnnamedIsKept(cr, FullPlan(cr.spec), w.state.apis, key, At(w.state, key));
      PlanDelivers(cr, w.state.apis, key, w.state);
    }
  }

  // From every friendly world on: once the script is used up, each further pass leaves
  // everything wanted in the store, controlled by the custom resource.
  lemma EventuallyEverythingWanted(w: World, claims: set<Key>, n: nat, cr: Driver, key: Key)
    requires FriendlyWorld(w, claims) && |w.script| <= n && Run(w, n).state.driver == Some(cr) && Wanted(cr.spec, key)
    ensures OwnedAt(Run(w, n + 1).state, key, cr.uid)
  {
    hide FriendlyWorld, Pass, Expected, Friendly, FriendlyState, Wanted, FullPlan;
    var before := Restart(Run(w, n));
    EventuallyDelivered(w, claims, n, cr);
    RunKeepsFriends(w, claims, n);
    RestartKeepsFriends(Run(w, n), claims);
    FriendlyName(before, claims);
    FriendlyNow(before, claims);
    FriendsMayAdopt(before.state, claims, cr);
    SameFriends(cr, before, Run(w, n));
    ExpectedIsOwned(cr, before.state.apis, key, before.state);
    assert At(Run(w, n + 1).state, key) == Expected(cr, before.state.apis, key, At(before.state, key));
  }

  // After a pass that returned nil, whatever faults, stale reads and edits it met, each
  // wanted object whose key the script never removes is there.
  lemma NilHasEverything(w: World, key: Key)
    requires WellFormed(w) && Pass(w).0 == None && ReadDriver(w).Some?
    requires Wanted(ReadDriver(w).value.spec, key) && NeverRemoved(w.script, key)
    ensures key in Pass(w).1.state.objects
  {
    hide WellFormed, Pass, FullPlan, Wanted, NeverRemoved, ReadDriver, Spared, Settled;
    var spec := ReadDriver(w).value.spec;
    AsksWhatIsWanted(spec, key);
    var t :| t in FullPlan(spec) && (t.Adopt? || t.Replace?) && t.key == key;
    var m :| 0 <= m < |FullPlan(spec)| && FullPlan(spec)[m] == t;
    NilPass.NilMeansDelivered(w, false, m);
  }

  // ---- In order ----

  // The place in the order at which an object is written.
  function Stage(spec: Spec, key: Key): nat {
    if Place(key).Some? then Place(key).value
    else if key.kind in {ClusterRoleBinding, Namespace} then 3
    else if key.kind == SnapshotClass then 7
    else if spec.disk.enabled && DiskNamed(spec, key.name) then 8
    else 12
  }

  lemma StageOfFixed(spec: Spec, n: nat, key: Key)
    requires n < |FullPlan(spec)| && Names(FullPlan(spec)[n], key)
    requires n < 4 || (spec.disk.enabled && n < 7) || (spec.nas.enabled && NasStart(spec) <= n < NasStart(spec) + 3)
    ensures Stage(spec, key) ==
            if n < 4 || (spec.disk.enabled && n < 7) then n else 9 + n - NasStart(spec)
  {
    hide FullPlan, DiskTasks, NasTasks, DiskWorkloadTasks, NasWorkloadTasks, Place;
    WorkloadSections(spec);
    WorkloadKeys(spec);
    RbacKeys(spec);
    if n < 4 {
      if n == 3 {
        AdmitPlaces();
      }
    } else if spec.disk.enabled && n < 7 {
      DiskSection(spec, n - 4);
      assert DiskTasks(spec)[n - 4] == DiskWorkloadTasks(spec)[n - 4];
    } else {
      NasSection(spec, n - NasStart(spec));
      assert NasTasks(spec)[n - NasStart(spec)] == NasWorkloadTasks(spec)[n - NasStart(spec)];
    }
  }

  lemma AdmitPlaces()
    ensures Place(SCC_BINDING_KEY) == None && Place(NAMESPACE_KEY) == None
  {
  }

  lemma StageOfDisk(spec: Spec, t: Task, key: Key)
    requires spec.disk.enabled && t in DiskTasks(spec) && Names(t, key)
    ensures Stage(spec, key) <= 8
  {
    hide DiskTasks, NasTasks, RBAC_TASKS, Names, Place;
    DiskTaskKind(spec, t);
    DiskNames(t, key);
    assert t in FullPlan(spec);
    StepNames(spec, t, key);
    PlaceOfDisk(key);
    if key.kind in {StorageClass, StorageProfile} {
      assert DiskNamed(spec, key.name);
    }
  }

  lemma PlaceOfDisk(key: Key)
    ensures Place(key).Some? ==>
              key.kind in {ServiceAccount, ClusterRole, ClusterRoleBinding, CSIDriver, Deployment, DaemonSet}
    ensures Place(key).Some? && key !in NAS_KEYS ==> Place(key).value <= 6
  {
  }

  lemma DiskNames(t: Task, key: Key)
    requires Names(t, key) && !t.Admit?
    ensures t.key == key
  {
  }

  // A step comes after those of all fixed objects of an earlier stage.
  lemma StageOrder(spec: Spec, n: nat, key: Key, k: Key)
    requires n < |FullPlan(spec)| && Names(FullPlan(spec)[n], key)
    requires FixedWanted(spec, k) && Place(k).value < Stage(spec, key)
    ensures FixedIndex(spec, k) < n
  {
    hide FullPlan, DiskTasks, NasTasks, Place, Names, Stage;
    PlaceBounds(k);
    if n < 4 || (spec.disk.enabled && n < 7) || (spec.nas.enabled && NasStart(spec) <= n < NasStart(spec) + 3) {
      StageOfFixed(spec, n, key);
      WorkloadSections(spec);
    } else if n < NasStart(spec) {
      DiskSection(spec, n - 4);
      StageOfDisk(spec, FullPlan(spec)[n], key);
      WorkloadSections(spec);
    }
  }

  // k is a fixed object of an earlier stage than key.
  predicate Earlier(spec: Spec, k: Key, key: Key) {
    FixedWanted(spec, k) && Place(k).value < Stage(spec, key)
  }

  // When a pass of any run writes an object, every fixed object of an earlier stage is in
  // place, unless others removed it since the pass began: account, role, binding, admission,
  // then for each enabled driver its CSIDriver object, Deployment, DaemonSet and classes,
  // the disk driver before NAS.
  lemma WrittenInOrder(w: World, n: nat, i: nat, k: Key)
    requires WellFormed(w)
    requires |Run(w, n).log| <= i < |Run(w, n + 1).log| && Run(w, n + 1).log[i].byOperator
    requires Run(w, n + 1).log[i].target.OnObject?
    ensures var cr := ReadDriver(Restart(Run(w, n)));
            var e := Run(w, n + 1).log[i];
            && cr.Some?
            && (Earlier(cr.value.spec, k, e.target.key) && Kept(k, Run(w, n + 1).log, |Run(w, n).log|, i) ==>
                  k in e.before.objects)
  {
    hide WellFormed, FullPlan, Permitted, Reaches, Pass, ReadDriver, Earlier, InOrder, Kept;
    var before := Restart(Run(w, n));
    RunReaches(w, n);
    RestartReaches(Run(w, n));
    ReachesTransitive(w, Run(w, n), before);
    ReachedWellFormed(w, before);
    PassInOrder(before, false);
    assert Run(w, n + 1) == Pass(before).1;
    var cr := ReadDriver(before).value;
    var log := Run(w, n + 1).log;
    var m :| InOrder(cr, FullPlan(cr.spec), m, false, log, |before.log|, i);
    if Earlier(cr.spec, k, log[i].target.key) && Kept(k, log, |before.log|, i) {
      EarlierIsThere(cr, m, log, |before.log|, i, k);
    }
  }

  lemma EarlierIsThere(cr: Driver, m: nat, log: seq<Event>, start: nat, i: nat, k: Key)
    requires InOrder(cr, FullPlan(cr.spec), m, false, log, start, i) && log[i].target.OnObject?
    requires Earlier(cr.spec, k, log[i].target.key) && Kept(k, log, start, i)
    ensures k in log[i].before.objects
  {
    hide FullPlan, Permitted, FixedWanted, Place, Stage, Kept, FixedIndex, Spared, Settled;
    var plan := FullPlan(cr.spec);
    PermittedNames(cr, plan[m], log[i]);
    StageOrder(cr.spec, m, log[i].target.key, k);
    FixedStep(cr.spec, k);
    var t := plan[FixedIndex(cr.spec, k)];
    KeptIsSpared(t, log, start, i);
    NilPass.SettledMeansPresent(t, false, log[i].before);
  }

  // ---- A profile after its class ----

  // Each profile step of a list comes after the step for the StorageClass of its name.
  ghost predicate ClassesFirst(tasks: seq<Task>) {
    forall n | 0 <= n < |tasks| && tasks[n].PatchIfPresent? :: AfterClass(tasks, n)
  }

  ghost predicate AfterClass(tasks: seq<Task>, n: nat)
    requires n < |tasks| && tasks[n].PatchIfPresent?
  {
    exists m | 0 <= m < n :: tasks[m].Adopt? && tasks[m].key == Key(StorageClass, tasks[n].key.name)
  }

  lemma ClassesFirstConcat(a: seq<Task>, b: seq<Task>)
    requires ClassesFirst(a) && ClassesFirst(b)
    ensures ClassesFirst(a + b)
  {
    var c := a + b;
    forall n | 0 <= n < |c| && c[n].PatchIfPresent?
      ensures AfterClass(c, n)
    {
      if n < |a| {
        assert AfterClass(a, n);
        var m :| 0 <= m < n && a[m].Adopt? && a[m].key == Key(StorageClass, a[n].key.name);
        assert c[m] == a[m];
      } else {
        assert AfterClass(b, n - |a|);
        var m :| 0 <= m < n - |a| && b[m].Adopt? && b[m].key == Key(StorageClass, b[n - |a|].key.name);
        assert c[|a| + m] == b[m];
      }
    }
  }

  lemma NoProfiles(tasks: seq<Task>)
    requires forall t | t in tasks :: !t.PatchIfPresent?
    ensures ClassesFirst(tasks)
  {
  }

  lemma OneClass(c: Task, tail: seq<Task>)
    requires c.Adopt? && |tail| <= 1
    requires forall t | t in tail :: !t.Admit? && c.key == Key(StorageClass, t.key.name)
    ensures ClassesFirst([c] + tail)
  {
    var tasks := [c] + tail;
    forall n | 0 <= n < |tasks| && tasks[n].PatchIfPresent?
      ensures AfterClass(tasks, n)
    {
      assert tasks[n] in tail && tasks[0] == c;
    }
  }

  lemma {:induction false} DiskClassesFirst(disk: DiskSpec, i: nat)
    requires i <= |disk.classes|
    ensures ClassesFirst(DiskClassesFrom(disk, i))
    decreases |disk.classes| - i
  {
    hide ClassesFirst, DiskClassPayload, DiskClaimSets, ProfilePatch, LinkedSnapshotClass;
    if i < |disk.classes| {
      var c := disk.classes[i];
      OneClass(Adopt(Key(StorageClass, c.name), DiskClassPayload(c, disk.defaultStorageClass && i == 0)),
          ProfileTasks(c.name, disk.profile, DiskClaimSets(c.volumeMode), LinkedSnapshotClass(disk.snapshot)));
      DiskClassesFirst(disk, i + 1);
      ClassesFirstConcat(DiskClassTasks(disk, i), DiskClassesFrom(disk, i + 1));
    } else {
      NoProfiles([]);
    }
  }

  lemma {:induction false} NasClassesFirst(nas: NasSpec, i: nat)
    requires i <= |nas.classes|
    ensures ClassesFirst(NasClassesFrom(nas, i))
    decreases |nas.classes| - i
  {
    hide ClassesFirst, NasClassPayload, NasClaimSets, ProfilePatch;
    if i < |nas.classes| {
      var c := nas.classes[i];
      OneClass(Adopt(Key(StorageClass, c.name), NasClassPayload(c)),
          ProfileTasks(c.name, nas.profile, NasClaimSets(), ""));
      NasClassesFirst(nas, i + 1);
      ClassesFirstConcat(NasClassTasks(nas, i), NasClassesFrom(nas, i + 1));
    } else {
      NoProfiles([]);
    }
  }

  lemma PlanClassesFirst(spec: Spec)
    ensures ClassesFirst(FullPlan(spec))
  {
    hide ClassesFirst, DiskWorkloadTasks, SnapshotTasks, NasWorkloadTasks, DiskClassesFrom, NasClassesFrom;
    NoWorkloadProfiles(spec);
    NoProfiles(RBAC_TASKS);
    NoProfiles(DiskWorkloadTasks(spec) + SnapshotTasks(spec.disk.snapshot));
    NoProfiles(NasWorkloadTasks(spec));
    NoProfiles([]);
    DiskClassesFirst(spec.disk, 0);
    NasClassesFirst(spec.nas, 0);
    ClassesFirstConcat(DiskWorkloadTasks(spec) + SnapshotTasks(spec.disk.snapshot), DiskClassesFrom(spec.disk, 0));
    ClassesFirstConcat(NasWorkloadTasks(spec), NasClassesFrom(spec.nas, 0));
    var disk := if spec.disk.enabled then DiskTasks(spec) else [];
    var nas := if spec.nas.enabled then NasTasks(spec) else [];
    ClassesFirstConcat(disk, nas);
    ClassesFirstConcat(RBAC_TASKS, disk + nas);
  }

  lemma NoWorkloadProfiles(spec: Spec)
    ensures forall t | t in RBAC_TASKS :: !t.PatchIfPresent?
    ensures forall t | t in DiskWorkloadTasks(spec) + SnapshotTasks(spec.disk.snapshot) :: !t.PatchIfPresent?
    ensures forall t | t in NasWorkloadTasks(spec) :: !t.PatchIfPresent?
  {
    hide ControllerPayload, NodePayload;
  }

  // When a pass of any run patches a StorageProfile, the StorageClass of that name is there,
  // unless others removed it since the pass began.
  lemma ProfileAfterClass(w: World, n: nat, i: nat)
    requires WellFormed(w)
    requires |Run(w, n).log| <= i < |Run(w, n + 1).log| && Run(w, n + 1).log[i].byOperator
    requires Run(w, n + 1).log[i].target.OnObject? && Run(w, n + 1).log[i].target.key.kind == StorageProfile
    ensures var e := Run(w, n + 1).log[i];
            var classKey := Key(StorageClass, e.target.key.name);
            Kept(classKey, Run(w, n + 1).log, |Run(w, n).log|, i) ==> classKey in e.before.objects
  {
    hide WellFormed, FullPlan, Permitted, Reaches, Pass, ReadDriver, InOrder, Kept;
    var before := Restart(Run(w, n));
    RunReaches(w, n);
    RestartReaches(Run(w, n));
    ReachesTransitive(w, Run(w, n), before);
    ReachedWellFormed(w, before);
    PassInOrder(before, false);
    assert Run(w, n + 1) == Pass(before).1;
    var cr := ReadDriver(before).value;
    var log := Run(w, n + 1).log;
    var m :| InOrder(cr, FullPlan(cr.spec), m, false, log, |before.log|, i);
    if Kept(Key(StorageClass, log[i].target.key.name), log, |before.log|, i) {
      ClassIsThere(cr, m, log, |before.log|, i);
    }
  }

  lemma ClassIsThere(cr: Driver, m: nat, log: seq<Event>, start: nat, i: nat)
    requires InOrder(cr, FullPlan(cr.spec), m, false, log, start, i) && log[i].target.key.kind == StorageProfile
    requires Kept(Key(StorageClass, log[i].target.key.name), log, start, i)
    ensures Key(StorageClass, log[i].target.key.name) in log[i].before.objects
  {
    hide FullPlan, Permitted, Kept, Spared, Settled, FlatPatches;
    var plan := FullPlan(cr.spec);
    PermittedNames(cr, plan[m], log[i]);
    PlanTyped(cr.spec);
    assert Typed(plan[m]);
    PlanClassesFirst(cr.spec);
    assert AfterClass(plan, m);
    var j :| 0 <= j < m && plan[j].Adopt? && plan[j].key == Key(StorageClass, plan[m].key.name);
    KeptIsSpared(plan[j], log, start, i);
    NilPass.SettledMeansPresent(plan[j], false, log[i].before);
  }
}
