/**
 * `PermissionManager`: a process-wide registry of permission requests keyed by the owner's
 * class. Registration only attaches a lifecycle observer. The observer creates the entry at
 * ON_CREATE and releases it at ON_DESTROY. `run` refills an entry's three slots and launches
 * its handle.
 *
 * Every handle the manager obtained is kept in `registrations`, together with the class that
 * its delivery closures captured. An entry points at its handle by index, so the model can
 * still see a handle after `releasePermissions` has removed its entry.
 */
module Manager {
  import opened Optional
  import opened Platform

  /** The `KClass` an entry is keyed by. Two instances of one class share the key. */
  type ClassKey = string

  /** `PermissionCallback`: the entry's handle (an index into `registrations`) and its slots. */
  datatype PermissionCallback = PermissionCallback(
    launcher: nat,
    onGranted: Option<Handler>,
    onDenied: Option<Handler>,
    onExplained: Option<Handler>)

  /** A handle from `requestPermissions`, with the class its delivery closures captured. */
  datatype Registration = Registration(clazz: ClassKey, handle: Launcher<seq<string>>)

  /**
   * The manager's state: the map, the classes with an attached lifecycle observer (one
   * element per observer), every handle obtained so far, and the callback invocations made.
   */
  datatype ManagerState = ManagerState(
    callbacks: map<ClassKey, PermissionCallback>,
    observers: multiset<ClassKey>,
    registrations: seq<Registration>,
    log: seq<Call>)

  const Initial: ManagerState := ManagerState(map[], multiset{}, [], [])

  /** Every entry refers to a live handle that was obtained for its own class. */
  ghost predicate Consistent(s: ManagerState)
  {
    forall k :: k in s.callbacks ==>
      && s.callbacks[k].launcher < |s.registrations|
      && s.registrations[s.callbacks[k].launcher].clazz == k
      && !s.registrations[s.callbacks[k].launcher].handle.unregistered
  }

  /** `registerPermissionRequest(entity, lifecycle, clazz)` */
  function RegisterStep(s: ManagerState, kind: OwnerKind, clazz: ClassKey): (r: (ManagerState, Outcome))
  {
    if clazz in s.callbacks then (s, Warned)
    else if kind == AppCompatActivity || kind == Fragment then
      (s.(observers := s.observers + multiset{clazz}), Done)
    else
      (s, Thrown(IllegalRegisterEntity))
  }

  /** The observer's ON_CREATE handler: a new handle, and an entry with all slots null. */
  function CreateStep(s: ManagerState, clazz: ClassKey): (r: ManagerState)
    requires clazz in s.observers
  {
    s.(registrations := s.registrations + [Registration(clazz, NewLauncher())],
       callbacks := s.callbacks[clazz := PermissionCallback(|s.registrations|, None, None, None)])
  }

  /** `releasePermissions(kClass)` */
  function ReleaseStep(s: ManagerState, clazz: ClassKey): (r: ManagerState)
    requires Consistent(s)
  {
    if clazz in s.callbacks then
      var i := s.callbacks[clazz].launcher;
      s.(registrations := s.registrations[i := s.registrations[i].(handle := Unregister(s.registrations[i].handle))],
         callbacks := s.callbacks - {clazz})
    else
      s
  }

  /** The observer's ON_DESTROY handler: detach the observer, then release the class. */
  function DestroyStep(s: ManagerState, clazz: ClassKey): (r: ManagerState)
    requires clazz in s.observers && Consistent(s)
  {
    ReleaseStep(s.(observers := s.observers - multiset{clazz}), clazz)
  }

  /** `run(clazz, requestedPermission, onGranted, onDenied, onExplained)` */
  function RunStep(s: ManagerState, clazz: ClassKey, permissions: seq<string>, onGranted: Option<Handler>,
                   onDenied: Option<Handler>, onExplained: Option<Handler>): (r: (ManagerState, Outcome))
    requires Consistent(s)
  {
    if clazz !in s.callbacks then (s, Thrown(PermissionNotBeingInitialized))
    else
      var entry := s.callbacks[clazz];
      var r := s.registrations[entry.launcher];
      (s.(callbacks := s.callbacks[clazz := entry.(onGranted := onGranted, onDenied := onDenied, onExplained := onExplained)],
          registrations := s.registrations[entry.launcher := r.(handle := Launch(r.handle, permissions))]), Done)
  }

  /** The `allGranted` closure of handle `i`. */
  function GrantedStep(s: ManagerState, i: nat): (r: ManagerState)
    requires i < |s.registrations|
  {
    var k := s.registrations[i].clazz;
    if k in s.callbacks then s.(log := Invoke(s.log, s.callbacks[k].onGranted, NoArgs)) else s
  }

  /** The `denied` closure of handle `i`. */
  function DeniedStep(s: ManagerState, i: nat, permissions: seq<string>, cancelled: bool): (r: ManagerState)
    requires i < |s.registrations|
  {
    var k := s.registrations[i].clazz;
    if k in s.callbacks then s.(log := Invoke(s.log, s.callbacks[k].onDenied, DeniedPermissions(permissions, cancelled)))
    else s
  }

  /** The `explained` closure of handle `i`. */
  function ExplainedStep(s: ManagerState, i: nat, permissions: seq<string>): (r: ManagerState)
    requires i < |s.registrations|
  {
    var k := s.registrations[i].clazz;
    if k in s.callbacks then s.(log := Invoke(s.log, s.callbacks[k].onExplained, PermissionList(permissions)))
    else s
  }

  /** The `permissionsProcessed` closure of handle `i`. */
  function ProcessedStep(s: ManagerState, i: nat): (r: ManagerState)
    requires i < |s.registrations|
  {
    var k := s.registrations[i].clazz;
    if k in s.callbacks then
      s.(callbacks := s.callbacks[k := s.callbacks[k].(onGranted := None, onExplained := None, onDenied := None)])
    else s
  }

  /** The singleton `PermissionManager`, with its map as a field. */
  class PermissionManager {
    var callbacks: map<ClassKey, PermissionCallback>
    var observers: multiset<ClassKey>
    var registrations: seq<Registration>
    var log: seq<Call>

    function State(): (r: ManagerState)
      reads this
    {
      ManagerState(callbacks, observers, registrations, log)
    }

    constructor ()
      ensures State() == Initial
    {
      callbacks, observers, registrations, log := map[], multiset{}, [], [];
    }

    /** `hasRuntimePermissions(activity)` / `hasRuntimePermissions(fragment)` end here. */
    method RegisterPermissionRequest(kind: OwnerKind, clazz: ClassKey) returns (outcome: Outcome)
      requires Consistent(State())
      modifies this
      ensures (State(), outcome) == RegisterStep(old(State()), kind, clazz) && Consistent(State())
    {
      if clazz in callbacks {
        return Warned;
      }
      if kind == AppCompatActivity || kind == Fragment {
        observers := observers + multiset{clazz};
        return Done;
      }
      outcome := Thrown(IllegalRegisterEntity);
    }

    method OnCreate(clazz: ClassKey)
      requires clazz in observers && Consistent(State())
      modifies this
      ensures State() == CreateStep(old(State()), clazz) && Consistent(State())
    {
      callbacks := callbacks[clazz := PermissionCallback(|registrations|, None, None, None)];
      registrations := registrations + [Registration(clazz, NewLauncher())];
      CreateKeepsConsistent(old(State()), clazz);
    }

    method OnDestroy(clazz: ClassKey)
      requires clazz in observers && Consistent(State())
      modifies this
      ensures State() == DestroyStep(old(State()), clazz) && Consistent(State())
    {
      observers := observers - multiset{clazz};
      ReleasePermissions(clazz);
      ReleaseKeepsConsistent(old(State()).(observers := old(observers) - multiset{clazz}), clazz);
    }

    method Run(clazz: ClassKey, permissions: seq<string>, onGranted: Option<Handler>,
               onDenied: Option<Handler>, onExplained: Option<Handler>) returns (outcome: Outcome)
      requires Consistent(State())
      modifies this
      ensures (State(), outcome) == RunStep(old(State()), clazz, permissions, onGranted, onDenied, onExplained)
      ensures Consistent(State())
    {
      if clazz !in callbacks {
        return Thrown(PermissionNotBeingInitialized);
      }
      var entry := callbacks[clazz];
      callbacks := callbacks[clazz := entry.(onGranted := onGranted, onDenied := onDenied, onExplained := onExplained)];
      var r := registrations[entry.launcher];
      registrations := registrations[entry.launcher := r.(handle := Launch(r.handle, permissions))];
      outcome := Done;
      RunKeepsConsistent(old(State()), clazz, permissions, onGranted, onDenied, onExplained);
    }

    /** `release(activity)` / `release(fragment)` end here. */
    method ReleasePermissions(clazz: ClassKey)
      requires Consistent(State())
      modifies this
      ensures State() == ReleaseStep(old(State()), clazz) && Consistent(State())
    {
      if clazz in callbacks {
        var i := callbacks[clazz].launcher;
        registrations := registrations[i := registrations[i].(handle := Unregister(registrations[i].handle))];
      }
      callbacks := callbacks - {clazz};
      ReleaseKeepsConsistent(old(State()), clazz);
    }

    method DeliverGranted(i: nat)
      requires i < |registrations| && Consistent(State())
      modifies this
      ensures State() == GrantedStep(old(State()), i) && Consistent(State())
    {
      var k := registrations[i].clazz;
      if k in callbacks && callbacks[k].onGranted.Some? {
        log := log + [Call(callbacks[k].onGranted.value, NoArgs)];
      }
    }

    method DeliverDenied(i: nat, permissions: seq<string>, cancelled: bool)
      requires i < |registrations| && Consistent(State())
      modifies this
      ensures State() == DeniedStep(old(State()), i, permissions, cancelled) && Consistent(State())
    {
      var k := registrations[i].clazz;
      if k in callbacks && callbacks[k].onDenied.Some? {
        log := log + [Call(callbacks[k].onDenied.value, DeniedPermissions(permissions, cancelled))];
      }
    }

    method DeliverExplained(i: nat, permissions: seq<string>)
      requires i < |registrations| && Consistent(State())
      modifies this
      ensures State() == ExplainedStep(old(State()), i, permissions) && Consistent(State())
    {
      var k := registrations[i].clazz;
      if k in callbacks && callbacks[k].onExplained.Some? {
        log := log + [Call(callbacks[k].onExplained.value, PermissionList(permissions))];
      }
    }

    method PermissionsProcessed(i: nat)
      requires i < |registrations| && Consistent(State())
      modifies this
      ensures State() == ProcessedStep(old(State()), i) && Consistent(State())
    {
      var k := registrations[i].clazz;
      if k in callbacks {
        callbacks := callbacks[k := callbacks[k].(onGranted := None, onExplained := None, onDenied := None)];
      }
    }
  }

  // ---------------------------------------------------------------------------------------
  // The invariant

  lemma CreateKeepsConsistent(s: ManagerState, clazz: ClassKey)
    requires clazz in s.observers && Consistent(s)
    ensures Consistent(CreateStep(s, clazz))
  {
    var s' := CreateStep(s, clazz);
    forall k | k in s'.callbacks
      ensures s'.callbacks[k].launcher < |s'.registrations|
      ensures s'.registrations[s'.callbacks[k].launcher] ==
              (if k == clazz then Registration(clazz, NewLauncher()) else s.registrations[s.callbacks[k].launcher])
    {
    }
  }

  lemma ReleaseKeepsConsistent(s: ManagerState, clazz: ClassKey)
    requires Consistent(s)
    ensures Consistent(ReleaseStep(s, clazz))
  {
    if clazz in s.callbacks {
      var s' := ReleaseStep(s, clazz);
      var i := s.callbacks[clazz].launcher;
      forall k | k in s'.callbacks
        ensures s'.callbacks[k].launcher != i
        ensures s'.registrations[s'.callbacks[k].launcher] == s.registrations[s.callbacks[k].launcher]
      {
        assert s.registrations[s.callbacks[k].launcher].clazz == k != clazz;
      }
    }
  }

  lemma RunKeepsConsistent(s: ManagerState, clazz: ClassKey, permissions: seq<string>, onGranted: Option<Handler>,
                           onDenied: Option<Handler>, onExplained: Option<Handler>)
    requires Consistent(s)
    ensures Consistent(RunStep(s, clazz, permissions, onGranted, onDenied, onExplained).0)
  {
    if clazz in s.callbacks {
      var s' := RunStep(s, clazz, permissions, onGranted, onDenied, onExplained).0;
      var i := s.callbacks[clazz].launcher;
      forall k | k in s'.callbacks
        ensures s'.callbacks[k].launcher == s.callbacks[k].launcher
        ensures s'.registrations[s'.callbacks[k].launcher].clazz == k
        ensures !s'.registrations[s'.callbacks[k].launcher].handle.unregistered
      {
      }
    }
  }

  // ---------------------------------------------------------------------------------------
  // Registration

  /**
   * Registering a class that already has an entry only warns and changes nothing, whatever
   * the entity is; registering something that is neither an activity nor a fragment throws
   * `IllegalRegisterEntity`. Registration never creates an entry itself.
   */
  lemma RegisterIdempotent(s: ManagerState, kind: OwnerKind, clazz: ClassKey)
    ensures clazz in s.callbacks ==> RegisterStep(s, kind, clazz) == (s, Warned)
    ensures clazz !in s.callbacks && kind != AppCompatActivity && kind != Fragment ==>
              RegisterStep(s, kind, clazz) == (s, Thrown(IllegalRegisterEntity))
    ensures RegisterStep(s, kind, clazz).0.callbacks == s.callbacks
    ensures RegisterStep(s, kind, clazz).0.registrations == s.registrations
  {
  }

  /**
   * ON_CREATE creates the entry: a new, never launched, registered handle and three null
   * slots. Every other entry stays as it was.
   */
  lemma CreateMakesEntry(s: ManagerState, clazz: ClassKey)
    requires clazz in s.observers
    ensures var s' := CreateStep(s, clazz);
            && clazz in s'.callbacks
            && s'.callbacks[clazz].onGranted.None? && s'.callbacks[clazz].onDenied.None? && s'.callbacks[clazz].onExplained.None?
            && s'.registrations[s'.callbacks[clazz].launcher] == Registration(clazz, NewLauncher())
            && (forall k :: k in s.callbacks && k != clazz ==> k in s'.callbacks && s'.callbacks[k] == s.callbacks[k])
            && s'.registrations[..|s.registrations|] == s.registrations
  {
    var s' := CreateStep(s, clazz);
    assert s'.registrations[..|s.registrations|] == s.registrations;
  }

  /** Once a class has an entry, any further registration of that class is a warning. */
  lemma SameClassSharesEntry(s: ManagerState, clazz: ClassKey, kind: OwnerKind)
    requires clazz in s.observers
    ensures RegisterStep(CreateStep(s, clazz), kind, clazz) == (CreateStep(s, clazz), Warned)
  {
  }

  // ---------------------------------------------------------------------------------------
  // Run

  /** `run` for a class without an entry throws `PermissionNotBeingInitialized` and changes nothing. */
  lemma RunUnregistered(s: ManagerState, clazz: ClassKey, permissions: seq<string>, onGranted: Option<Handler>,
                        onDenied: Option<Handler>, onExplained: Option<Handler>)
    requires Consistent(s) && clazz !in s.callbacks
    ensures RunStep(s, clazz, permissions, onGranted, onDenied, onExplained) == (s, Thrown(PermissionNotBeingInitialized))
  {
  }

  /**
   * `run` on a registered class overwrites all three slots, null ones included, and launches
   * that class's handle once with the requested permissions. No other entry or handle
   * changes, and no callback runs.
   */
  lemma RunOverwrites(s: ManagerState, clazz: ClassKey, permissions: seq<string>, onGranted: Option<Handler>,
                      onDenied: Option<Handler>, onExplained: Option<Handler>)
    requires Consistent(s) && clazz in s.callbacks
    ensures var (s', outcome) := RunStep(s, clazz, permissions, onGranted, onDenied, onExplained);
            var i := s.callbacks[clazz].launcher;
            && outcome == Done
            && s'.callbacks == s.callbacks[clazz := PermissionCallback(i, onGranted, onDenied, onExplained)]
            && s'.registrations[i].handle.launches == s.registrations[i].handle.launches + [permissions]
            && |s'.registrations| == |s.registrations|
            && (forall j :: 0 <= j < |s.registrations| && j != i ==> s'.registrations[j] == s.registrations[j])
            && s'.log == s.log && s'.observers == s.observers
  {
  }

  // ---------------------------------------------------------------------------------------
  // Delivery

  /** A delivery through a class's handle invokes only the matching slot of that class's entry. */
  lemma DeliveryUsesEntry(s: ManagerState, i: nat, permissions: seq<string>, cancelled: bool)
    requires i < |s.registrations| && s.registrations[i].clazz in s.callbacks
    ensures var e := s.callbacks[s.registrations[i].clazz];
            && GrantedStep(s, i).log == Invoke(s.log, e.onGranted, NoArgs)
            && DeniedStep(s, i, permissions, cancelled).log == Invoke(s.log, e.onDenied, DeniedPermissions(permissions, cancelled))
            && ExplainedStep(s, i, permissions).log == Invoke(s.log, e.onExplained, PermissionList(permissions))
            && GrantedStep(s, i).callbacks == s.callbacks
  {
  }

  /** After `permissionsProcessed`, every delivery through that class's handles is silent. */
  lemma ProcessedSilencesDeliveries(s: ManagerState, i: nat, j: nat, permissions: seq<string>, cancelled: bool)
    requires i < |s.registrations| && j < |s.registrations|
    requires s.registrations[j].clazz == s.registrations[i].clazz
    ensures var p := ProcessedStep(s, i);
            GrantedStep(p, j) == p && DeniedStep(p, j, permissions, cancelled) == p && ExplainedStep(p, j, permissions) == p
  {
  }

  // ---------------------------------------------------------------------------------------
  // Release

  /**
   * `releasePermissions` unregisters the class's handle and removes only that key; other
   * entries, other handles and the observers are unchanged.
   */
  lemma ReleaseFrame(s: ManagerState, clazz: ClassKey)
    requires Consistent(s)
    ensures var s' := ReleaseStep(s, clazz);
            && clazz !in s'.callbacks
            && (forall k :: k in s.callbacks && k != clazz ==> k in s'.callbacks && s'.callbacks[k] == s.callbacks[k])
            && s'.callbacks.Keys == s.callbacks.Keys - {clazz}
            && |s'.registrations| == |s.registrations|
            && (forall j :: 0 <= j < |s.registrations| ==>
                  s'.registrations[j] ==
                    if clazz in s.callbacks && j == s.callbacks[clazz].launcher
                    then s.registrations[j].(handle := Unregister(s.registrations[j].handle))
                    else s.registrations[j])
            && s'.observers == s.observers && s'.log == s.log
  {
  }

  /**
   * ON_DESTROY detaches one observer and releases the class; a late delivery through any
   * handle of that class then has no effect.
   */
  lemma DestroySilencesLateDeliveries(s: ManagerState, clazz: ClassKey, j: nat, permissions: seq<string>, cancelled: bool)
    requires clazz in s.observers && Consistent(s)
    requires j < |s.registrations| && s.registrations[j].clazz == clazz
    ensures var d := DestroyStep(s, clazz);
            && d.observers == s.observers - multiset{clazz}
            && clazz !in d.callbacks
            && GrantedStep(d, j) == d && DeniedStep(d, j, permissions, cancelled) == d
            && ExplainedStep(d, j, permissions) == d && ProcessedStep(d, j) == d
  {
  }

  /**
   * The entry exists only from ON_CREATE on, so registering a class twice before then
   * attaches two observers, and one ON_CREATE event reaches both. The second observer's
   * handler overwrites the entry made by the first without unregistering its handle. At
   * ON_DESTROY the first observer's handler releases only the second handle, and the
   * second observer's handler finds no entry and only detaches. No call of the manager
   * ever unregisters the first handle.
   */
  lemma EarlyReregisterLeaksHandle(s: ManagerState, kind: OwnerKind, clazz: ClassKey)
    requires Consistent(s) && clazz !in s.callbacks
    requires kind == AppCompatActivity || kind == Fragment
    ensures var (s1, o1) := RegisterStep(s, kind, clazz);
            var (s2, o2) := RegisterStep(s1, kind, clazz);
            var c := CreateStep(CreateStep(s2, clazz), clazz);
            && o1 == Done && o2 == Done
            && Consistent(c) && clazz in c.observers
            && var d := DestroyStep(c, clazz);
               && |d.registrations| == |s.registrations| + 2
               && d.registrations[|s.registrations|].clazz == clazz
               && !d.registrations[|s.registrations|].handle.unregistered
               && d.registrations[|s.registrations| + 1].handle.unregistered
               && clazz !in d.callbacks && clazz in d.observers
               && Consistent(d)
               && DestroyStep(d, clazz) == d.(observers := d.observers - multiset{clazz})
  {
    var s2 := RegisterStep(RegisterStep(s, kind, clazz).0, kind, clazz).0;
    CreateKeepsConsistent(s2, clazz);
    var c := CreateStep(CreateStep(s2, clazz), clazz);
    CreateKeepsConsistent(CreateStep(s2, clazz), clazz);
    ReleaseKeepsConsistent(c.(observers := c.observers - multiset{clazz}), clazz);
  }
}
