/**
 * `PermissionRepository`: permission requests registered under caller-chosen tokens. A token
 * stands for a fixed permission array, registration-time `onDenied` / `onExplained`
 * callbacks, and a single-shot `onGranted` that each `runWithPermission` supplies anew.
 *
 * Every handle obtained from `requestPermissions` is kept in `registrations`, with what its
 * delivery closures captured: the token, the activity and the two registration-time
 * callbacks. A `PermissionUnit` points at its handle by index.
 */
module Repository {
  import opened Optional
  import opened Platform

  /** `PermissionUnit` */
  datatype PermissionUnit = PermissionUnit(launcher: nat, requestedPermissions: seq<string>, onGranted: Option<Handler>)

  /** A handle with what its closures captured. The defaults `{}` are `None`. */
  datatype Registration = Registration(
    token: string,
    activity: nat,
    onDenied: Option<Handler>,
    onExplained: Option<Handler>,
    handle: Launcher<seq<string>>)

  /** What `register` is called on: an activity, or a fragment that may be attached to one. */
  datatype Host = ActivityHost(activity: nat) | FragmentHost(attachedTo: Option<nat>)

  /**
   * The repository's state: `permissionMap`, every handle obtained, whether the lifecycle
   * observer of the lifecycle constructor is attached, and the callback invocations made.
   */
  datatype RepositoryState = RepositoryState(
    units: map<string, PermissionUnit>,
    registrations: seq<Registration>,
    observing: bool,
    log: seq<Call>)

  /** Every unit refers to a live handle registered under its own token. */
  ghost predicate Consistent(s: RepositoryState)
  {
    forall t :: t in s.units ==>
      && s.units[t].launcher < |s.registrations|
      && s.registrations[s.units[t].launcher].token == t
      && !s.registrations[s.units[t].launcher].handle.unregistered
  }

  /** `register(activity, token, permission, onDenied, onExplained)` */
  function ActivityRegisterStep(s: RepositoryState, activity: nat, token: string, permission: seq<string>,
                                onDenied: Option<Handler>, onExplained: Option<Handler>): (r: RepositoryState)
  {
    s.(registrations := s.registrations + [Registration(token, activity, onDenied, onExplained, NewLauncher())],
       units := s.units[token := PermissionUnit(|s.registrations|, permission, None)])
  }

  /** Both `register` overloads; the fragment one goes through `requireActivity()`. */
  function RegisterStep(s: RepositoryState, host: Host, token: string, permission: seq<string>,
                        onDenied: Option<Handler>, onExplained: Option<Handler>): (r: (RepositoryState, Outcome))
  {
    match host
    case ActivityHost(a) => (ActivityRegisterStep(s, a, token, permission, onDenied, onExplained), Done)
    case FragmentHost(None) => (s, Thrown(IllegalState))
    case FragmentHost(Some(a)) => (ActivityRegisterStep(s, a, token, permission, onDenied, onExplained), Done)
  }

  /** `runWithPermission(token, onGranted)` */
  function RunStep(s: RepositoryState, token: string, onGranted: Handler): (r: RepositoryState)
    requires Consistent(s)
  {
    if token in s.units then
      var unit := s.units[token];
      var r := s.registrations[unit.launcher];
      s.(units := s.units[token := unit.(onGranted := Some(onGranted))],
         registrations := s.registrations[unit.launcher := r.(handle := Launch(r.handle, unit.requestedPermissions))])
    else
      s
  }

  /** The `allGranted` closure of handle `i`: invoke the token's `onGranted`, then clear it. */
  function GrantedStep(s: RepositoryState, i: nat): (r: RepositoryState)
    requires i < |s.registrations|
  {
    var t := s.registrations[i].token;
    if t in s.units then
      s.(log := Invoke(s.log, s.units[t].onGranted, NoArgs),
         units := s.units[t := s.units[t].(onGranted := None)])
    else
      s
  }

  /** The `denied` closure of handle `i`. */
  function DeniedStep(s: RepositoryState, i: nat): (r: RepositoryState)
    requires i < |s.registrations|
  {
    s.(log := Invoke(s.log, s.registrations[i].onDenied, NoArgs))
  }

  /** The `explained` closure of handle `i`. */
  function ExplainedStep(s: RepositoryState, i: nat): (r: RepositoryState)
    requires i < |s.registrations|
  {
    s.(log := Invoke(s.log, s.registrations[i].onExplained, NoArgs))
  }

  /** The handle indices of the units stored under `tokens`. */
  function HandlesOf(units: map<string, PermissionUnit>, tokens: set<string>): (r: set<nat>)
  {
    set t | t in tokens && t in units :: units[t].launcher
  }

  /** `registrations` with the handles in `ix` unregistered. */
  function UnregisterAll(registrations: seq<Registration>, ix: set<nat>): (r: seq<Registration>)
    ensures |r| == |registrations|
  {
    seq(|registrations|, i requires 0 <= i < |registrations| =>
      if i in ix then registrations[i].(handle := Unregister(registrations[i].handle)) else registrations[i])
  }

  /** `release()` */
  function ReleaseStep(s: RepositoryState): (r: RepositoryState)
  {
    s.(registrations := UnregisterAll(s.registrations, HandlesOf(s.units, s.units.Keys)), units := map[])
  }

  /** The ON_DESTROY observer of the lifecycle constructor. */
  function DestroyStep(s: RepositoryState): (r: RepositoryState)
    requires s.observing
  {
    ReleaseStep(s.(observing := false))
  }

  class PermissionRepository {
    var permissionMap: map<string, PermissionUnit>
    var registrations: seq<Registration>
    var observing: bool
    var log: seq<Call>

    function State(): (r: RepositoryState)
      reads this
    {
      RepositoryState(permissionMap, registrations, observing, log)
    }

    /** `PermissionRepository()` */
    constructor ()
      ensures State() == RepositoryState(map[], [], false, [])
    {
      permissionMap, registrations, observing, log := map[], [], false, [];
    }

    /** `PermissionRepository(lifecycle)`: attaches an ON_DESTROY observer. */
    constructor WithLifecycle()
      ensures State() == RepositoryState(map[], [], true, [])
    {
      permissionMap, registrations, observing, log := map[], [], true, [];
    }

    method Register(host: Host, token: string, permission: seq<string>,
                    onDenied: Option<Handler>, onExplained: Option<Handler>) returns (outcome: Outcome)
      requires Consistent(State())
      modifies this
      ensures (State(), outcome) == RegisterStep(old(State()), host, token, permission, onDenied, onExplained)
      ensures Consistent(State())
    {
      var activity: nat;
      match host {
        case ActivityHost(a) => activity := a;
        case FragmentHost(attached) =>
          if attached.None? {
            return Thrown(IllegalState);
          }
          activity := attached.value;
      }
      permissionMap := permissionMap[token := PermissionUnit(|registrations|, permission, None)];
      registrations := registrations + [Registration(token, activity, onDenied, onExplained, NewLauncher())];
      outcome := Done;
      RegisterKeepsConsistent(old(State()), activity, token, permission, onDenied, onExplained);
    }

    method RunWithPermission(token: string, onGranted: Handler)
      requires Consistent(State())
      modifies this
      ensures State() == RunStep(old(State()), token, onGranted) && Consistent(State())
    {
      if token in permissionMap {
        var unit := permissionMap[token];
        permissionMap := permissionMap[token := unit.(onGranted := Some(onGranted))];
        var r := registrations[unit.launcher];
        registrations := registrations[unit.launcher := r.(handle := Launch(r.handle, unit.requestedPermissions))];
      }
      RunKeepsConsistent(old(State()), token, onGranted);
    }

    method Release()
      requires Consistent(State())
      modifies this
      ensures State() == ReleaseStep(old(State())) && Consistent(State())
    {
      ghost var before := registrations;
      var pending := permissionMap.Keys;
      while pending != {}
        invariant pending <= permissionMap.Keys && permissionMap == old(permissionMap)
        invariant observing == old(observing) && log == old(log)
        invariant registrations == UnregisterAll(before, HandlesOf(permissionMap, permissionMap.Keys - pending))
        decreases pending
      {
        var t :| t in pending;
        var i := permissionMap[t].launcher;
        registrations := registrations[i := registrations[i].(handle := Unregister(registrations[i].handle))];
        HandlesOfAdd(permissionMap, permissionMap.Keys - pending, t);
        assert (permissionMap.Keys - pending) + {t} == permissionMap.Keys - (pending - {t});
        pending := pending - {t};
      }
      permissionMap := map[];
    }

    method OnDestroy()
      requires observing && Consistent(State())
      modifies this
      ensures State() == DestroyStep(old(State())) && Consistent(State())
    {
      observing := false;
      Release();
    }

    method DeliverGranted(i: nat)
      requires i < |registrations| && Consistent(State())
      modifies this
      ensures State() == GrantedStep(old(State()), i) && Consistent(State())
    {
      var t := registrations[i].token;
      if t in permissionMap {
        var unit := permissionMap[t];
        if unit.onGranted.Some? {
          log := log + [Call(unit.onGranted.value, NoArgs)];
        }
        permissionMap := permissionMap[t := unit.(onGranted := None)];
      }
    }

    method DeliverDenied(i: nat)
      requires i < |registrations| && Consistent(State())
      modifies this
      ensures State() == DeniedStep(old(State()), i) && Consistent(State())
    {
      var cb := registrations[i].onDenied;
      if cb.Some? {
        log := log + [Call(cb.value, NoArgs)];
      }
    }

    method DeliverExplained(i: nat)
      requires i < |registrations| && Consistent(State())
      modifies this
      ensures State() == ExplainedStep(old(State()), i) && Consistent(State())
    {
      var cb := registrations[i].onExplained;
      if cb.Some? {
        log := log + [Call(cb.value, NoArgs)];
      }
    }
  }

  // ---------------------------------------------------------------------------------------
  // The invariant

  lemma HandlesOfAdd(units: map<string, PermissionUnit>, done: set<string>, t: string)
    requires t in units
    ensures HandlesOf(units, done + {t}) == HandlesOf(units, done) + {units[t].launcher}
  {
  }

  lemma RegisterKeepsConsistent(s: RepositoryState, activity: nat, token: string, permission: seq<string>,
                                onDenied: Option<Handler>, onExplained: Option<Handler>)
    requires Consistent(s)
    ensures Consistent(ActivityRegisterStep(s, activity, token, permission, onDenied, onExplained))
  {
    var s' := ActivityRegisterStep(s, activity, token, permission, onDenied, onExplained);
    forall t | t in s'.units
      ensures s'.units[t].launcher < |s'.registrations|
      ensures s'.registrations[s'.units[t].launcher] ==
              (if t == token then Registration(token, activity, onDenied, onExplained, NewLauncher())
               else s.registrations[s.units[t].launcher])
    {
    }
  }

  lemma RunKeepsConsistent(s: RepositoryState, token: string, onGranted: Handler)
    requires Consistent(s)
    ensures Consistent(RunStep(s, token, onGranted))
  {
    if token in s.units {
      var s' := RunStep(s, token, onGranted);
      forall t | t in s'.units
        ensures s'.units[t].launcher == s.units[t].launcher
        ensures s'.registrations[s'.units[t].launcher].token == t
        ensures !s'.registrations[s'.units[t].launcher].handle.unregistered
      {
      }
    }
  }

  // ---------------------------------------------------------------------------------------
  // Registration

  /**
   * `register` stores the permission array under the token with `onGranted` null, on a new
   * handle, overwriting any earlier unit of that token; other tokens keep their units.
   */
  lemma RegisterStores(s: RepositoryState, activity: nat, token: string, permission: seq<string>,
                       onDenied: Option<Handler>, onExplained: Option<Handler>)
    ensures var s' := ActivityRegisterStep(s, activity, token, permission, onDenied, onExplained);
            && s'.units[token] == PermissionUnit(|s.registrations|, permission, None)
            && s'.registrations[|s.registrations|] == Registration(token, activity, onDenied, onExplained, NewLauncher())
            && (forall t :: t in s.units && t != token ==> t in s'.units && s'.units[t] == s.units[t])
            && s'.units.Keys == s.units.Keys + {token}
            && s'.log == s.log
  {
  }

  /**
   * Registering on a fragment is registering on its activity with the same token; a fragment
   * that is not attached to an activity makes `requireActivity()` throw, changing nothing.
   */
  lemma FragmentRegistersOnActivity(s: RepositoryState, attachedTo: Option<nat>, token: string, permission: seq<string>,
                                    onDenied: Option<Handler>, onExplained: Option<Handler>)
    ensures attachedTo.Some? ==>
              RegisterStep(s, FragmentHost(attachedTo), token, permission, onDenied, onExplained)
              == RegisterStep(s, ActivityHost(attachedTo.value), token, permission, onDenied, onExplained)
    ensures attachedTo.None? ==>
              RegisterStep(s, FragmentHost(attachedTo), token, permission, onDenied, onExplained) == (s, Thrown(IllegalState))
  {
  }

  // ---------------------------------------------------------------------------------------
  // Run and delivery

  /** `runWithPermission` with an unknown token does nothing at all. */
  lemma RunUnknownToken(s: RepositoryState, token: string, onGranted: Handler)
    requires Consistent(s) && token !in s.units
    ensures RunStep(s, token, onGranted) == s
  {
  }

  /**
   * `runWithPermission` sets the token's `onGranted` and launches the token's handle with the
   * permissions stored at registration; nothing else changes and no callback runs.
   */
  lemma RunLaunchesStored(s: RepositoryState, token: string, onGranted: Handler)
    requires Consistent(s) && token in s.units
    ensures var s' := RunStep(s, token, onGranted);
            var unit := s.units[token];
            && s'.units == s.units[token := unit.(onGranted := Some(onGranted))]
            && s'.registrations[unit.launcher].handle.launches
               == s.registrations[unit.launcher].handle.launches + [unit.requestedPermissions]
            && |s'.registrations| == |s.registrations|
            && (forall j :: 0 <= j < |s.registrations| && j != unit.launcher ==> s'.registrations[j] == s.registrations[j])
            && s'.log == s.log
  {
  }

  /**
   * Single shot: `allGranted` invokes the token's current `onGranted` and clears it, so a
   * second `allGranted` without a new run invokes nothing.
   */
  lemma GrantedSingleShot(s: RepositoryState, i: nat)
    requires i < |s.registrations|
    ensures var g := GrantedStep(s, i);
            var t := s.registrations[i].token;
            && (t in s.units ==> g.log == Invoke(s.log, s.units[t].onGranted, NoArgs) && g.units[t].onGranted.None?)
            && (t !in s.units ==> g == s)
            && GrantedStep(g, i).log == g.log
  {
  }

  /** A run followed by its grant invokes the run's `onGranted` exactly once. */
  lemma RunThenGranted(s: RepositoryState, token: string, onGranted: Handler)
    requires Consistent(s) && token in s.units
    ensures var r := RunStep(s, token, onGranted);
            var i := s.units[token].launcher;
            && i < |r.registrations|
            && GrantedStep(r, i).log == s.log + [Call(onGranted, NoArgs)]
            && GrantedStep(GrantedStep(r, i), i).log == s.log + [Call(onGranted, NoArgs)]
  {
  }

  /** `denied` and `explained` invoke the registration-time callbacks and never touch `onGranted`. */
  lemma DeniedKeepsGranted(s: RepositoryState, i: nat)
    requires i < |s.registrations|
    ensures DeniedStep(s, i).units == s.units && ExplainedStep(s, i).units == s.units
    ensures DeniedStep(s, i).log == Invoke(s.log, s.registrations[i].onDenied, NoArgs)
    ensures ExplainedStep(s, i).log == Invoke(s.log, s.registrations[i].onExplained, NoArgs)
  {
  }

  // ---------------------------------------------------------------------------------------
  // Release

  /**
   * `release` leaves the map empty and unregisters the handle of every unit it held; handles
   * no unit refers to, and the launch history of all of them, are left as they were.
   */
  lemma ReleaseEmpties(s: RepositoryState)
    requires Consistent(s)
    ensures var r := ReleaseStep(s);
            && r.units == map[] && r.log == s.log && |r.registrations| == |s.registrations|
            && (forall t :: t in s.units ==> r.registrations[s.units[t].launcher].handle.unregistered)
            && (forall j :: 0 <= j < |s.registrations| ==>
                  r.registrations[j].handle.launches == s.registrations[j].handle.launches
                  && r.registrations[j].token == s.registrations[j].token)
            && (forall j :: 0 <= j < |s.registrations| && j !in HandlesOf(s.units, s.units.Keys) ==>
                  r.registrations[j] == s.registrations[j])
  {
    var r := ReleaseStep(s);
    forall t | t in s.units
      ensures r.registrations[s.units[t].launcher].handle.unregistered
    {
      assert s.units[t].launcher in HandlesOf(s.units, s.units.Keys);
    }
  }

  /**
   * Registering a token again replaces its unit without unregistering the handle it
   * pointed at, and `release` only reaches the handles of the units still in the map: no
   * call of the repository unregisters the replaced handle, while the new one is unregistered.
   */
  lemma ReregisterLeaksHandle(s: RepositoryState, activity: nat, token: string, permission: seq<string>,
                              onDenied: Option<Handler>, onExplained: Option<Handler>)
    requires Consistent(s) && token in s.units
    ensures var replaced := s.units[token].launcher;
            var r := ReleaseStep(ActivityRegisterStep(s, activity, token, permission, onDenied, onExplained));
            && |r.registrations| == |s.registrations| + 1
            && r.registrations[replaced] == s.registrations[replaced]
            && !r.registrations[replaced].handle.unregistered
            && r.registrations[|s.registrations|].handle.unregistered
            && r.units == map[]
  {
    var replaced := s.units[token].launcher;
    var s' := ActivityRegisterStep(s, activity, token, permission, onDenied, onExplained);
    forall t | t in s'.units
      ensures s'.units[t].launcher != replaced
    {
      if t != token {
        assert s.registrations[s.units[t].launcher].token == t;
      }
    }
    assert replaced !in HandlesOf(s'.units, s'.units.Keys);
    assert |s.registrations| in HandlesOf(s'.units, s'.units.Keys) by {
      assert s'.units[token].launcher == |s.registrations|;
    }
  }

  /** With the lifecycle constructor, ON_DESTROY detaches the observer and releases everything. */
  lemma DestroyReleases(s: RepositoryState)
    requires s.observing
    ensures DestroyStep(s) == ReleaseStep(s).(observing := false)
    ensures DestroyStep(s).units == map[]
  {
  }
}
