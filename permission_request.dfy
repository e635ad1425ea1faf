/**
 * `PermissionRequest`: one permission request registered on one lifecycle owner. It holds a
 * `lateinit` launch handle and three nullable callback slots. `launch` fills the slots and
 * launches the handle. The deliveries made through the handle invoke whatever the slots hold
 * at that moment, and `requestFinished` empties them.
 *
 * The class keeps the source's fields. Each method is specified by a step function on
 * `RequestState`, and the lemmas at the end relate several steps.
 */
module Request {
  import opened Optional
  import opened Sequences
  import opened Platform

  /** An argument of `launch`: a permission string, or a `ConditionalPermission(name, condition)`. */
  datatype PermissionArg = Plain(name: string) | Conditional(name: string, condition: bool)

  /** `permission !is ConditionalPermission || permission.condition` */
  predicate Kept(p: PermissionArg)
  {
    !p.Conditional? || p.condition
  }

  /** The permission strings of the arguments, in argument order. */
  function Names(args: seq<PermissionArg>): (names: seq<string>)
    ensures |names| == |args|
    ensures forall i :: 0 <= i < |args| ==> names[i] == args[i].name
  {
    if args == [] then [] else [args[0].name] + Names(args[1..])
  }

  /** The `requestedPermission` list that `launch` builds from its arguments. */
  function Requested(args: seq<PermissionArg>): (r: seq<string>)
  {
    if args == [] then []
    else (if Kept(args[0]) then [args[0].name] else []) + Requested(args[1..])
  }

  /** The three callback slots. `None` is `null`. */
  datatype Slots = Slots(onGranted: Option<Handler>, onDenied: Option<Handler>, onExplained: Option<Handler>)

  const Empty: Slots := Slots(None, None, None)

  /**
   * The whole state of a `PermissionRequest`: the `lateinit` handle (`None` while unassigned),
   * whether it observes its owner's lifecycle, the slots, and the callback invocations it made.
   */
  datatype RequestState = RequestState(
    launcher: Option<Launcher<seq<string>>>,
    observing: bool,
    slots: Slots,
    log: seq<Call>)

  function Initial(): (r: RequestState)
  {
    RequestState(None, false, Empty, [])
  }

  /** `register(owner)` */
  function RegisterStep(s: RequestState, owner: Owner): (r: (RequestState, Outcome))
  {
    if IsAtLeast(owner.state, Started) then (s, Thrown(IllegalState))
    else if IsComponentActivity(owner.kind) || owner.kind == Fragment then
      (s.(observing := true, launcher := Some(NewLauncher())), Done)
    else
      (s.(observing := true), Done)
  }

  /** `launch(permissions, onDenied, onExplained, onGranted)` */
  function LaunchStep(s: RequestState, args: seq<PermissionArg>, onDenied: Option<Handler>,
                      onExplained: Option<Handler>, onGranted: Option<Handler>): (r: (RequestState, Outcome))
  {
    if s.launcher.None? then (s, Thrown(IllegalState))
    else if Requested(args) == [] then (s.(log := Invoke(s.log, onGranted, NoArgs)), Done)
    else
      (s.(slots := Slots(onGranted, onDenied, onExplained),
          launcher := Some(Launch(s.launcher.value, Requested(args)))), Done)
  }

  /** The `allGranted` closure. */
  function GrantedStep(s: RequestState): (r: RequestState)
  {
    s.(log := Invoke(s.log, s.slots.onGranted, NoArgs))
  }

  /** The `denied` closure. */
  function DeniedStep(s: RequestState, permissions: seq<string>, cancelled: bool): (r: RequestState)
  {
    s.(log := Invoke(s.log, s.slots.onDenied, DeniedPermissions(permissions, cancelled)))
  }

  /** The `explained` closure. */
  function ExplainedStep(s: RequestState, permissions: seq<string>): (r: RequestState)
  {
    s.(log := Invoke(s.log, s.slots.onExplained, PermissionList(permissions)))
  }

  /** The `requestFinished` closure. */
  function FinishedStep(s: RequestState): (r: RequestState)
  {
    s.(slots := Empty)
  }

  /** `onDestroy(owner)`: reading the unassigned handle throws before the observer is removed. */
  function DestroyStep(s: RequestState): (r: (RequestState, Outcome))
  {
    if s.launcher.None? then (s, Thrown(UninitializedProperty))
    else (s.(launcher := Some(Unregister(s.launcher.value)), observing := false), Done)
  }

  class PermissionRequest {
    var launcher: Option<Launcher<seq<string>>>
    var observing: bool
    var onGranted: Option<Handler>
    var onDenied: Option<Handler>
    var onExplained: Option<Handler>
    var log: seq<Call>

    function State(): (r: RequestState)
      reads this
    {
      RequestState(launcher, observing, Slots(onGranted, onDenied, onExplained), log)
    }

    constructor ()
      ensures State() == Initial()
    {
      launcher, observing := None, false;
      onGranted, onDenied, onExplained := None, None, None;
      log := [];
    }

    method Register(owner: Owner) returns (outcome: Outcome)
      modifies this
      ensures (State(), outcome) == RegisterStep(old(State()), owner)
    {
      if IsAtLeast(owner.state, Started) {
        return Thrown(IllegalState);
      }
      observing := true;
      if IsComponentActivity(owner.kind) || owner.kind == Fragment {
        launcher := Some(NewLauncher());
      }
      outcome := Done;
    }

    method Launch(permissions: seq<PermissionArg>, onDenied: Option<Handler>,
                  onExplained: Option<Handler>, onGranted: Option<Handler>) returns (outcome: Outcome)
      modifies this
      ensures (State(), outcome) == LaunchStep(old(State()), permissions, onDenied, onExplained, onGranted)
    {
      if launcher.None? {
        return Thrown(IllegalState);
      }
      var requested: seq<string> := [];
      for i := 0 to |permissions|
        invariant requested == Requested(permissions[..i])
        invariant unchanged(this)
      {
        var p := permissions[i];
        assert permissions[..i + 1] == permissions[..i] + [p];
        RequestedAppend(permissions[..i], p);
        if !p.Conditional? || p.condition {
          requested := requested + [p.name];
        }
      }
      assert permissions[..|permissions|] == permissions;
      if requested == [] {
        if onGranted.Some? {
          log := log + [Call(onGranted.value, NoArgs)];
        }
        return Done;
      }
      this.onDenied := onDenied;
      this.onExplained := onExplained;
      this.onGranted := onGranted;
      launcher := Some(Platform.Launch(launcher.value, requested));
      outcome := Done;
    }

    method DeliverGranted()
      modifies this
      ensures State() == GrantedStep(old(State()))
    {
      if onGranted.Some? {
        log := log + [Call(onGranted.value, NoArgs)];
      }
    }

    method DeliverDenied(permissions: seq<string>, cancelled: bool)
      modifies this
      ensures State() == DeniedStep(old(State()), permissions, cancelled)
    {
      if onDenied.Some? {
        log := log + [Call(onDenied.value, DeniedPermissions(permissions, cancelled))];
      }
    }

    method DeliverExplained(permissions: seq<string>)
      modifies this
      ensures State() == ExplainedStep(old(State()), permissions)
    {
      if onExplained.Some? {
        log := log + [Call(onExplained.value, PermissionList(permissions))];
      }
    }

    method RequestFinished()
      modifies this
      ensures State() == FinishedStep(old(State()))
    {
      onGranted := None;
      onExplained := None;
      onDenied := None;
    }

    method OnDestroy() returns (outcome: Outcome)
      modifies this
      ensures (State(), outcome) == DestroyStep(old(State()))
    {
      if launcher.None? {
        return Thrown(UninitializedProperty);
      }
      launcher := Some(Unregister(launcher.value));
      observing := false;
      outcome := Done;
    }
  }

  // ---------------------------------------------------------------------------------------
  // The requested list

  lemma {:induction false} RequestedAppend(args: seq<PermissionArg>, p: PermissionArg)
    ensures Requested(args + [p]) == Requested(args) + (if Kept(p) then [p.name] else [])
  {
    if args == [] {
      assert [] + [p] == [p];
      assert [p][1..] == [];
    } else {
      var t := args + [p];
      assert t[0] == args[0];
      assert t[1..] == args[1..] + [p];
      RequestedAppend(args[1..], p);
    }
  }

  /**
   * `launch` drops exactly the conditional permissions whose condition is false: a name is
   * requested iff some kept argument carries it.
   */
  lemma {:induction false} RequestedMember(args: seq<PermissionArg>, x: string)
    ensures x in Requested(args) <==> exists i :: 0 <= i < |args| && Kept(args[i]) && args[i].name == x
  {
    if args != [] {
      RequestedMember(args[1..], x);
      if x in Requested(args[1..]) {
        var i :| 0 <= i < |args[1..]| && Kept(args[1..][i]) && args[1..][i].name == x;
        assert args[i + 1] == args[1..][i];
      }
      if exists i :: 0 <= i < |args| && Kept(args[i]) && args[i].name == x {
        var i :| 0 <= i < |args| && Kept(args[i]) && args[i].name == x;
        if i > 0 {
          assert args[1..][i - 1] == args[i];
        }
      }
    }
  }

  /**
   * The kept permissions stay in argument order, and when nothing is dropped the request is
   * every argument's string.
   */
  lemma {:induction false} RequestedOrder(args: seq<PermissionArg>)
    ensures Subsequence(Requested(args), Names(args))
    ensures (forall i :: 0 <= i < |args| ==> Kept(args[i])) ==> Requested(args) == Names(args)
  {
    if args != [] {
      RequestedOrder(args[1..]);
      var rest := Requested(args[1..]);
      assert Names(args) == [args[0].name] + Names(args[1..]);
      if Kept(args[0]) {
        assert Requested(args) == [args[0].name] + rest;
        SubsequenceKeep(rest, args[0].name, Names(args[1..]));
        if forall i :: 0 <= i < |args| ==> Kept(args[i]) {
          assert forall i :: 0 <= i < |args[1..]| ==> args[1..][i] == args[i + 1];
        }
      } else {
        assert Requested(args) == rest;
        SubsequenceSkip(rest, args[0].name, Names(args[1..]));
      }
    }
  }

  // ---------------------------------------------------------------------------------------
  // Registration and launch

  /**
   * `register` throws exactly when the owner is at least STARTED and then changes nothing;
   * otherwise it observes the owner and, for an activity or a fragment, assigns a new handle.
   */
  lemma RegisterGuard(s: RequestState, owner: Owner)
    ensures RegisterStep(s, owner).1.Thrown? <==> IsAtLeast(owner.state, Started)
    ensures RegisterStep(s, owner).1.Thrown? ==> RegisterStep(s, owner).0 == s
    ensures !IsAtLeast(owner.state, Started) ==>
              var s' := RegisterStep(s, owner).0;
              && s'.observing && s'.slots == s.slots && s'.log == s.log
              && s'.launcher == (if IsComponentActivity(owner.kind) || owner.kind == Fragment
                                 then Some(NewLauncher()) else s.launcher)
  {
  }

  /** `launch` on a request that never received a handle throws and changes nothing. */
  lemma LaunchUnregistered(s: RequestState, args: seq<PermissionArg>, onDenied: Option<Handler>,
                           onExplained: Option<Handler>, onGranted: Option<Handler>)
    requires s.launcher.None?
    ensures LaunchStep(s, args, onDenied, onExplained, onGranted) == (s, Thrown(IllegalState))
  {
  }

  /** A fresh request registered on an activity or fragment before STARTED can be launched. */
  lemma LaunchAfterRegister(owner: Owner, args: seq<PermissionArg>, onDenied: Option<Handler>,
                            onExplained: Option<Handler>, onGranted: Option<Handler>)
    ensures var registered := RegisterStep(Initial(), owner).0;
            LaunchStep(registered, args, onDenied, onExplained, onGranted).1 == Done <==>
              !IsAtLeast(owner.state, Started) && (IsComponentActivity(owner.kind) || owner.kind == Fragment)
  {
  }

  /**
   * When every argument is dropped, `onGranted` runs at once (if given); the slots and the
   * handle are untouched, so nothing is launched.
   */
  lemma LaunchNothingGrants(s: RequestState, args: seq<PermissionArg>, onDenied: Option<Handler>,
                            onExplained: Option<Handler>, onGranted: Option<Handler>)
    requires s.launcher.Some? && Requested(args) == []
    ensures var (s', outcome) := LaunchStep(s, args, onDenied, onExplained, onGranted);
            && outcome == Done
            && s'.slots == s.slots && s'.launcher == s.launcher && s'.observing == s.observing
            && s'.log == s.log + (if onGranted.Some? then [Call(onGranted.value, NoArgs)] else [])
  {
  }

  /**
   * Otherwise all three slots take the new callbacks, null ones included, and the handle is
   * launched once more, with the requested list; no callback runs.
   */
  lemma LaunchOverwrites(s: RequestState, args: seq<PermissionArg>, onDenied: Option<Handler>,
                         onExplained: Option<Handler>, onGranted: Option<Handler>)
    requires s.launcher.Some? && Requested(args) != []
    ensures var (s', outcome) := LaunchStep(s, args, onDenied, onExplained, onGranted);
            && outcome == Done
            && s'.slots == Slots(onGranted, onDenied, onExplained)
            && s'.launcher.Some?
            && s'.launcher.value.launches == s.launcher.value.launches + [Requested(args)]
            && s'.launcher.value.unregistered == s.launcher.value.unregistered
            && s'.log == s.log
  {
  }

  /**
   * Last write wins: after two launches, a grant invokes the second launch's `onGranted`
   * only, and the handle has seen both requests in order.
   */
  lemma LastWriteWins(s: RequestState, args1: seq<PermissionArg>, first: Slots,
                      args2: seq<PermissionArg>, second: Slots)
    requires s.launcher.Some? && Requested(args1) != [] && Requested(args2) != []
    ensures var s1 := LaunchStep(s, args1, first.onDenied, first.onExplained, first.onGranted).0;
            var s2 := LaunchStep(s1, args2, second.onDenied, second.onExplained, second.onGranted).0;
            && GrantedStep(s2).log == s.log + (if second.onGranted.Some? then [Call(second.onGranted.value, NoArgs)] else [])
            && s2.launcher.value.launches == s.launcher.value.launches + [Requested(args1), Requested(args2)]
  {
  }

  // ---------------------------------------------------------------------------------------
  // Delivery

  /** A delivery invokes only its own slot, and nothing when that slot is null. */
  lemma DeliveryUsesItsSlot(s: RequestState, permissions: seq<string>, cancelled: bool)
    ensures GrantedStep(s).log == s.log + (if s.slots.onGranted.Some? then [Call(s.slots.onGranted.value, NoArgs)] else [])
    ensures DeniedStep(s, permissions, cancelled).log ==
              s.log + (if s.slots.onDenied.Some? then [Call(s.slots.onDenied.value, DeniedPermissions(permissions, cancelled))] else [])
    ensures ExplainedStep(s, permissions).log ==
              s.log + (if s.slots.onExplained.Some? then [Call(s.slots.onExplained.value, PermissionList(permissions))] else [])
    ensures GrantedStep(s).slots == DeniedStep(s, permissions, cancelled).slots == ExplainedStep(s, permissions).slots == s.slots
  {
  }

  /** Single shot: once `requestFinished` ran, no delivery has any effect until the next launch. */
  lemma FinishedSilencesDeliveries(s: RequestState, permissions: seq<string>, cancelled: bool)
    ensures var f := FinishedStep(s);
            f.slots == Empty && f.log == s.log && f.launcher == s.launcher
            && GrantedStep(f) == f && DeniedStep(f, permissions, cancelled) == f && ExplainedStep(f, permissions) == f
  {
  }

  /**
   * `onDestroy` unregisters the handle and stops observing; the slots are left as they are.
   * Without a handle it throws and changes nothing.
   */
  lemma DestroyUnregisters(s: RequestState)
    ensures var (s', outcome) := DestroyStep(s);
            if s.launcher.None? then outcome == Thrown(UninitializedProperty) && s' == s
            else && outcome == Done && !s'.observing && s'.slots == s.slots && s'.log == s.log
                 && s'.launcher == Some(Unregister(s.launcher.value))
  {
  }
}
