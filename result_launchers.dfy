/**
 * The launchers of the result library. A `BaseLauncher` is a lifecycle observer: `register`
 * attaches it, its ON_CREATE handler obtains the launch handle from an activity or a
 * fragment, and its ON_DESTROY handler detaches it and unregisters the handle. The
 * `TakeVideoUriLauncher` adds `launch`, which first runs the caller's builder block over
 * the launcher's one `ResultBuilder`, and the result callback, which calls exactly one of
 * the builder's two callbacks.
 *
 * Kotlin's subclassing becomes composition: a `TakeVideoUriLauncher` owns its
 * `BaseLauncher` part.
 */
module Launchers {
  import opened Optional
  import opened Platform
  import opened Contracts

  /** `ContentNotLoadedOrCancelled`, the only cause `failed` is called with. */
  datatype Cause = ContentNotLoadedOrCancelled

  /** One invocation of a result callback. */
  datatype ResultCall = Succeeded(handler: Handler, uri: Uri) | FailedWith(handler: Handler, cause: Cause)

  /** `ResultBuilder`: the two callbacks; `None` is the default no-op `{}`. */
  datatype ResultBuilder = ResultBuilder(success: Option<Handler>, failed: Option<Handler>)

  const DefaultBuilder := ResultBuilder(None, None)

  /** A `ResultBuilder.() -> Unit` block: the callbacks it assigns; `None` where it assigns nothing. */
  datatype BuilderBlock = BuilderBlock(setSuccess: Option<Handler>, setFailed: Option<Handler>)

  /** Running a block over a builder: what it assigns replaces, what it does not assign stays. */
  function ApplyBlock(b: ResultBuilder, block: BuilderBlock): (r: ResultBuilder)
  {
    ResultBuilder(
      if block.setSuccess.Some? then block.setSuccess else b.success,
      if block.setFailed.Some? then block.setFailed else b.failed)
  }

  /** The state of a launcher: its builder, its `lateinit` handle and whether it observes. */
  datatype LauncherState<I> = LauncherState(builder: ResultBuilder, launcher: Option<Launcher<I>>, observing: bool)

  function Fresh<I>(): (r: LauncherState<I>)
  {
    LauncherState(DefaultBuilder, None, false)
  }

  /** `register(lifecycleOwner)` */
  function RegisterStep<I>(s: LauncherState<I>): (r: LauncherState<I>)
  {
    s.(observing := true)
  }

  /** `onCreate(lifecycleOwner)`: only an activity or a fragment yields a handle. */
  function CreateStep<I>(s: LauncherState<I>, kind: OwnerKind): (r: LauncherState<I>)
  {
    if IsComponentActivity(kind) || kind == Fragment then s.(launcher := Some(NewLauncher())) else s
  }

  /** `onDestroy(lifecycleOwner)`: detaching comes first, so it happens even when the read throws. */
  function DestroyStep<I>(s: LauncherState<I>): (r: (LauncherState<I>, Outcome))
  {
    if s.launcher.None? then (s.(observing := false), Thrown(UninitializedProperty))
    else (s.(observing := false, launcher := Some(Unregister(s.launcher.value))), Done)
  }

  /** `TakeVideoUriLauncher.launch(input, callbackBuilder)`: the block runs before the handle is read. */
  function VideoLaunchStep(s: LauncherState<Option<Uri>>, input: Option<Uri>, block: BuilderBlock)
    : (r: (LauncherState<Option<Uri>>, Outcome))
  {
    var s' := s.(builder := ApplyBlock(s.builder, block));
    if s.launcher.None? then (s', Thrown(UninitializedProperty))
    else (s'.(launcher := Some(Launch(s.launcher.value, input))), Done)
  }

  /** `TakeVideoUriLauncher.onActivityResult(result)`: `success` on a URI, `failed` on null. */
  function Dispatch(b: ResultBuilder, result: Option<Uri>): (r: seq<ResultCall>)
  {
    if result.Some? then
      (if b.success.Some? then [Succeeded(b.success.value, result.value)] else [])
    else
      (if b.failed.Some? then [FailedWith(b.failed.value, ContentNotLoadedOrCancelled)] else [])
  }

  class BaseLauncher<I> {
    var resultBuilder: ResultBuilder
    var resultLauncher: Option<Launcher<I>>
    var observing: bool

    function State(): (r: LauncherState<I>)
      reads this
    {
      LauncherState(resultBuilder, resultLauncher, observing)
    }

    constructor ()
      ensures State() == Fresh()
    {
      resultBuilder, resultLauncher, observing := DefaultBuilder, None, false;
    }

    method Register()
      modifies this
      ensures State() == RegisterStep(old(State()))
    {
      observing := true;
    }

    method OnCreate(kind: OwnerKind)
      modifies this
      ensures State() == CreateStep(old(State()), kind)
    {
      if IsComponentActivity(kind) {
        resultLauncher := Some(NewLauncher());
      } else if kind == Fragment {
        resultLauncher := Some(NewLauncher());
      }
    }

    method OnDestroy() returns (outcome: Outcome)
      modifies this
      ensures (State(), outcome) == DestroyStep(old(State()))
    {
      observing := false;
      if resultLauncher.None? {
        return Thrown(UninitializedProperty);
      }
      resultLauncher := Some(Unregister(resultLauncher.value));
      outcome := Done;
    }

    /** The default result callback ignores the result. */
    method OnActivityResult(result: Option<I>)
      ensures State() == old(State())
    {
    }
  }

  class TakeVideoUriLauncher {
    const base: BaseLauncher<Option<Uri>>
    var log: seq<ResultCall>

    function State(): (r: LauncherState<Option<Uri>>)
      reads this, base
    {
      base.State()
    }

    constructor ()
      ensures State() == Fresh() && log == [] && fresh(base)
    {
      base := new BaseLauncher();
      log := [];
    }

    method Launch(input: Option<Uri>, callbackBuilder: BuilderBlock) returns (outcome: Outcome)
      modifies base
      ensures (State(), outcome) == VideoLaunchStep(old(State()), input, callbackBuilder)
    {
      base.resultBuilder := ApplyBlock(base.resultBuilder, callbackBuilder);
      if base.resultLauncher.None? {
        return Thrown(UninitializedProperty);
      }
      base.resultLauncher := Some(Platform.Launch(base.resultLauncher.value, input));
      outcome := Done;
    }

    /** `launch(callbackBuilder)`: the same with a null input. */
    method LaunchNoInput(callbackBuilder: BuilderBlock) returns (outcome: Outcome)
      modifies base
      ensures (State(), outcome) == VideoLaunchStep(old(State()), None, callbackBuilder)
    {
      outcome := Launch(None, callbackBuilder);
    }

    method OnActivityResult(result: Option<Uri>)
      modifies this
      ensures log == old(log) + Dispatch(base.resultBuilder, result)
    {
      if result.Some? {
        if base.resultBuilder.success.Some? {
          log := log + [Succeeded(base.resultBuilder.success.value, result.value)];
        }
      } else {
        if base.resultBuilder.failed.Some? {
          log := log + [FailedWith(base.resultBuilder.failed.value, ContentNotLoadedOrCancelled)];
        }
      }
    }
  }

  // ---------------------------------------------------------------------------------------
  // Lifecycle

  /**
   * `register` only attaches the observer. Only an activity or a fragment then gives the
   * launcher a handle at ON_CREATE: after registering on any
   * other owner the handle stays unassigned, so `launch` and ON_DESTROY both throw.
   */
  lemma CreateNeedsActivityOrFragment(kind: OwnerKind, input: Option<Uri>, block: BuilderBlock)
    ensures RegisterStep(Fresh<Option<Uri>>()).launcher.None? && RegisterStep(Fresh<Option<Uri>>()).observing
    ensures var c := CreateStep(RegisterStep(Fresh<Option<Uri>>()), kind);
            && (c.launcher.Some? <==> IsComponentActivity(kind) || kind == Fragment)
            && (c.launcher.Some? ==> c.launcher.value == NewLauncher())
            && (c.launcher.None? ==> VideoLaunchStep(c, input, block).1 == Thrown(UninitializedProperty)
                                     && DestroyStep(c).1 == Thrown(UninitializedProperty))
  {
  }

  /** ON_DESTROY always detaches the observer; it unregisters the handle when there is one. */
  lemma DestroyDetaches<I>(s: LauncherState<I>)
    ensures !DestroyStep(s).0.observing && DestroyStep(s).0.builder == s.builder
    ensures DestroyStep(s).1.Done? <==> s.launcher.Some?
    ensures s.launcher.Some? ==> DestroyStep(s).0.launcher.value.unregistered
                                 && DestroyStep(s).0.launcher.value.launches == s.launcher.value.launches
  {
  }

  // ---------------------------------------------------------------------------------------
  // Launch and result

  /** A launch on a created launcher runs the block and launches the handle once with the input. */
  lemma LaunchLaunches(s: LauncherState<Option<Uri>>, input: Option<Uri>, block: BuilderBlock)
    requires s.launcher.Some?
    ensures var (s', outcome) := VideoLaunchStep(s, input, block);
            && outcome == Done && s'.observing == s.observing
            && s'.builder == ApplyBlock(s.builder, block)
            && s'.launcher.value.launches == s.launcher.value.launches + [input]
            && s'.launcher.value.unregistered == s.launcher.value.unregistered
  {
  }

  /** A launch before ON_CREATE throws, but only after the block has changed the builder. */
  lemma LaunchBeforeCreate(s: LauncherState<Option<Uri>>, input: Option<Uri>, block: BuilderBlock)
    requires s.launcher.None?
    ensures VideoLaunchStep(s, input, block) == (s.(builder := ApplyBlock(s.builder, block)), Thrown(UninitializedProperty))
  {
  }

  /**
   * The builder is shared by all launches: a callback the later block does not assign is the
   * one an earlier block assigned, and what the later block assigns wins.
   */
  lemma BuilderCarriesOver(b: ResultBuilder, first: BuilderBlock, second: BuilderBlock)
    ensures var r := ApplyBlock(ApplyBlock(b, first), second);
            && r.success == (if second.setSuccess.Some? then second.setSuccess
                             else if first.setSuccess.Some? then first.setSuccess else b.success)
            && r.failed == (if second.setFailed.Some? then second.setFailed
                            else if first.setFailed.Some? then first.setFailed else b.failed)
  {
  }

  /**
   * A result calls at most one callback: `success` with the URI when there is one, `failed`
   * with `ContentNotLoadedOrCancelled` when there is none; unset callbacks call nothing.
   */
  lemma DispatchExactlyOne(b: ResultBuilder, result: Option<Uri>)
    ensures var d := Dispatch(b, result);
            && |d| <= 1
            && (forall c :: c in d ==> (c.Succeeded? <==> result.Some?))
            && (result.Some? && b.success.Some? ==> d == [Succeeded(b.success.value, result.value)])
            && (result.None? && b.failed.Some? ==> d == [FailedWith(b.failed.value, ContentNotLoadedOrCancelled)])
            && (d == [] <==> (result.Some? && b.success.None?) || (result.None? && b.failed.None?))
  {
  }

  /**
   * End to end for a video launched with output URI `u`: the contract parses the result
   * into `u` when the code is OK and into null otherwise, so `success(u)` or `failed` runs.
   */
  lemma VideoEndToEnd(b: ResultBuilder, u: Uri, resultCode: int, intent: Option<ResultIntent>)
    ensures Dispatch(b, VideoOutcome(resultCode, Some(u), intent))
            == (if resultCode == RESULT_OK then (if b.success.Some? then [Succeeded(b.success.value, u)] else [])
                else (if b.failed.Some? then [FailedWith(b.failed.value, ContentNotLoadedOrCancelled)] else []))
  {
  }
}
