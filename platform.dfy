/**
 * The Android collaborators the libraries talk to, reduced to values: lifecycle states,
 * the kinds of lifecycle owner, the launch handle returned by `registerForActivityResult`,
 * caller-supplied callbacks and the exceptions the libraries throw.
 */
module Platform {
  import opened Optional

  /** `Lifecycle.State`, in the platform's declaration order. */
  datatype LifecycleState = Destroyed | Initialized | Created | Started | Resumed

  function Ordinal(s: LifecycleState): (r: nat)
  {
    match s
    case Destroyed => 0
    case Initialized => 1
    case Created => 2
    case Started => 3
    case Resumed => 4
  }

  /** `Lifecycle.State.isAtLeast`: compares by declaration order. */
  predicate IsAtLeast(s: LifecycleState, t: LifecycleState)
  {
    Ordinal(s) >= Ordinal(t)
  }

  /** What a lifecycle owner is an instance of. `AppCompatActivity` is a `ComponentActivity`. */
  datatype OwnerKind = AppCompatActivity | PlainComponentActivity | Fragment | OtherOwner

  predicate IsComponentActivity(k: OwnerKind)
  {
    k == AppCompatActivity || k == PlainComponentActivity
  }

  /** A lifecycle owner as seen at the moment a library method is called. */
  datatype Owner = Owner(kind: OwnerKind, state: LifecycleState)

  /**
   * A launch handle obtained from `registerForActivityResult`: the inputs it was launched
   * with, oldest first, and whether `unregister` has been called on it.
   */
  datatype Launcher<I> = Launcher(launches: seq<I>, unregistered: bool)

  function NewLauncher<I>(): (r: Launcher<I>)
  {
    Launcher([], false)
  }

  /** `ActivityResultLauncher.launch(input)`. */
  function Launch<I>(l: Launcher<I>, input: I): (r: Launcher<I>)
  {
    l.(launches := l.launches + [input])
  }

  /** `ActivityResultLauncher.unregister()`. */
  function Unregister<I>(l: Launcher<I>): (r: Launcher<I>)
  {
    l.(unregistered := true)
  }

  /** Exceptions thrown by the libraries on misuse. */
  datatype Failure =
    | IllegalState                   // a failed `check(...)` or `requireActivity()`
    | UninitializedProperty          // a `lateinit` field read before it was assigned
    | PermissionNotBeingInitialized  // `PermissionManager.run` for an unregistered class
    | IllegalRegisterEntity          // registering something that is neither an activity nor a fragment

  /** How a call returned: normally, after logging a warning, or by throwing. */
  datatype Outcome = Done | Warned | Thrown(error: Failure)

  /** The identity of a caller-supplied closure. */
  datatype Handler = Handler(id: nat)

  /** The arguments a permission callback receives. */
  datatype Payload =
    | NoArgs
    | PermissionList(permissions: seq<string>)
    | DeniedPermissions(permissions: seq<string>, cancelled: bool)

  /** One invocation of a caller-supplied closure. */
  datatype Call = Call(handler: Handler, payload: Payload)

  /** `slot?.invoke(payload)`: a null slot (or a default no-op) leaves no trace. */
  function Invoke(log: seq<Call>, slot: Option<Handler>, payload: Payload): (r: seq<Call>)
  {
    if slot.Some? then log + [Call(slot.value, payload)] else log
  }
}
