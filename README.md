# activityresult: permission requests and camera result launchers

This project models the core of the `activityresult` Android libraries in Dafny.

The permission library (`arpermission`) has four parts:

- **`Permissions`** classifies the result of a multiple-permission request. The denied
  permissions, in result order, are split by `shouldShowRequestPermissionRationale` into a
  `DENIED` group and an `EXPLAINED` group. Each group's callback runs when the group is
  non-empty, and `allGranted` runs when nothing was denied.
- **`Request`** (`PermissionRequest`) is a lifecycle observer. It has a `lateinit` handle
  and three nullable callback slots. `launch` drops the `ConditionalPermission`s whose
  condition is false. It grants at once when nothing remains; otherwise it overwrites the
  slots and launches the handle. `requestFinished` empties the slots.
- **`Manager`** (`PermissionManager`) is a singleton map from an entity's class to its
  handle and callback slots. The map entry is created at ON_CREATE and removed at
  ON_DESTROY. `run` for a class without an entry throws `PermissionNotBeingInitialized`.
- **`Repository`** (`PermissionRepository`) stores registrations under caller-chosen
  tokens. Each registration has a fixed permission array and registration-time
  `onDenied`/`onExplained` callbacks. Each `runWithPermission` supplies a single-shot
  `onGranted`. `release` unregisters the handle of every unit still in the map and clears
  the map.

The result library (`arresult`) has two parts:

- **`Contracts`** holds the TakePhoto and TakeVideoUri contracts. Each remembers the
  requested output URI between `createIntent` and `parseResult`.
- **`Launchers`** holds `BaseLauncher` and `TakeVideoUriLauncher`. The launch handle is
  obtained at ON_CREATE and unregistered at ON_DESTROY. One `ResultBuilder` lives as long
  as the launcher, and `onActivityResult` calls exactly one of its callbacks.

How the model is built:

- **Stateful classes.** `PermissionRequest`, `PermissionManager`, `PermissionRepository`,
  the two contracts and the two launchers are Dafny `class`es. Their fields are the
  source's fields, plus the handles and the call log the model observes.
  Each method is specified by a step function on a state datatype, and lemmas about the
  step functions relate several calls. The holders stored in the two maps,
  `PermissionCallback` and `PermissionUnit`, are datatypes: an update of a holder's field
  is a map update (see "## Left out").
- **Callbacks.** A callback is a `Handler` identity. Invoking one appends a `Call` to a
  log. A null slot, or the default `{}`, leaves no trace.
- **Launch handles.** A handle from `registerForActivityResult` is a value that records
  its launches and whether it was unregistered. `PermissionManager` and
  `PermissionRepository` keep every handle they obtained. This lets release be shown to
  unregister the handle even though the map entry is gone.
- **Deliveries.** Deliveries through a handle are modelled as events. They go to what
  each closure captured: `this`, the class key, or the token with its callbacks.

Behaviour the model makes explicit:

- **`PermissionRequest.onDestroy`** unregisters the handle but does not clear the slots.
  Reading an unassigned handle throws first, so the observer stays attached.
- **The library never unregisters a replaced handle.** `PermissionRepository.register`
  overwrites the token's unit without unregistering the handle it replaces, and `release`
  only reaches the units still in the map. So no call of the repository unregisters the
  replaced handle (`ReregisterLeaksHandle`). `PermissionManager` behaves the same way when
  one class is registered twice before ON_CREATE. Both registrations attach an observer,
  and one ON_CREATE event delivered to both observers makes the second overwrite the
  first entry. Its ON_DESTROY handlers then unregister only the second handle
  (`EarlyReregisterLeaksHandle`). A repeated `PermissionRequest.register` likewise
  replaces the `lateinit` handle without unregistering the earlier one
  (PermissionRequest.kt:41-75). The model discards that earlier handle and does not track
  it. The activity-result registry still unregisters all of these handles at the
  owner's ON_DESTROY (see "## Left out").
- **`PermissionRepository`** delivers to the token's current unit. A re-registration
  under the same token therefore receives the grants of earlier handles.
- **`TakePhotoContract.createIntent(null)`** does not clear the URI remembered by an
  earlier `createIntent(u)` whose result was never parsed. The next result is then
  `FullSized(u)`, not `Preview`, although the class comment ties `Preview` to a null
  input (`PhotoKeepsUnparsedUri`). `TakeVideoUriContract` always overwrites its field.

The contracts and lemmas below are stated through a few specification functions. Each
models one piece of source code:

- `Permissions.Classify` and `Permissions.GroupEvents` model the result callback
  (Permissions.kt:16-37). `Permissions.DeniedList` models line 17, `Permissions.Select`
  and `Permissions.GroupBy` model the `groupBy` of lines 20-25, and `Permissions.Bucket`
  models its key selector (lines 21-24).
- `Request.Kept` and `Request.Requested` model the filtering loop of
  `PermissionRequest.launch` (PermissionRequest.kt:103-108).
- `Contracts.PhotoOutcome` models `TakePhotoContract.parseResult` (TakePhotoContract.kt:38-48).
  `Contracts.PhotoRemember` models lines 24-31 of the same file.
- `Contracts.VideoOutcome` models `TakeVideoUriContract.parseResult` (TakeVideoUriContract.kt:31-37).
- `Launchers.ApplyBlock` models `resultBuilder.callbackBuilder()` (TakeVideoUriLauncher.kt:11).
  `Launchers.Dispatch` models `TakeVideoUriLauncher.onActivityResult` (TakeVideoUriLauncher.kt:15-20).
- The `...Step` functions of each module model the method of the same name.

## Model

| member | source | states |
|---|---|---|
| Permissions.Keys | arpermission/src/main/java/io/github/khoben/arpermission/permission/Permissions.kt:17 | one key per result entry, in result order |
| Permissions.DeniedListMember | arpermission/src/main/java/io/github/khoben/arpermission/permission/Permissions.kt:17 | a permission is in the denied list iff some result entry for it has value false |
| Permissions.DeniedListOrder | arpermission/src/main/java/io/github/khoben/arpermission/permission/Permissions.kt:17-19 | the denied list keeps the result's order (a subsequence of the keys) and is empty iff every entry is granted |
| Permissions.SelectMember | arpermission/src/main/java/io/github/khoben/arpermission/permission/Permissions.kt:20-25 | an element is in a `groupBy` group iff it is in the list and its key is the group's |
| Permissions.SelectOrder | arpermission/src/main/java/io/github/khoben/arpermission/permission/Permissions.kt:20-25 | each group keeps the list's order |
| Permissions.SelectAppend | arpermission/src/main/java/io/github/khoben/arpermission/permission/Permissions.kt:20-25 | appending an element adds it to the end of its own group only |
| Permissions.GroupByGroups | arpermission/src/main/java/io/github/khoben/arpermission/permission/Permissions.kt:20-25 | `groupBy` has a key iff some element maps to it, and that key's list is exactly those elements in order |
| Permissions.BucketSelect | arpermission/src/main/java/io/github/khoben/arpermission/permission/Permissions.kt:20-25 | the `DENIED` group holds the permissions that should show a rationale, and the `EXPLAINED` group holds the others |
| Permissions.SelectPartition | arpermission/src/main/java/io/github/khoben/arpermission/permission/Permissions.kt:20-25 | the two groups of a two-way split together are a permutation of the list |
| Permissions.RationaleSplit | arpermission/src/main/java/io/github/khoben/arpermission/permission/Permissions.kt:20-31 | the rationale split is a partition: disjoint by rationale, covering, each part in order |
| Permissions.RationaleGroups | arpermission/src/main/java/io/github/khoben/arpermission/permission/Permissions.kt:20-31 | the rationale `groupBy` has a `DENIED` key iff some denied permission shows a rationale, and that group is exactly those permissions in order; the same holds for `EXPLAINED` and the others; together the two groups have as many entries as the denied list |
| Permissions.GroupEventsNotGranted | arpermission/src/main/java/io/github/khoben/arpermission/permission/Permissions.kt:26-31 | the `map[DENIED]` / `map[EXPLAINED]` branch never calls `allGranted` |
| Permissions.ClassifyAllGranted | arpermission/src/main/java/io/github/khoben/arpermission/permission/Permissions.kt:18-35 | `allGranted` is the one callback, and runs at all, iff every permission is granted |
| Permissions.ClassifyDenied | arpermission/src/main/java/io/github/khoben/arpermission/permission/Permissions.kt:19-31 | with a denial: `denied(shown)` if non-empty, then `explained(hidden)` if non-empty; one or two callbacks; never `allGranted` |
| Permissions.GrantedScenario | arpermission/src/main/java/io/github/khoben/arpermission/permission/Permissions.kt:16-37 | an illustration of `ClassifyAllGranted`: granting CAMERA alone yields only `allGranted` |
| Permissions.ExplainedScenario | arpermission/src/main/java/io/github/khoben/arpermission/permission/Permissions.kt:16-37 | an illustration of `ClassifyDenied`: denying CAMERA and WRITE_EXTERNAL_STORAGE with no rationale yields only `explained` with both, in order |
| Request.Names | arpermission/src/main/java/io/github/khoben/arpermission/PermissionRequest.kt:103-108 | the string of each `launch` argument, in argument order |
| Request.PermissionRequest.constructor | arpermission/src/main/java/io/github/khoben/arpermission/PermissionRequest.kt:12-18 | no handle, not observing, all three slots null |
| Request.PermissionRequest.Register | arpermission/src/main/java/io/github/khoben/arpermission/PermissionRequest.kt:28-76 | throws `IllegalState` at STARTED or later; otherwise observes and, for an activity or fragment, assigns a new handle |
| Request.PermissionRequest.Launch | arpermission/src/main/java/io/github/khoben/arpermission/PermissionRequest.kt:93-119 | throws `IllegalState` without a handle; the loop builds exactly the kept permissions; an empty list grants at once, otherwise the slots are overwritten and the list launched |
| Request.PermissionRequest.DeliverGranted | arpermission/src/main/java/io/github/khoben/arpermission/PermissionRequest.kt:43-45 | invokes the current `onGranted` slot, if any |
| Request.PermissionRequest.DeliverDenied | arpermission/src/main/java/io/github/khoben/arpermission/PermissionRequest.kt:46-48 | invokes the current `onDenied` slot with the list and the cancelled flag |
| Request.PermissionRequest.DeliverExplained | arpermission/src/main/java/io/github/khoben/arpermission/PermissionRequest.kt:49-51 | invokes the current `onExplained` slot with the list |
| Request.PermissionRequest.RequestFinished | arpermission/src/main/java/io/github/khoben/arpermission/PermissionRequest.kt:52-56 | sets all three slots to null |
| Request.PermissionRequest.OnDestroy | arpermission/src/main/java/io/github/khoben/arpermission/PermissionRequest.kt:78-81 | unregisters the handle and detaches; without a handle throws `UninitializedProperty` |
| Request.RequestedAppend | arpermission/src/main/java/io/github/khoben/arpermission/PermissionRequest.kt:103-108 | one more argument adds its string at the end exactly when it is kept |
| Request.RequestedMember | arpermission/src/main/java/io/github/khoben/arpermission/PermissionRequest.kt:103-108 | a string is requested iff some kept argument has it |
| Request.RequestedOrder | arpermission/src/main/java/io/github/khoben/arpermission/PermissionRequest.kt:103-108 | the request keeps argument order, and equals all arguments when none is a false condition |
| Request.RegisterGuard | arpermission/src/main/java/io/github/khoben/arpermission/PermissionRequest.kt:32-74 | throws iff the owner is at least STARTED, and then nothing changes; otherwise slots and log are kept |
| Request.LaunchUnregistered | arpermission/src/main/java/io/github/khoben/arpermission/PermissionRequest.kt:99-101 | `launch` before a handle is assigned throws `IllegalState` and changes nothing |
| Request.LaunchAfterRegister | arpermission/src/main/java/io/github/khoben/arpermission/PermissionRequest.kt:32-101 | a fresh request can launch iff it was registered before STARTED on an activity or a fragment |
| Request.LaunchNothingGrants | arpermission/src/main/java/io/github/khoben/arpermission/PermissionRequest.kt:110-113 | an empty request runs the given `onGranted` once and launches nothing |
| Request.LaunchOverwrites | arpermission/src/main/java/io/github/khoben/arpermission/PermissionRequest.kt:115-118 | a non-empty request sets all three slots, null ones included, and launches the kept list once |
| Request.LastWriteWins | arpermission/src/main/java/io/github/khoben/arpermission/PermissionRequest.kt:115-118 | after two launches a grant reaches only the second `onGranted`; both lists were launched in order |
| Request.DeliveryUsesItsSlot | arpermission/src/main/java/io/github/khoben/arpermission/PermissionRequest.kt:43-51 | each delivery invokes only its own slot and changes no slot |
| Request.FinishedSilencesDeliveries | arpermission/src/main/java/io/github/khoben/arpermission/PermissionRequest.kt:52-56 | after `requestFinished` no delivery has any effect |
| Request.DestroyUnregisters | arpermission/src/main/java/io/github/khoben/arpermission/PermissionRequest.kt:78-81 | destroy unregisters and detaches and keeps the slots; without a handle it throws and changes nothing |
| Manager.PermissionManager.constructor | arpermission/src/main/java/io/github/khoben/arpermission/PermissionManager.kt:20 | the map starts empty |
| Manager.PermissionManager.RegisterPermissionRequest | arpermission/src/main/java/io/github/khoben/arpermission/PermissionManager.kt:71-163 | warns for a class with an entry; attaches an observer for an activity or fragment; otherwise throws `IllegalRegisterEntity`; keeps the map consistent |
| Manager.PermissionManager.OnCreate | arpermission/src/main/java/io/github/khoben/arpermission/PermissionManager.kt:85-111 | obtains a new handle and stores an entry with null slots under the class |
| Manager.PermissionManager.OnDestroy | arpermission/src/main/java/io/github/khoben/arpermission/PermissionManager.kt:114-118 | detaches the observer and releases the class |
| Manager.PermissionManager.Run | arpermission/src/main/java/io/github/khoben/arpermission/PermissionManager.kt:214-231 | throws `PermissionNotBeingInitialized` without an entry; otherwise overwrites the slots and launches |
| Manager.PermissionManager.ReleasePermissions | arpermission/src/main/java/io/github/khoben/arpermission/PermissionManager.kt:251-259 | unregisters the entry's handle and removes the entry |
| Manager.PermissionManager.DeliverGranted | arpermission/src/main/java/io/github/khoben/arpermission/PermissionManager.kt:94-98 | invokes the class entry's `onGranted`, if any; keeps the map consistent |
| Manager.PermissionManager.DeliverDenied | arpermission/src/main/java/io/github/khoben/arpermission/PermissionManager.kt:99-103 | invokes the class entry's `onDenied` with the list and flag; keeps the map consistent |
| Manager.PermissionManager.DeliverExplained | arpermission/src/main/java/io/github/khoben/arpermission/PermissionManager.kt:104-108 | invokes the class entry's `onExplained` with the list; keeps the map consistent |
| Manager.PermissionManager.PermissionsProcessed | arpermission/src/main/java/io/github/khoben/arpermission/PermissionManager.kt:87-93 | sets the class entry's three slots to null; keeps the map consistent |
| Manager.CreateKeepsConsistent | arpermission/src/main/java/io/github/khoben/arpermission/PermissionManager.kt:109-111 | ON_CREATE keeps every entry pointing at a live handle of its own class |
| Manager.ReleaseKeepsConsistent | arpermission/src/main/java/io/github/khoben/arpermission/PermissionManager.kt:251-259 | release keeps that invariant |
| Manager.RunKeepsConsistent | arpermission/src/main/java/io/github/khoben/arpermission/PermissionManager.kt:221-230 | `run` keeps that invariant |
| Manager.RegisterIdempotent | arpermission/src/main/java/io/github/khoben/arpermission/PermissionManager.kt:72-78 | registering a class with an entry only warns; a non-activity, non-fragment throws; no entry is made |
| Manager.CreateMakesEntry | arpermission/src/main/java/io/github/khoben/arpermission/PermissionManager.kt:109-111 | ON_CREATE gives the class a fresh handle with null slots and leaves other entries and handles alone |
| Manager.SameClassSharesEntry | arpermission/src/main/java/io/github/khoben/arpermission/PermissionManager.kt:72-78 | a corollary of `RegisterIdempotent`, kept as an illustration: once a class has an entry, any further registration of it is a warning |
| Manager.RunUnregistered | arpermission/src/main/java/io/github/khoben/arpermission/PermissionManager.kt:221-223 | `run` without an entry throws and changes nothing |
| Manager.RunOverwrites | arpermission/src/main/java/io/github/khoben/arpermission/PermissionManager.kt:225-228 | `run` overwrites all three slots and launches only that class's handle with the permissions |
| Manager.DeliveryUsesEntry | arpermission/src/main/java/io/github/khoben/arpermission/PermissionManager.kt:94-108 | a delivery invokes only the matching slot of the entry its class key names |
| Manager.ProcessedSilencesDeliveries | arpermission/src/main/java/io/github/khoben/arpermission/PermissionManager.kt:87-93 | after `permissionsProcessed` every delivery for that class is silent |
| Manager.ReleaseFrame | arpermission/src/main/java/io/github/khoben/arpermission/PermissionManager.kt:251-259 | release removes only its key and unregisters only its handle |
| Manager.EarlyReregisterLeaksHandle | arpermission/src/main/java/io/github/khoben/arpermission/PermissionManager.kt:72-82 | two registrations of a class before ON_CREATE both attach observers; after one ON_CREATE event delivered to both observers and the ON_DESTROY handlers, the manager has never unregistered the first handle, the second is unregistered and the entry is gone |
| Manager.DestroySilencesLateDeliveries | arpermission/src/main/java/io/github/khoben/arpermission/PermissionManager.kt:114-118 | after ON_DESTROY, late deliveries through that class's handles have no effect |
| Repository.PermissionRepository.constructor | arpermission/src/main/java/io/github/khoben/arpermission/PermissionRepository.kt:13-33 | empty map, no observer |
| Repository.PermissionRepository.WithLifecycle | arpermission/src/main/java/io/github/khoben/arpermission/PermissionRepository.kt:14-22 | empty map with an ON_DESTROY observer attached |
| Repository.PermissionRepository.Register | arpermission/src/main/java/io/github/khoben/arpermission/PermissionRepository.kt:44-87 | stores the token's unit on a new handle; a detached fragment throws `IllegalState`; keeps the invariant |
| Repository.PermissionRepository.RunWithPermission | arpermission/src/main/java/io/github/khoben/arpermission/PermissionRepository.kt:96-101 | sets the token's `onGranted` and launches its stored permissions; unknown tokens do nothing |
| Repository.PermissionRepository.Release | arpermission/src/main/java/io/github/khoben/arpermission/PermissionRepository.kt:106-111 | the loop unregisters every unit's handle, then the map is cleared |
| Repository.PermissionRepository.OnDestroy | arpermission/src/main/java/io/github/khoben/arpermission/PermissionRepository.kt:16-20 | detaches, then releases |
| Repository.PermissionRepository.DeliverGranted | arpermission/src/main/java/io/github/khoben/arpermission/PermissionRepository.kt:52-57 | invokes the token's current `onGranted` and clears it |
| Repository.PermissionRepository.DeliverDenied | arpermission/src/main/java/io/github/khoben/arpermission/PermissionRepository.kt:58-60 | invokes the registration's `onDenied`; keeps the map consistent |
| Repository.PermissionRepository.DeliverExplained | arpermission/src/main/java/io/github/khoben/arpermission/PermissionRepository.kt:61-63 | invokes the registration's `onExplained`; keeps the map consistent |
| Repository.RegisterKeepsConsistent | arpermission/src/main/java/io/github/khoben/arpermission/PermissionRepository.kt:64-69 | registering keeps every unit pointing at a live handle of its own token |
| Repository.RunKeepsConsistent | arpermission/src/main/java/io/github/khoben/arpermission/PermissionRepository.kt:97-100 | `runWithPermission` keeps that invariant |
| Repository.RegisterStores | arpermission/src/main/java/io/github/khoben/arpermission/PermissionRepository.kt:64-69 | the token maps to a new handle with the permissions and null `onGranted`; other tokens unchanged |
| Repository.FragmentRegistersOnActivity | arpermission/src/main/java/io/github/khoben/arpermission/PermissionRepository.kt:81-87 | a fragment registers on its activity; an unattached fragment throws `IllegalState` and changes nothing |
| Repository.RunUnknownToken | arpermission/src/main/java/io/github/khoben/arpermission/PermissionRepository.kt:97 | an unknown token changes nothing |
| Repository.RunLaunchesStored | arpermission/src/main/java/io/github/khoben/arpermission/PermissionRepository.kt:97-100 | a known token gets the new `onGranted`, and only its handle is launched, once, with the stored array |
| Repository.GrantedSingleShot | arpermission/src/main/java/io/github/khoben/arpermission/PermissionRepository.kt:52-57 | a grant invokes the current `onGranted` and clears it, so a second grant invokes nothing |
| Repository.RunThenGranted | arpermission/src/main/java/io/github/khoben/arpermission/PermissionRepository.kt:52-100 | run then grant invokes that run's `onGranted` exactly once, even if the grant repeats |
| Repository.DeniedKeepsGranted | arpermission/src/main/java/io/github/khoben/arpermission/PermissionRepository.kt:58-63 | denied and explained invoke the registration-time callbacks and leave `onGranted` in place |
| Repository.ReleaseEmpties | arpermission/src/main/java/io/github/khoben/arpermission/PermissionRepository.kt:106-111 | the map ends empty; every unit's handle is unregistered; other handles and all launch histories are kept |
| Repository.ReregisterLeaksHandle | arpermission/src/main/java/io/github/khoben/arpermission/PermissionRepository.kt:64-69 | after registering a token again and then releasing, the library has never unregistered the replaced handle (it is unchanged); the new one is unregistered and the map is empty |
| Repository.DestroyReleases | arpermission/src/main/java/io/github/khoben/arpermission/PermissionRepository.kt:14-22 | ON_DESTROY detaches and leaves the map empty |
| Contracts.TakePhotoContract.constructor | arresult/src/main/java/io/github/khoben/arresult/contract/TakePhotoContract.kt:22 | no URI remembered |
| Contracts.TakePhotoContract.CreateIntent | arresult/src/main/java/io/github/khoben/arresult/contract/TakePhotoContract.kt:24-31 | an IMAGE_CAPTURE intent with the input as output; the input is remembered only when given |
| Contracts.TakePhotoContract.GetSynchronousResult | arresult/src/main/java/io/github/khoben/arresult/contract/TakePhotoContract.kt:33-36 | never a synchronous result |
| Contracts.TakePhotoContract.ParseResult | arresult/src/main/java/io/github/khoben/arresult/contract/TakePhotoContract.kt:38-48 | decides from the remembered URI, then forgets it |
| Contracts.PhotoOutcomeTable | arresult/src/main/java/io/github/khoben/arresult/contract/TakePhotoContract.kt:42-47 | some result iff OK and a URI or preview exists; `FullSized` iff OK with a URI, carrying it; `Preview` only without a URI |
| Contracts.PhotoRoundTrip | arresult/src/main/java/io/github/khoben/arresult/contract/TakePhotoContract.kt:24-47 | after `createIntent(u)`, an OK result is `FullSized(u)` and any other code gives null |
| Contracts.PhotoPreviewOnly | arresult/src/main/java/io/github/khoben/arresult/contract/TakePhotoContract.kt:24-47 | without any URI, an OK result is the intent's preview, or null |
| Contracts.PhotoKeepsUnparsedUri | arresult/src/main/java/io/github/khoben/arresult/contract/TakePhotoContract.kt:24-47 | an unparsed earlier URI outlives `createIntent(null)` and wins over a preview |
| Contracts.TakeVideoUriContract.constructor | arresult/src/main/java/io/github/khoben/arresult/contract/TakeVideoUriContract.kt:15 | no URI remembered |
| Contracts.TakeVideoUriContract.CreateIntent | arresult/src/main/java/io/github/khoben/arresult/contract/TakeVideoUriContract.kt:17-24 | a VIDEO_CAPTURE intent; the input, null included, is remembered |
| Contracts.TakeVideoUriContract.GetSynchronousResult | arresult/src/main/java/io/github/khoben/arresult/contract/TakeVideoUriContract.kt:26-29 | never a synchronous result |
| Contracts.TakeVideoUriContract.ParseResult | arresult/src/main/java/io/github/khoben/arresult/contract/TakeVideoUriContract.kt:31-37 | the result the video table gives, without changing the contract |
| Contracts.VideoOutcomeTable | arresult/src/main/java/io/github/khoben/arresult/contract/TakeVideoUriContract.kt:32-36 | some URI iff OK and a remembered or intent URI exists; the remembered one wins |
| Contracts.VideoRoundTrip | arresult/src/main/java/io/github/khoben/arresult/contract/TakeVideoUriContract.kt:17-37 | with input `u`, OK gives `u`; without input, OK gives the intent's data |
| Launchers.BaseLauncher.constructor | arresult/src/main/java/io/github/khoben/arresult/launcher/BaseLauncher.kt:16-17 | default builder, no handle, not observing |
| Launchers.BaseLauncher.Register | arresult/src/main/java/io/github/khoben/arresult/launcher/BaseLauncher.kt:32-34 | attaches the launcher as observer |
| Launchers.BaseLauncher.OnCreate | arresult/src/main/java/io/github/khoben/arresult/launcher/BaseLauncher.kt:36-42 | assigns a new handle only for an activity or a fragment |
| Launchers.BaseLauncher.OnDestroy | arresult/src/main/java/io/github/khoben/arresult/launcher/BaseLauncher.kt:44-47 | detaches, then unregisters; without a handle throws `UninitializedProperty` |
| Launchers.BaseLauncher.OnActivityResult | arresult/src/main/java/io/github/khoben/arresult/launcher/BaseLauncher.kt:49 | the default result callback has no effect |
| Launchers.TakeVideoUriLauncher.constructor | arresult/src/main/java/io/github/khoben/arresult/launcher/TakeVideoUriLauncher.kt:8 | a fresh base launcher, nothing delivered |
| Launchers.TakeVideoUriLauncher.Launch | arresult/src/main/java/io/github/khoben/arresult/launcher/TakeVideoUriLauncher.kt:10-13 | applies the block to the builder, then launches with the input or throws `UninitializedProperty` |
| Launchers.TakeVideoUriLauncher.LaunchNoInput | arresult/src/main/java/io/github/khoben/arresult/launcher/BaseLauncher.kt:27 | the same launch with a null input |
| Launchers.TakeVideoUriLauncher.OnActivityResult | arresult/src/main/java/io/github/khoben/arresult/launcher/TakeVideoUriLauncher.kt:15-20 | calls `success` with the URI, or `failed` with `ContentNotLoadedOrCancelled` on null |
| Launchers.CreateNeedsActivityOrFragment | arresult/src/main/java/io/github/khoben/arresult/launcher/BaseLauncher.kt:36-47 | `register` assigns no handle; after ON_CREATE a handle exists iff the owner is an activity or fragment; otherwise launch and destroy both throw |
| Launchers.DestroyDetaches | arresult/src/main/java/io/github/khoben/arresult/launcher/BaseLauncher.kt:44-47 | destroy always detaches, succeeds iff there is a handle, and keeps the launch history |
| Launchers.LaunchLaunches | arresult/src/main/java/io/github/khoben/arresult/launcher/TakeVideoUriLauncher.kt:10-13 | with a handle: block applied and the input launched once |
| Launchers.LaunchBeforeCreate | arresult/src/main/java/io/github/khoben/arresult/launcher/TakeVideoUriLauncher.kt:10-13 | without a handle the block still changes the builder before the throw |
| Launchers.BuilderCarriesOver | arresult/src/main/java/io/github/khoben/arresult/launcher/TakeVideoUriLauncher.kt:11 | callbacks a later block does not assign are those an earlier block assigned |
| Launchers.DispatchExactlyOne | arresult/src/main/java/io/github/khoben/arresult/launcher/TakeVideoUriLauncher.kt:15-20 | at most one callback, `success` iff there is a URI; nothing only when that callback is unset |
| Launchers.VideoEndToEnd | arresult/src/main/java/io/github/khoben/arresult/contract/TakeVideoUriContract.kt:31-37 | a video launched with `u` ends in `success(u)` on OK and in `failed` otherwise |

## Left out

- The Android platform is not modelled. That covers the activity-result registry, the
  permission dialog, the camera application and lifecycle event dispatch. Results,
  lifecycle events and owner kinds enter as parameters.
- The registry's own unregistration of a handle when the owner's lifecycle reaches
  ON_DESTROY is not modelled. The model's `unregistered` flag records only the library's
  calls to `unregister`. In the running program the handle that `EarlyReregisterLeaksHandle`
  shows as never unregistered by the manager does not outlive an ON_DESTROY of the
  entity's own lifecycle. The replaced handle of `ReregisterLeaksHandle` stays
  registered after `release` only until the activity's ON_DESTROY. A handle discarded
  by a repeated `PermissionRequest.register` is not tracked at all.
- `shouldShowRequestPermissionRationale` is a parameter function of the classifier.
- The classifier is not wired to the three permission holders. Their handles come from
  the `requestPermissions`/`registerPermissions` builders, which are not part of this
  model, so deliveries into them are separate events.
- The public overloads of `PermissionManager` (`hasRuntimePermissions`, the two `run`,
  the two `release`) compute `entity::class` and then call the private functions. The
  `hasRuntimePermissions` overloads also choose the lifecycle to observe: the given one,
  or else `activity.lifecycle` or `fragment.lifecycle` (PermissionManager.kt:47 and 68).
  The model takes the class key as a parameter. It does not model which lifecycle is
  observed: the events of that lifecycle are the calls `OnCreate` and `OnDestroy`.
- `PermissionCallback` (the manager's map value) and `PermissionUnit` (the repository's
  map value) are mutable holders in the source. The model makes them values reached
  through the map, so an update of one of their fields is a map update. For example,
  `PermissionRepository`'s `allGranted` closure invokes `onGranted` and then sets it to
  null on the object it looked up (PermissionRepository.kt:53-56). The model treats
  callbacks as not re-entrant, so a callback cannot see or change the holder while it
  runs, and the in-place update cannot be told apart from the map update.
- The `Log.w` message of a repeated registration is left out; the warning is the
  `Warned` outcome. Exception messages are left out too.
- `@Synchronized` on `run` and `runWithPermission` is left out, because the model has no
  concurrency.
- `lateinit` reads of an unassigned handle are the outcome `Thrown(UninitializedProperty)`.
  The handle's own misuse errors are left out, for example launching an unregistered
  handle, or registering after STARTED inside `BaseLauncher.onCreate`.
- `TakePhotoLauncher` and `GetContentUriLauncher` add nothing to `BaseLauncher` that the
  model could capture, so they are covered by `BaseLauncher`.
- The `ResultBuilder` block is just the two callbacks it assigns.
- The `Any?` input of `TakeVideoUriLauncher` is a nullable URI.
- The registry's passage from `parseResult` to `onActivityResult` is stated as the
  `VideoEndToEnd` lemma, not as a method.
- Repository.PermissionRepository.Release: the iteration order of the `HashMap` is an
  arbitrary choice in the loop. The final state does not depend on it.
