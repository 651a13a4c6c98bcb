# Omiya Games global package: verified model of its state logic

This project models the state logic of the Omiya Games "global" Unity package in Dafny and proves what that logic promises. Three parts are covered:

- **`Singleton`** (Runtime/Singleton.cs) is the one scene-persistent game object.
  - The first `Singleton` to wake up registers itself as the static `Instance`. Every later one runs the scene events on that instance and destroys its own game object.
  - `Get<T>` looks up a component by type in a per-type cache. On a miss it asks the children, and it caches only a non-null answer.
  - `CheckGenuine` settles the genuine-copy status the first time it is read.
  - `RunSingletonEvents` does two passes over the `ISingletonScript` children:
    - on the first call only, it discovers the scripts, marks each one part of the singleton and calls `SingletonAwake`;
    - on every call, it calls `SceneAwake` on each cached script.
  - `OnApplicationFocus` reports the old and new focus, records the new focus, then reports the new focus again.
- **`ComponentSingleton<T>`** (Runtime/ComponentSingleton.cs) is a lazily created, hidden, inactive holder of one component, with `Release`.
- **`SettingsHelpers`** (Editor/SettingsHelpers.cs) builds a settings asset's path and loads a settings asset, creating it if it is missing.

Files:

- `engine.dfy` (module `Engine`): the Unity objects the package touches, reduced to the state it reads or writes.
  - `GameObject` has a name, hide flags, an active flag, and two flags recording that `DontDestroyOnLoad` or `Destroy` was requested.
  - A `TypeName` identifies a C# type: two types are equal exactly when their `TypeName`s are. The short `typeof(T).Name` is a separate string.
  - A `Component` carries its type. A `ScriptableObject` carries its `ClassType`: its class and every class it derives from, so that `is T` can be asked of it.
- `singleton.dfy` (module `SingletonRuntime`): the class `Singleton` and the class `SingletonRegistry`.
  - `SingletonRegistry` holds the static `Instance`.
  - The pure functions here specify the class's methods. The lemmas prove properties that span several calls.
- `component_singleton.dfy` (module `ComponentSingletonRuntime`): the class `ComponentSingleton`. Each object stands for one closed generic type's static slot.
- `settings_helpers.dfy` (module `SettingsHelpers`): the path function, the asset database as a map from path to asset, and the load-or-create methods.

Engine queries are parameters:

- `GetComponentInChildren<T>()` is a function from a type name to a component or null.
- `GetComponentsInChildren<ISingletonScript>()` is a sequence of script instance IDs.
- `Application.genuineCheckAvailable` and `Application.genuine` are two booleans.

What the singleton does to its scripts, and the focus events it raises, are appended to its `log`. The handlers themselves are not run.

## Model

| member | source | states |
|---|---|---|
| SingletonRuntime.CachedGet | Runtime/Singleton.cs:162-181 | A cache hit returns the cached component and leaves the cache unchanged, whatever the children hold now. A miss returns what `GetComponentInChildren` answers. The cache only grows, never overwrites an entry and never holds null. A non-null result is exactly what is cached under the type afterwards. |
| SingletonRuntime.GetAll | Runtime/Singleton.cs:165-178 | A series of `Get` calls gives one answer per request. Every entry already in the cache survives the series unchanged. |
| SingletonRuntime.GetAllAnswersCachedType | Runtime/Singleton.cs:165-169 | Every request, at any point in a series, for a type already in the cache is answered with the cached component. |
| SingletonRuntime.GetAllIsMemoised | Runtime/Singleton.cs:165-177 | Memoisation: once `Get<T>` has returned a non-null component, every later `Get<T>` returns that same component, whatever the children answer by then. |
| SingletonRuntime.Singleton.Get | Runtime/Singleton.cs:158-182 | With no registered instance, `Get` returns null and changes nothing. Otherwise its result and the instance's new cache are those of `CachedGet`, and no other field of the instance changes. |
| SingletonRuntime.FirstVerdict | Runtime/Singleton.cs:289-300 | The first check gives one of three results. Check unavailable gives `VerificationNotSupported`. Available and genuine gives `IsGenuine`. Available and not genuine gives `NotGenuine`. The three are stated as if-and-only-ifs and the result is never `Unchecked`. |
| SingletonRuntime.StatusAfterCheck | Runtime/Singleton.cs:286-303 | After one access the stored status is never `Unchecked`. A status that is already settled is kept as it is. An unchecked status becomes the first verdict. |
| SingletonRuntime.StatusSettlesOnce | Runtime/Singleton.cs:286-303 | A second access keeps the status settled by the first, whatever the application reports the second time. |
| SingletonRuntime.PiracyDetectedExactly | Runtime/Singleton.cs:289-314 | Piracy is reported exactly when the check is available and the copy is not genuine. |
| SingletonRuntime.Singleton.CheckGenuine | Runtime/Singleton.cs:282-305 | The stored status becomes `StatusAfterCheck` of the old one, and that status is returned. |
| SingletonRuntime.Singleton.IsPiracyDetected | Runtime/Singleton.cs:310-316 | Runs the check, then answers true exactly when the settled status is `NotGenuine`. |
| SingletonRuntime.AwakeEventsAt | Runtime/Singleton.cs:376-381 | The first pass produces two events per script, in array order. For the k-th script they are "marked part of singleton" and then `SingletonAwake`. |
| SingletonRuntime.SceneEventsAt | Runtime/Singleton.cs:385-388 | The scene pass produces exactly one `SceneAwake` per cached script, in array order. |
| SingletonRuntime.AwakeEventsCount | Runtime/Singleton.cs:376-381 | The first pass calls `SingletonAwake` on a script once per occurrence in the array, and never calls `SceneAwake`. |
| SingletonRuntime.SceneEventsCount | Runtime/Singleton.cs:385-388 | The scene pass calls `SceneAwake` on a script once per occurrence in the array, and never calls `SingletonAwake`. |
| SingletonRuntime.CachedRunsCount | Runtime/Singleton.cs:370-388 | Once the scripts are cached, n further calls send no `SingletonAwake` and n times the script's occurrences of `SceneAwake`. |
| SingletonRuntime.RunsFromFreshCount | Runtime/Singleton.cs:367-389 | Over n ≥ 1 calls from a fresh singleton, `SingletonAwake` reaches each script of the first discovery once per occurrence. `SceneAwake` reaches it once per occurrence on every call. What the children hold on later calls is never consulted. |
| SingletonRuntime.Singleton.RunSingletonEvents | Runtime/Singleton.cs:367-389 | The cached scripts become the first discovery and then stay fixed. The log grows by the first pass (only when nothing was cached before) followed by the scene pass. |
| SingletonRuntime.FocusEventsAt | Runtime/Singleton.cs:360-365 | In a series of focus changes, change k first reports (focus left by change k-1, or the initial focus; new focus) and then reports the new focus. |
| SingletonRuntime.FocusEventsSnoc | Runtime/Singleton.cs:360-365 | One more focus change appends its own two events to the events of the series before it, with "before" being the focus that series left. |
| SingletonRuntime.Singleton.OnApplicationFocus | Runtime/Singleton.cs:360-365 | `IsAppFocused` becomes the new focus. The log grows by the before-change event (old focus, new focus) and then the after-change event (new focus). |
| SingletonRuntime.Singleton.constructor | Runtime/Singleton.cs:76-153 | A new singleton has an empty cache, no discovered scripts, status `Unchecked`, `IsAppFocused` true and an empty log. |
| SingletonRuntime.SingletonRegistry.constructor | Runtime/Singleton.cs:139-143 | `Instance` starts as null. |
| SingletonRuntime.FirstAwakeWins | Runtime/Singleton.cs:319-341 | Over any order of wake-ups, `Instance` is never replaced once set. The first singleton to wake up survives and every later one destroys itself, in arrival order. |
| SingletonRuntime.Singleton.Awake | Runtime/Singleton.cs:319-341 | With no `Instance`, the caller registers itself, runs the events and asks to be kept across scene loads. Otherwise `Instance` is unchanged, only the scene pass runs on `Instance`, and the caller's game object is destroyed. A newcomer that finds another instance keeps its own scripts, log and persistence. Either way the registered instance's cache, status and focus are unchanged, and of the caller's game object only the persistence and destroyed flags can change. |
| ComponentSingletonRuntime.ComponentSingleton.constructor | Runtime/ComponentSingleton.cs:56 | The static slot starts empty. |
| ComponentSingletonRuntime.ComponentSingleton.Instance | Runtime/ComponentSingleton.cs:65-84 | Never returns null. A full slot is returned unchanged and nothing is created. An empty slot gets a new component on a new game object, which is stored and returned. That game object carries the short name `typeof(T).Name`, is flagged `HideAndDontSave` and inactive. |
| ComponentSingletonRuntime.ComponentSingleton.Release | Runtime/ComponentSingleton.cs:89-96 | The slot ends empty. If it held a component, that component's game object is destroyed. On an empty slot it changes nothing, so a second `Release` is a no-op. |
| ComponentSingletonRuntime.InstanceIsStable | Runtime/ComponentSingleton.cs:69-82 | Two accesses with no `Release` between them return the same component and create at most one holder. |
| ComponentSingletonRuntime.ReleaseIsIdempotent | Runtime/ComponentSingleton.cs:91-95 | Releasing twice leaves the slot empty and the first holder destroyed. |
| ComponentSingletonRuntime.ReleaseThenInstanceIsFresh | Runtime/ComponentSingleton.cs:69-95 | After `Release`, the next access returns a freshly created holder with the required flags, not the released component, whose game object is destroyed. |
| SettingsHelpers.GetFullOmiyaGamesSettingsPath | Editor/SettingsHelpers.cs:64-70 | The path starts with `"Assets/Omiya Games/Settings/"` and ends with the file name. Its length is the sum of the two lengths. |
| SettingsHelpers.FullPathIsInjective | Editor/SettingsHelpers.cs:64-70 | Different file names give different asset paths. |
| SettingsHelpers.FullPathOfSuffix | Editor/SettingsHelpers.cs:57-70 | Every path inside the settings directory is the full path of the part after the directory. |
| SettingsHelpers.FolderOf | Editor/SettingsHelpers.cs:86 | The folder `CreateAsset` needs: the longest prefix of the path that ends in '/', or empty. No '/' follows it in the path. |
| SettingsHelpers.FullPathFolder | Editor/SettingsHelpers.cs:64-70 | A file name without '/' lands directly in the settings directory. |
| SettingsHelpers.FullPathFolderNested | Editor/SettingsHelpers.cs:64-70 | A file name with a '/' lands in some folder other than the settings directory. |
| SettingsHelpers.LoadAt | Editor/SettingsHelpers.cs:102 | `LoadAssetAtPath<T>`: the asset at the path is returned exactly when one is stored there and it is a T, of class T or derived from T. Otherwise the result is null. |
| SettingsHelpers.AssetDatabase.LoadAssetAtPath | Editor/SettingsHelpers.cs:102 | Returns `LoadAt` of the current store. |
| SettingsHelpers.AssetDatabase.CreateAsset | Editor/SettingsHelpers.cs:86 | If the path names a file (it is not empty and does not end in '/') and its folder exists, the asset is stored at the path, replacing any asset there. Otherwise creation fails, which it reports, and the store is unchanged. |
| SettingsHelpers.CreateOmiyaGamesSettings | Editor/SettingsHelpers.cs:78-91 | Makes sure the settings directory exists and creates a new asset of the requested class. It succeeds exactly when the full path names a file whose folder exists by then: the asset is stored at the full path, returned, and saved once. Otherwise it ends with `CreateAssetFailed`, before the save, and the store is unchanged. Every other path keeps its asset either way. |
| SettingsHelpers.GetOmiyaGamesSettings | Editor/SettingsHelpers.cs:99-108 | A T already at the full path (of class T or derived from it) is returned, and the store, folders and save count are untouched. Otherwise a new asset of class T is created for that path, exactly as by `CreateOmiyaGamesSettings`, and a failed creation is passed on. A returned asset is a T, and the path afterwards loads as it. |
| SettingsHelpers.PlainNameIsStorable | Editor/SettingsHelpers.cs:64-91 | For a non-empty file name without '/', creation always succeeds: its folder is the settings directory that `CreateOmiyaGamesSettings` has just made. |
| SettingsHelpers.FolderNameIsNotStorable | Editor/SettingsHelpers.cs:64-91 | For an empty file name, or one ending in '/', the full path names a folder and creation always fails. |
| SettingsHelpers.GetOmiyaGamesSettingsTwice | Editor/SettingsHelpers.cs:99-108 | Idempotence wherever the full path names a file whose folder exists or is the settings directory: both calls return the same asset, the store differs from its start only at the full path, and at most one save happens. Where creation fails, the second call fails too and nothing is stored or saved. |

## Left out

- `Update`, `LateUpdate`, `FixedUpdate` and the five update events (Runtime/Singleton.cs:343-358) are left out. They only forward the engine's floating-point time deltas.
- The store and website links and `GetStoreLink` (Runtime/Singleton.cs:230-277) are left out. They wrap `PlatformSpecificLink` and `Helpers.ShortenUrl`, which are not part of this model.
- `IsWebApp` and `IsSimulatingMalformedGame` (Runtime/Singleton.cs:188-225) are left out. They depend only on conditional compilation and `Debug.isDebugBuild`.
- Editor/SettingsEditor.cs and Editor/SettingsPropertyDrawer.cs are left out. They are editor GUI and floating-point layout.
- Tests/Runtime/TestComponentSingleton.cs is left out. It asserts nothing.
- Unity's overloaded `== null`, under which a destroyed object equals null, is not modelled. In the model, null is only the explicit absence of an object.
- `Destroy`, `Helpers.Destroy` and `DontDestroyOnLoad` are recorded as flags on the game object. Their deferred engine effects are not simulated.
- The `as COMPONENT` cast in `Get` is not modelled. The cache entry for a type was stored by `Get` for that same type, so the cast yields that entry.
- Singleton.RunSingletonEvents: the calls on the scripts are logged rather than run. What the handlers do is outside the model.
- Singleton.OnApplicationFocus: the focus events are logged rather than raised. What their subscribers do is outside the model.
- AssetDatabase.CreateFolderRecursively only records that the settings directory exists. The parent folders that `AssetHelpers.CreateFolderRecursively` also creates are not modelled, because AssetHelpers is not part of this model.
- `AssetDatabase.SaveAssets` is counted, not performed. Disk persistence is I/O.
- AssetDatabase.CreateAsset replaces an asset already at the path. This follows Unity's documented behaviour. Through `GetOmiyaGamesSettings` it happens only when the asset at the full path is not a T, which `LoadAssetAtPath<T>` reports as null. `CreateOmiyaGamesSettings` is public, and called directly it also replaces a T already at the path.
- AssetDatabase.CreateAsset throws `UnityException` when the path names a folder or its folder does not exist. The model returns `false` for that outcome and leaves the store unchanged. The helpers do not catch the exception, so they end with `CreateAssetFailed` and skip `SaveAssets`. The exception's message is not modelled.
- AssetDatabase.LoadAssetAtPath: the class hierarchy is given as each class's set of base-class names. Interfaces and generic types are not modelled.
- A null `fileName` makes `GetFullOmiyaGamesSettingsPath` throw `NullReferenceException` at `fileName.Length` (Editor/SettingsHelpers.cs:66). Model strings cannot be null, so that path is not modelled.
- `ComponentSingleton<T>` has one static slot per closed generic type. The model gives each type its own `ComponentSingleton` object.
