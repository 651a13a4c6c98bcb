/**
 * The state logic of OmiyaGames.Global.Singleton (Runtime/Singleton.cs):
 * registering the one scene-persistent instance, the per-type cache of
 * child-component lookups, the genuine-copy check that settles once, the
 * singleton/scene wake-up events sent to the ISingletonScript children, and
 * application-focus tracking.
 *
 * Engine queries are parameters: `inChildren` stands for
 * GetComponentInChildren<T>() (a type name to a component or null), and a
 * sequence of script instance IDs for GetComponentsInChildren<ISingletonScript>().
 * Every call the singleton makes on a script, and every focus event it raises,
 * is appended to the singleton's `log`.
 */
module SingletonRuntime {
  import opened Engine

  /** Singleton.GenuineStatus. */
  datatype GenuineStatus = Unchecked | IsGenuine | NotGenuine | VerificationNotSupported

  /** The instance ID of an ISingletonScript found under the singleton. */
  type ScriptId = nat

  /** allSingletonScriptsCache: null until the scripts are first discovered. */
  datatype ScriptCache = Uncached | Cached(scripts: seq<ScriptId>)

  /** Something the singleton does to a script, or a focus event it raises. */
  datatype Event =
    | MarkedPartOfSingleton(script: ScriptId)  // script.IsPartOfSingleton = true
    | SingletonAwake(script: ScriptId)         // script.SingletonAwake()
    | SceneAwake(script: ScriptId)             // script.SceneAwake()
    | BeforeFocusChange(before: bool, after: bool)
    | AfterFocusChange(after: bool)

  // ---------------------------------------------------------------------------
  // Cached component lookup (Get<COMPONENT>)
  // ---------------------------------------------------------------------------

  /**
   * One Get<T> on a registered instance whose cache is `cache`, for the type
   * named `t`: the component returned and the cache afterwards. The cache is a
   * map to non-null components, so it can never hold null.
   */
  function CachedGet(cache: map<TypeName, Component>, t: TypeName, inChildren: TypeName -> Component?)
    : (r: (Component?, map<TypeName, Component>))
    // a hit answers from the cache and leaves it as it is, whatever the children hold now
    ensures t in cache ==> r.0 == cache[t] && r.1 == cache
    // a miss answers what the children hold
    ensures t !in cache ==> r.0 == inChildren(t)
    // the cache only grows, and never overwrites an entry
    ensures cache.Keys <= r.1.Keys <= cache.Keys + {t}
    ensures forall k :: k in cache ==> r.1[k] == cache[k]
    // what is returned is exactly what is cached afterwards
    ensures r.0 != null <==> t in r.1
    ensures r.0 != null ==> r.1[t] == r.0
  {
    if t in cache then
      (cache[t], cache)
    else
      var found := inChildren(t);
      if found != null then (found, cache[t := found]) else (null, cache)
  }

  /** A Get<T> request: the type asked for, and what GetComponentInChildren<T> answers at that moment. */
  datatype Request = Request(t: TypeName, inChildren: TypeName -> Component?)

  /** The answers to `requests`, made in order on one registered instance, and the final cache. */
  function GetAll(cache: map<TypeName, Component>, requests: seq<Request>)
    : (r: (seq<Component?>, map<TypeName, Component>))
    ensures |r.0| == |requests|
    ensures forall k :: k in cache ==> k in r.1 && r.1[k] == cache[k]
    decreases |requests|
  {
    if requests == [] then
      ([], cache)
    else
      var (first, next) := CachedGet(cache, requests[0].t, requests[0].inChildren);
      var (rest, final) := GetAll(next, requests[1..]);
      ([first] + rest, final)
  }

  /** A type already in the cache is answered from the cache by every later request for it. */
  lemma {:induction false} GetAllAnswersCachedType(cache: map<TypeName, Component>, requests: seq<Request>, i: nat)
    requires i < |requests| && requests[i].t in cache
    ensures GetAll(cache, requests).0[i] == cache[requests[i].t]
    decreases i
  {
    var (first, next) := CachedGet(cache, requests[0].t, requests[0].inChildren);
    if i > 0 {
      GetAllAnswersCachedType(next, requests[1..], i - 1);
    }
  }

  /**
   * Memoisation: once Get<T> has returned a component, every later Get<T>
   * returns that same component, whatever the children would answer by then.
   */
  lemma {:induction false} GetAllIsMemoised(cache: map<TypeName, Component>, requests: seq<Request>, i: nat, j: nat)
    requires i < j < |requests| && requests[i].t == requests[j].t
    requires GetAll(cache, requests).0[i] != null
    ensures GetAll(cache, requests).0[j] == GetAll(cache, requests).0[i]
    decreases i
  {
    var (first, next) := CachedGet(cache, requests[0].t, requests[0].inChildren);
    if i == 0 {
      GetAllAnswersCachedType(next, requests[1..], j - 1);
    } else {
      GetAllIsMemoised(next, requests[1..], i - 1, j - 1);
    }
  }

  // ---------------------------------------------------------------------------
  // Genuine check (CheckGenuine, IsPiracyDetected)
  // ---------------------------------------------------------------------------

  /**
   * The status the first check settles on, from Application.genuineCheckAvailable
   * and Application.genuine.
   */
  function FirstVerdict(checkAvailable: bool, genuine: bool): (s: GenuineStatus)
    ensures s != Unchecked
    ensures s == VerificationNotSupported <==> !checkAvailable
    ensures s == IsGenuine <==> checkAvailable && genuine
    ensures s == NotGenuine <==> checkAvailable && !genuine
  {
    if !checkAvailable then VerificationNotSupported
    else if genuine then IsGenuine
    else NotGenuine
  }

  /** The stored status after one access of CheckGenuine. */
  function StatusAfterCheck(stored: GenuineStatus, checkAvailable: bool, genuine: bool): (s: GenuineStatus)
    // the check never leaves the status unchecked
    ensures s != Unchecked
    // once settled, the status never changes again
    ensures stored != Unchecked ==> s == stored
    ensures stored == Unchecked ==> s == FirstVerdict(checkAvailable, genuine)
  {
    if stored == Unchecked then FirstVerdict(checkAvailable, genuine) else stored
  }

  /** IsPiracyDetected, on the status CheckGenuine returned. */
  predicate PiracyDetected(status: GenuineStatus): (detected: bool)
  {
    status == NotGenuine
  }

  /** Accessing the check again, whatever the application reports now, keeps the settled status. */
  lemma StatusSettlesOnce(stored: GenuineStatus, a1: bool, g1: bool, a2: bool, g2: bool)
    ensures StatusAfterCheck(StatusAfterCheck(stored, a1, g1), a2, g2) == StatusAfterCheck(stored, a1, g1)
  {
  }

  /** Piracy is reported exactly when the check was available and the copy was not genuine. */
  lemma PiracyDetectedExactly(checkAvailable: bool, genuine: bool)
    ensures PiracyDetected(StatusAfterCheck(Unchecked, checkAvailable, genuine)) <==> checkAvailable && !genuine
  {
  }

  // ---------------------------------------------------------------------------
  // Singleton and scene events (RunSingletonEvents)
  // ---------------------------------------------------------------------------

  /** The first pass: each script is marked part of the singleton and then woken, in array order. */
  function AwakeEvents(scripts: seq<ScriptId>): (events: seq<Event>)
  {
    if scripts == [] then []
    else
      var last := scripts[|scripts| - 1];
      AwakeEvents(scripts[..|scripts| - 1]) + [MarkedPartOfSingleton(last), SingletonAwake(last)]
  }

  /** The second pass: every script gets SceneAwake, in array order. */
  function SceneEvents(scripts: seq<ScriptId>): (events: seq<Event>)
  {
    if scripts == [] then []
    else SceneEvents(scripts[..|scripts| - 1]) + [SceneAwake(scripts[|scripts| - 1])]
  }

  /** The scripts cached after RunSingletonEvents: the first discovery, kept for ever after. */
  function ScriptsAfterRun(cache: ScriptCache, inChildren: seq<ScriptId>): (scripts: seq<ScriptId>)
  {
    match cache
    case Uncached => inChildren
    case Cached(scripts) => scripts
  }

  /** What one RunSingletonEvents does to the scripts. */
  function RunEvents(cache: ScriptCache, inChildren: seq<ScriptId>): (events: seq<Event>)
  {
    match cache
    case Uncached => AwakeEvents(inChildren) + SceneEvents(inChildren)
    case Cached(scripts) => SceneEvents(scripts)
  }

  lemma {:induction false} AwakeEventsAt(scripts: seq<ScriptId>, k: nat)
    requires k < |scripts|
    ensures |AwakeEvents(scripts)| == 2 * |scripts|
    ensures AwakeEvents(scripts)[2 * k] == MarkedPartOfSingleton(scripts[k])
    ensures AwakeEvents(scripts)[2 * k + 1] == SingletonAwake(scripts[k])
    decreases |scripts|
  {
    var front := scripts[..|scripts| - 1];
    AwakeEventsLength(front);
    if k < |front| {
      AwakeEventsAt(front, k);
    }
  }

  lemma {:induction false} AwakeEventsLength(scripts: seq<ScriptId>)
    ensures |AwakeEvents(scripts)| == 2 * |scripts|
    decreases |scripts|
  {
    if scripts != [] {
      AwakeEventsLength(scripts[..|scripts| - 1]);
    }
  }

  lemma {:induction false} SceneEventsAt(scripts: seq<ScriptId>, k: nat)
    requires k < |scripts|
    ensures |SceneEvents(scripts)| == |scripts|
    ensures SceneEvents(scripts)[k] == SceneAwake(scripts[k])
    decreases |scripts|
  {
    var front := scripts[..|scripts| - 1];
    SceneEventsLength(front);
    if k < |front| {
      SceneEventsAt(front, k);
    }
  }

  lemma {:induction false} SceneEventsLength(scripts: seq<ScriptId>)
    ensures |SceneEvents(scripts)| == |scripts|
    decreases |scripts|
  {
    if scripts != [] {
      SceneEventsLength(scripts[..|scripts| - 1]);
    }
  }

  /** The wake-up pass calls SingletonAwake on a script once per time it is in the array. */
  lemma {:induction false} AwakeEventsCount(scripts: seq<ScriptId>, s: ScriptId)
    ensures multiset(AwakeEvents(scripts))[SingletonAwake(s)] == multiset(scripts)[s]
    ensures multiset(AwakeEvents(scripts))[SceneAwake(s)] == 0
    decreases |scripts|
  {
    if scripts != [] {
      var front, last := scripts[..|scripts| - 1], scripts[|scripts| - 1];
      assert scripts == front + [last];
      AwakeEventsCount(front, s);
    }
  }

  /** The scene pass calls SceneAwake on a script once per time it is in the array, and nothing else. */
  lemma {:induction false} SceneEventsCount(scripts: seq<ScriptId>, s: ScriptId)
    ensures multiset(SceneEvents(scripts))[SceneAwake(s)] == multiset(scripts)[s]
    ensures multiset(SceneEvents(scripts))[SingletonAwake(s)] == 0
    decreases |scripts|
  {
    if scripts != [] {
      var front, last := scripts[..|scripts| - 1], scripts[|scripts| - 1];
      assert scripts == front + [last];
      SceneEventsCount(front, s);
    }
  }

  /**
   * The events of consecutive RunSingletonEvents calls, starting from `cache`,
   * where call k would discover `discoveries[k]` if it looked.
   */
  function Runs(cache: ScriptCache, discoveries: seq<seq<ScriptId>>): (events: seq<Event>)
    decreases |discoveries|
  {
    if discoveries == [] then []
    else
      RunEvents(cache, discoveries[0])
        + Runs(Cached(ScriptsAfterRun(cache, discoveries[0])), discoveries[1..])
  }

  /** Calls on an already discovered array only send SceneAwake, once per call and script. */
  lemma {:induction false} CachedRunsCount(scripts: seq<ScriptId>, discoveries: seq<seq<ScriptId>>, s: ScriptId)
    ensures multiset(Runs(Cached(scripts), discoveries))[SingletonAwake(s)] == 0
    ensures multiset(Runs(Cached(scripts), discoveries))[SceneAwake(s)] == |discoveries| * multiset(scripts)[s]
    decreases |discoveries|
  {
    if discoveries != [] {
      var m := multiset(scripts)[s];
      var rest := Runs(Cached(scripts), discoveries[1..]);
      CachedRunsCount(scripts, discoveries[1..], s);
      SceneEventsCount(scripts, s);
      assert Runs(Cached(scripts), discoveries) == SceneEvents(scripts) + rest;
      MultiplyStep(|discoveries|, m);
    }
  }

  lemma MultiplyStep(n: nat, m: nat)
    requires n > 0
    ensures n * m == m + (n - 1) * m
  {
  }

  /**
   * Over any number of calls from a fresh singleton, SingletonAwake reaches each
   * script of the FIRST discovery once per occurrence, and SceneAwake reaches it
   * once per occurrence on every call; later discoveries are never consulted.
   */
  lemma RunsFromFreshCount(discoveries: seq<seq<ScriptId>>, s: ScriptId)
    requires discoveries != []
    ensures multiset(Runs(Uncached, discoveries))[SingletonAwake(s)] == multiset(discoveries[0])[s]
    ensures multiset(Runs(Uncached, discoveries))[SceneAwake(s)] == |discoveries| * multiset(discoveries[0])[s]
  {
    var first := discoveries[0];
    var rest := Runs(Cached(first), discoveries[1..]);
    AwakeEventsCount(first, s);
    SceneEventsCount(first, s);
    CachedRunsCount(first, discoveries[1..], s);
    assert Runs(Uncached, discoveries) == AwakeEvents(first) + SceneEvents(first) + rest;
    MultiplyStep(|discoveries|, multiset(first)[s]);
  }

  // ---------------------------------------------------------------------------
  // Focus tracking (OnApplicationFocus)
  // ---------------------------------------------------------------------------

  /** The events raised by a series of focus changes, starting with focus `before`. */
  function FocusEvents(before: bool, changes: seq<bool>): (events: seq<Event>)
    decreases |changes|
  {
    if changes == [] then
      []
    else
      [BeforeFocusChange(before, changes[0]), AfterFocusChange(changes[0])]
        + FocusEvents(changes[0], changes[1..])
  }

  /** IsAppFocused after a series of focus changes. */
  function FocusAfter(before: bool, changes: seq<bool>): (focused: bool)
  {
    if changes == [] then before else changes[|changes| - 1]
  }

  /**
   * The k-th change reports the focus left by the change before it (or the
   * initial focus) as "before", then reports its own value as "after".
   */
  lemma {:induction false} FocusEventsAt(before: bool, changes: seq<bool>, k: nat)
    requires k < |changes|
    ensures |FocusEvents(before, changes)| == 2 * |changes|
    ensures FocusEvents(before, changes)[2 * k]
         == BeforeFocusChange(FocusAfter(before, changes[..k]), changes[k])
    ensures FocusEvents(before, changes)[2 * k + 1] == AfterFocusChange(changes[k])
    decreases k
  {
    FocusEventsLength(changes[0], changes[1..]);
    if k > 0 {
      FocusEventsAt(changes[0], changes[1..], k - 1);
      assert changes[1..][..k - 1] == changes[1..k];
    }
  }

  lemma {:induction false} FocusEventsLength(before: bool, changes: seq<bool>)
    ensures |FocusEvents(before, changes)| == 2 * |changes|
    decreases |changes|
  {
    if changes != [] {
      FocusEventsLength(changes[0], changes[1..]);
    }
  }

  /** One more focus change extends the events of the series before it. */
  lemma {:induction false} FocusEventsSnoc(before: bool, changes: seq<bool>, focus: bool)
    ensures FocusEvents(before, changes + [focus])
         == FocusEvents(before, changes) + FocusEvents(FocusAfter(before, changes), [focus])
    decreases |changes|
  {
    if changes != [] {
      assert (changes + [focus])[1..] == changes[1..] + [focus];
      FocusEventsSnoc(changes[0], changes[1..], focus);
    }
  }

  // ---------------------------------------------------------------------------
  // Registration (Awake)
  // ---------------------------------------------------------------------------

  /** Singleton.Instance after `newcomer` wakes up: the first one to wake up stays. */
  function Registered(instance: Singleton?, newcomer: Singleton): (registered: Singleton)
  {
    if instance == null then newcomer else instance
  }

  /**
   * The instance after `arrivals` wake up in order, starting from `instance`,
   * and the arrivals that destroyed themselves, in order.
   */
  function AwakeAll(instance: Singleton?, arrivals: seq<Singleton>): (r: (Singleton?, seq<Singleton>))
    decreases |arrivals|
  {
    if arrivals == [] then
      (instance, [])
    else if instance == null then
      AwakeAll(Registered(instance, arrivals[0]), arrivals[1..])
    else
      var (survivor, destroyed) := AwakeAll(Registered(instance, arrivals[0]), arrivals[1..]);
      (survivor, [arrivals[0]] + destroyed)
  }

  /**
   * Once set, Instance is never replaced: the first singleton to wake up is
   * the survivor and every later one destroys itself, in order of arrival.
   */
  lemma {:induction false} FirstAwakeWins(instance: Singleton?, arrivals: seq<Singleton>)
    ensures instance != null ==> AwakeAll(instance, arrivals) == (instance, arrivals)
    ensures instance == null && arrivals != [] ==> AwakeAll(instance, arrivals) == (arrivals[0], arrivals[1..])
    ensures instance == null && arrivals == [] ==> AwakeAll(instance, arrivals) == (null, [])
    decreases |arrivals|
  {
    if arrivals != [] {
      FirstAwakeWins(Registered(instance, arrivals[0]), arrivals[1..]);
      if instance != null {
        assert [arrivals[0]] + arrivals[1..] == arrivals;
      }
    }
  }

  /** The static members of Singleton: its registered `Instance`. */
  class SingletonRegistry {
    var instance: Singleton?

    /** A registered instance has always discovered its scripts. */
    ghost predicate Valid()
      reads this, instance
    {
      instance != null ==> instance.scripts.Cached?
    }

    constructor ()
      ensures instance == null && Valid()
    {
      instance := null;
    }
  }

  /** A Singleton component on `gameObject`. */
  class Singleton {
    const gameObject: GameObject
    /** mCacheRetrievedComponent */
    var cache: map<TypeName, Component>
    /** allSingletonScriptsCache */
    var scripts: ScriptCache
    var genuineStatus: GenuineStatus
    var isAppFocused: bool
    /** Calls made on the scripts and focus events raised, oldest first. */
    var log: seq<Event>

    constructor (gameObject: GameObject)
      ensures this.gameObject == gameObject
      ensures cache == map[] && scripts == Uncached && genuineStatus == Unchecked
      ensures isAppFocused && log == []
    {
      this.gameObject := gameObject;
      cache := map[];
      scripts := Uncached;
      genuineStatus := Unchecked;
      isAppFocused := true;
      log := [];
    }

    /**
     * Get<COMPONENT>(): null, touching nothing, when no instance is
     * registered; otherwise the cached lookup on the instance.
     */
    static method Get(registry: SingletonRegistry, t: TypeName, inChildren: TypeName -> Component?)
      returns (r: Component?)
      modifies registry.instance
      ensures registry.instance == null ==> r == null
      ensures registry.instance != null ==>
        (r, registry.instance.cache) == CachedGet(old(registry.instance.cache), t, inChildren)
      ensures registry.instance != null ==>
        unchanged(registry.instance`scripts, registry.instance`genuineStatus,
                  registry.instance`isAppFocused, registry.instance`log)
    {
      r := null;
      var instance := registry.instance;
      if instance != null {
        if t in instance.cache {
          r := instance.cache[t];
        } else {
          r := inChildren(t);
          if r != null {
            instance.cache := instance.cache[t := r];
          }
        }
      }
    }

    /** CheckGenuine: settles the stored status on the first access and returns it. */
    method CheckGenuine(checkAvailable: bool, genuine: bool) returns (status: GenuineStatus)
      modifies this`genuineStatus
      ensures genuineStatus == StatusAfterCheck(old(genuineStatus), checkAvailable, genuine)
      ensures status == genuineStatus
    {
      if genuineStatus == Unchecked {
        genuineStatus := VerificationNotSupported;
        if checkAvailable {
          genuineStatus := NotGenuine;
          if genuine {
            genuineStatus := IsGenuine;
          }
        }
      }
      status := genuineStatus;
    }

    /** IsPiracyDetected: whether CheckGenuine reports a copy that is not genuine. */
    method IsPiracyDetected(checkAvailable: bool, genuine: bool) returns (detected: bool)
      modifies this`genuineStatus
      ensures genuineStatus == StatusAfterCheck(old(genuineStatus), checkAvailable, genuine)
      ensures detected <==> PiracyDetected(genuineStatus)
    {
      var status := CheckGenuine(checkAvailable, genuine);
      detected := status == NotGenuine;
    }

    /**
     * Awake: the first singleton registers itself, runs the events and is kept
     * across scene loads; a later one runs the events on the registered
     * instance and destroys its own game object.
     */
    method Awake(registry: SingletonRegistry, inChildren: seq<ScriptId>)
      requires registry.Valid()
      modifies registry, this`scripts, this`log, gameObject`persistent, gameObject`destroyed
      modifies registry.instance
      ensures registry.Valid()
      ensures registry.instance == Registered(old(registry.instance), this)
      ensures old(registry.instance) == null ==>
        && scripts == Cached(ScriptsAfterRun(old(scripts), inChildren))
        && log == old(log) + RunEvents(old(scripts), inChildren)
        && gameObject.persistent
        && gameObject.destroyed == old(gameObject.destroyed)
      ensures old(registry.instance) != null ==>
        && registry.instance.scripts == old(registry.instance.scripts)
        && registry.instance.log == old(registry.instance.log) + SceneEvents(registry.instance.scripts.scripts)
        && gameObject.destroyed
      // a newcomer that finds another instance only destroys its own game object
      ensures old(registry.instance) != null && old(registry.instance) != this ==>
        && scripts == old(scripts) && log == old(log)
        && gameObject.persistent == old(gameObject.persistent)
      // registration touches neither the component cache, the genuine status nor the focus
      ensures registry.instance.cache == old(Registered(registry.instance, this).cache)
      ensures registry.instance.genuineStatus == old(Registered(registry.instance, this).genuineStatus)
      ensures registry.instance.isAppFocused == old(Registered(registry.instance, this).isAppFocused)
    {
      if registry.instance == null {
        registry.instance := this;
        RunSingletonEvents(inChildren);
        DontDestroyOnLoad(gameObject);
      } else {
        registry.instance.RunSingletonEvents(inChildren);
        Destroy(gameObject);
      }
    }

    /** OnApplicationFocus: report the old and new focus, then record the new one. */
    method OnApplicationFocus(focus: bool)
      modifies this`isAppFocused, this`log
      ensures isAppFocused == focus
      ensures log == old(log) + FocusEvents(old(isAppFocused), [focus])
    {
      log := log + [BeforeFocusChange(isAppFocused, focus)];
      isAppFocused := focus;
      log := log + [AfterFocusChange(isAppFocused)];
    }

    /**
     * RunSingletonEvents: on the first call, discover the scripts and mark and
     * wake each one; on every call, send SceneAwake to each cached script.
     */
    method RunSingletonEvents(inChildren: seq<ScriptId>)
      modifies this`scripts, this`log
      ensures scripts == Cached(ScriptsAfterRun(old(scripts), inChildren))
      ensures log == old(log) + RunEvents(old(scripts), inChildren)
    {
      if scripts.Uncached? {
        scripts := Cached(inChildren);
        var index := 0;
        while index < |scripts.scripts|
          invariant scripts == Cached(inChildren)
          invariant 0 <= index <= |inChildren|
          invariant log == old(log) + AwakeEvents(inChildren[..index])
        {
          assert inChildren[..index + 1][..index] == inChildren[..index];
          log := log + [MarkedPartOfSingleton(scripts.scripts[index])];
          log := log + [SingletonAwake(scripts.scripts[index])];
          index := index + 1;
        }
        assert inChildren[..index] == inChildren;
      }
      ghost var afterAwake := log;
      var all := scripts.scripts;
      var index := 0;
      while index < |all|
        invariant 0 <= index <= |all|
        invariant scripts == Cached(all)
        invariant log == afterAwake + SceneEvents(all[..index])
      {
        assert all[..index + 1][..index] == all[..index];
        log := log + [SceneAwake(all[index])];
        index := index + 1;
      }
      assert all[..index] == all;
    }
  }
}
