/**
 * The server-side cursor: it must know its collection, and it turns an
 * `observeChanges` call into the configuration handed to the observer
 * machinery, choosing the driver and, when redis-oplog is installed and
 * usable, wiring the shared subscription manager.
 *
 * The observer machinery (multiplexer, drivers, callbacks), the redis-oplog
 * package's own decision whether a cursor can use it, and EJSON are not part
 * of this model: the decision and the package configuration are parameters.
 */
module ServerCursors {
  import opened Common
  import opened FindCursors

  const NO_COLLECTION := "Must provide a collection"
  const NO_ID := "You can't observe a cursor without an _id"
  const NO_PUB_SUB := "Can't call observeChanges before initialising redis-oplog"

  /** The redis-oplog observer driver class. */
  const REDIS_OBSERVER_DRIVER := Handle("RedisObserverDriver")

  /** A subscription manager created for a pub/sub manager and a uid. */
  class SubscriptionManager {
    const pubSubManager: Value
    const uid: string

    constructor (pubSubManager: Value, uid: string)
      ensures this.pubSubManager == pubSubManager && this.uid == uid
    {
      this.pubSubManager := pubSubManager;
      this.uid := uid;
    }
  }

  /** The process-wide slot of `getSubManager` / `setSubManager`. */
  class SubManagerSlot {
    var current: SubscriptionManager?

    constructor ()
      ensures current == null
    {
      current := null;
    }

    /** `setSubManager`. */
    method Set(m: SubscriptionManager)
      modifies this
      ensures current == m
    {
      current := m;
    }
  }

  /** What the server knows about redis-oplog at the time of the call. */
  datatype RedisEnv = RedisEnv(
    packagePresent: bool,
    canUseRedisOplog: bool,
    pubSubManager: Value,
    managerUid: string)

  /** The redis path is taken when the package is installed and the cursor can use it. */
  predicate UsesRedis(env: RedisEnv)
  {
    env.packagePresent && env.canUseRedisOplog
  }

  /** The configuration handed to the observer machinery. `multiplexerKey`
      is what the multiplexer id is computed from: the namespace and the
      cursor description. */
  datatype ObserveConfig = ObserveConfig(
    driverClass: Value,
    transform: Transform,
    manager: Option<SubscriptionManager>,
    namespace: string,
    multiplexerKey: Description,
    ordered: Value)

  /** A projection that excludes `_id` (`_id: false` or `_id: 0`). */
  predicate HidesId(projection: Value)
  {
    projection.Obj? && "_id" in projection.fields
    && (projection.fields["_id"] == Bool(false) || projection.fields["_id"] == Num(0))
  }

  /** The error `observeChanges` raises before doing anything, if any: a
      projection without `_id` first, then redis-oplog not initialised. */
  function ObserveError(projection: Value, env: RedisEnv): (r: Option<Failure>)
    ensures HidesId(projection) ==> r == Some(PlainError(NO_ID))
    ensures !HidesId(projection) ==> (r.Some? <==> UsesRedis(env) && !Truthy(env.pubSubManager))
    ensures r.Some? ==> r.value.PlainError?
  {
    if HidesId(projection) then Some(PlainError(NO_ID))
    else if UsesRedis(env) && !Truthy(env.pubSubManager) then Some(PlainError(NO_PUB_SUB))
    else None
  }

  /** The driver class: the caller's, else the cursor's, else (on the redis
      path only) the redis observer driver. */
  function DriverClassFor(options: Option<Options>, own: Value, redis: bool): (r: Value)
    ensures Truthy(Get(options, "driverClass")) ==> r == Get(options, "driverClass")
    ensures !Truthy(Get(options, "driverClass")) && Truthy(own) ==> r == own
    ensures !Truthy(Get(options, "driverClass")) && !Truthy(own) ==>
      r == if redis then REDIS_OBSERVER_DRIVER else own
    ensures redis ==> Truthy(r)
  {
    var chosen := Or(Get(options, "driverClass"), own);
    if redis then Or(chosen, REDIS_OBSERVER_DRIVER) else chosen
  }

  /** `options?.ordered || false`. */
  function OrderedFlag(options: Option<Options>): (r: Value)
    ensures Truthy(r) <==> Truthy(Get(options, "ordered"))
    ensures !Truthy(r) ==> r == Bool(false)
  {
    Or(Get(options, "ordered"), Bool(false))
  }

  class ServerFindCursor {
    const base: FindCursor
    const collection: Value
    const observeDriverClass: Value
    /** The namespace of the underlying cursor. */
    const namespace: string

    /** What construction established. */
    ghost predicate Valid()
      reads this
    {
      && Truthy(Get(base.originalOptions.invocationOptions, "_collection"))
      && collection == Get(base.originalOptions.invocationOptions, "_collection")
      && observeDriverClass == Get(base.originalOptions.invocationOptions, "_observeDriverClass")
      && base.options == CursorOptionsOf(base.originalOptions.invocationOptions)
    }

    constructor Init(base: FindCursor, namespace: string)
      requires base.options == CursorOptionsOf(base.originalOptions.invocationOptions)
      requires Truthy(Get(base.originalOptions.invocationOptions, "_collection"))
      ensures Valid() && this.base == base && this.namespace == namespace
    {
      this.base := base;
      this.namespace := namespace;
      collection := Get(base.originalOptions.invocationOptions, "_collection");
      observeDriverClass := Get(base.originalOptions.invocationOptions, "_observeDriverClass");
    }

    /** The constructor: a cursor whose `find` options carry no collection is refused. */
    static method New(filter: Value, underlying: Value, opts: FindCursorOptions, namespace: string)
      returns (r: Result<ServerFindCursor>)
      ensures r.Err? <==> !Truthy(Get(opts.invocationOptions, "_collection"))
      ensures r.Err? ==> r.error == PlainError(NO_COLLECTION)
      ensures r.Ok? ==>
        && fresh(r.value) && fresh(r.value.base)
        && r.value.Valid()
        && r.value.base.Valid() && r.value.base.maps == []
        && r.value.base.filter == filter && r.value.base.underlying == underlying
        && r.value.base.originalOptions == opts
        && r.value.namespace == namespace
    {
      if !Truthy(Get(opts.invocationOptions, "_collection")) {
        return Err(PlainError(NO_COLLECTION));
      }
      var b := new FindCursor(filter, underlying, opts);
      var c := new ServerFindCursor.Init(b, namespace);
      r := Ok(c);
    }

    /**
     * `observeChanges`: refuses a projection without `_id`; on the redis path
     * refuses an uninitialised pub/sub manager, creates the shared
     * subscription manager on first use and reuses it afterwards; builds the
     * configuration with the chosen driver, the cursor's transform and the
     * `ordered` flag.
     */
    method ObserveChanges(options: Option<Options>, env: RedisEnv, slot: SubManagerSlot)
      returns (r: Result<ObserveConfig>)
      requires Valid()
      modifies slot
      ensures var e := ObserveError(base.CursorDescription().projection, env);
        && (e.Some? ==> r == Err(e.value) && unchanged(slot))
        && (e.None? ==> r.Ok?)
      ensures r.Ok? ==>
        && r.value.driverClass == DriverClassFor(options, observeDriverClass, UsesRedis(env))
        && r.value.transform == base.transform
        && r.value.ordered == OrderedFlag(options)
        && r.value.multiplexerKey == base.CursorDescription()
        && r.value.namespace == namespace
      ensures r.Ok? && !UsesRedis(env) ==> r.value.manager.None? && unchanged(slot)
      ensures r.Ok? && UsesRedis(env) ==>
        && slot.current != null
        && r.value.manager == Some(slot.current)
        && (old(slot.current) != null ==> slot.current == old(slot.current))
        && (old(slot.current) == null ==>
              fresh(slot.current)
              && slot.current.pubSubManager == env.pubSubManager
              && slot.current.uid == env.managerUid)
    {
      var description := base.CursorDescription();
      if HidesId(description.projection) {
        return Err(PlainError(NO_ID));
      }
      var driverClass := Or(Get(options, "driverClass"), observeDriverClass);
      var manager: Option<SubscriptionManager> := None;
      if env.packagePresent && env.canUseRedisOplog {
        driverClass := Or(Or(Get(options, "driverClass"), observeDriverClass), REDIS_OBSERVER_DRIVER);
        if !Truthy(env.pubSubManager) {
          return Err(PlainError(NO_PUB_SUB));
        }
        if slot.current == null {
          var m := new SubscriptionManager(env.pubSubManager, env.managerUid);
          slot.Set(m);
        }
        manager := Some(slot.current);
      }
      r := Ok(ObserveConfig(driverClass, base.transform, manager, namespace, description, OrderedFlag(options)));
    }

    /**
     * `clone`: a new cursor over the same filter and original options and a
     * clone of the underlying cursor. It describes the same query, so it
     * shares a multiplexer, but the `map` transforms are not carried over.
     */
    method Clone(clonedUnderlying: Value) returns (c: ServerFindCursor)
      requires Valid()
      ensures fresh(c) && fresh(c.base) && c.Valid()
      ensures c.base.filter == base.filter && c.base.originalOptions == base.originalOptions
      ensures c.base.underlying == clonedUnderlying
      ensures c.base.CursorDescription() == base.CursorDescription()
      ensures base.Valid() ==> forall x :: c.base.transform(x) == base.transform(x)
      ensures c.collection == collection && c.observeDriverClass == observeDriverClass
      ensures c.base.mapTransform.None?
    {
      var r := New(base.filter, clonedUnderlying, base.originalOptions, namespace);
      assert r.Ok?;
      c := r.value;
    }
  }

  /** Two cursors built from the same filter and `find` options describe the
      same query, whatever their transforms and map state, so their observers
      share one multiplexer key. */
  lemma SameQuerySameKey(a: ServerFindCursor, b: ServerFindCursor)
    requires a.Valid() && b.Valid()
    requires a.base.filter == b.base.filter
    requires a.base.originalOptions.invocationOptions == b.base.originalOptions.invocationOptions
    ensures a.base.CursorDescription() == b.base.CursorDescription()
  {
  }
}
