/** The store resolvers: given an entity type, find the store that serves it.
    A store registered for the exact entity type always wins. Otherwise the
    MongoDB and Entity Framework Core resolvers check the entity against their
    base entity, close their generic store over it (memoising the closed type
    per entity type) and ask the container for that store; the core resolver
    has no fallback at all. */
module StoreResolvers {
  import opened Wrappers
  import opened TypeSystem

  datatype EntityKind = Application | Token

  const NewLine := "\n"

  /** `IOpenIddictApplicationStore<T>` / `IOpenIddictTokenStore<T>`. */
  function StoreInterface(k: EntityKind, entity: TypeRef): TypeRef
  {
    match k
    case Application => TypeRef("OpenIddict.Abstractions.IOpenIddictApplicationStore", [entity])
    case Token => TypeRef("OpenIddict.Abstractions.IOpenIddictTokenStore", [entity])
  }

  /** The resolver's type cache: entity type to closed store type. */
  type Cache = map<ClassType, TypeRef>

  /** What one `Get` call produces: the store or the exception, and the cache
      left behind for the next call. */
  datatype Resolution = Resolution(result: Result<Store, Error>, cache: Cache)

  /** `ConcurrentDictionary.GetOrAdd`, one call at a time: a cached value is
      returned without running the factory; a factory that throws adds nothing. */
  function GetOrAdd(cache: Cache, key: ClassType, factory: ClassType -> Result<TypeRef, Error>)
    : (r: (Result<TypeRef, Error>, Cache))
    ensures key in cache ==> r == (Success(cache[key]), cache)
    ensures key !in cache ==> r.0 == factory(key)
    ensures key !in cache && r.0.Failure? ==> r.1 == cache
    ensures key !in cache && r.0.Success? ==> r.1 == cache[key := r.0.value]
  {
    if key in cache then (Success(cache[key]), cache)
    else
      match factory(key)
      case Failure(e) => (Failure(e), cache)
      case Success(v) => (Success(v), cache[key := v])
  }

  // MongoDB resolvers.

  /** The MongoDB base entity, `OpenIddict.MongoDb.Models.OpenIddict<Kind>`. */
  function MongoEntity(k: EntityKind): TypeRef
  {
    match k
    case Application => Plain("OpenIddict.MongoDb.Models.OpenIddictApplication")
    case Token => Plain("OpenIddict.MongoDb.Models.OpenIddictToken")
  }

  /** `OpenIddict<Kind>Store<TEntity>` of the MongoDB stores, closed over the entity. */
  function MongoStoreType(k: EntityKind, entity: TypeRef): TypeRef
  {
    match k
    case Application => TypeRef("OpenIddict.MongoDb.OpenIddictApplicationStore", [entity])
    case Token => TypeRef("OpenIddict.MongoDb.OpenIddictTokenStore", [entity])
  }

  function MongoIncompatible(k: EntityKind): string
  {
    match k
    case Application =>
      "The specified application type is not compatible with the MongoDB stores." + NewLine
      + "When enabling the MongoDB stores, make sure you use the built-in 'OpenIddictApplication' "
      + "entity (from the 'OpenIddict.MongoDb.Models' package) or a custom entity "
      + "that inherits from the 'OpenIddictApplication' entity."
    case Token =>
      "The specified token type is not compatible with the MongoDB stores." + NewLine
      + "When enabling the MongoDB stores, make sure you use the built-in 'OpenIddictToken' "
      + "entity (from the 'OpenIddict.MongoDb.Models' package) or a custom entity "
      + "that inherits from the 'OpenIddictToken' entity."
  }

  /** The cache factory of the MongoDB resolvers: reject an entity that does not
      derive from the base entity, otherwise close the generic store over it. */
  function MongoClose(k: EntityKind, key: ClassType): (r: Result<TypeRef, Error>)
    ensures r.Success? <==> IsAssignableTo(key, MongoEntity(k))
    ensures r.Success? ==> r.value == MongoStoreType(k, key.id)
    ensures r.Failure? ==> r.error == InvalidOperation(MongoIncompatible(k))
  {
    if !IsAssignableTo(key, MongoEntity(k)) then Failure(InvalidOperation(MongoIncompatible(k)))
    else Success(MongoStoreType(k, key.id))
  }

  /** `Get<TEntity>` of the MongoDB resolvers. */
  function MongoGet(k: EntityKind, p: ServiceProvider, cache: Cache, t: ClassType): (r: Resolution)
    // A store registered for the exact type is returned; the cache is not touched.
    ensures StoreInterface(k, t.id) in p ==> r == Resolution(Success(p[StoreInterface(k, t.id)]), cache)
    // Otherwise a type that is neither cached nor derived from the base entity is refused.
    ensures StoreInterface(k, t.id) !in p && t !in cache && !IsAssignableTo(t, MongoEntity(k)) ==>
      r == Resolution(Failure(InvalidOperation(MongoIncompatible(k))), cache)
    // Otherwise the closed store comes from the container, which may throw but never gives null.
    ensures StoreInterface(k, t.id) !in p && (t in cache || IsAssignableTo(t, MongoEntity(k))) ==>
      && t in r.cache
      && r.result == GetRequiredService(p, r.cache[t])
      && (t !in cache ==> r.cache[t] == MongoStoreType(k, t.id))
    // The only cache entry ever added is the closure of a derived entity type.
    ensures r.cache == cache
         || (t !in cache && IsAssignableTo(t, MongoEntity(k)) && r.cache == cache[t := MongoStoreType(k, t.id)])
  {
    match GetService(p, StoreInterface(k, t.id))
    case Some(s) => Resolution(Success(s), cache)
    case None =>
      var (closed, cache') := GetOrAdd(cache, t, key => MongoClose(k, key));
      match closed
      case Failure(e) => Resolution(Failure(e), cache')
      case Success(ty) => Resolution(GetRequiredService(p, ty), cache')
  }

  /** Resolution stated without a cache: the reference the cached resolver must
      agree with. */
  function MongoResolve(k: EntityKind, p: ServiceProvider, t: ClassType): Result<Store, Error>
  {
    if StoreInterface(k, t.id) in p then Success(p[StoreInterface(k, t.id)])
    else if !IsAssignableTo(t, MongoEntity(k)) then Failure(InvalidOperation(MongoIncompatible(k)))
    else GetRequiredService(p, MongoStoreType(k, t.id))
  }

  /** Every cached entry is what the factory would compute for its key. */
  ghost predicate MongoCacheValid(k: EntityKind, cache: Cache)
  {
    forall key :: key in cache ==> MongoClose(k, key) == Success(cache[key])
  }

  lemma EmptyMongoCacheValid(k: EntityKind)
    ensures MongoCacheValid(k, map[])
  {
  }

  /** From any valid cache, `Get` answers as the cache-free resolution does. */
  lemma MongoCacheTransparent(k: EntityKind, p: ServiceProvider, cache: Cache, t: ClassType)
    requires MongoCacheValid(k, cache)
    ensures MongoGet(k, p, cache, t).result == MongoResolve(k, p, t)
  {
    if StoreInterface(k, t.id) !in p && t in cache {
      assert MongoClose(k, t) == Success(cache[t]);
    }
  }

  /** A resolution keeps the cache valid. */
  lemma MongoCacheStaysValid(k: EntityKind, p: ServiceProvider, cache: Cache, t: ClassType)
    requires MongoCacheValid(k, cache)
    ensures MongoCacheValid(k, MongoGet(k, p, cache, t).cache)
  {
    var r := MongoGet(k, p, cache, t);
    if r.cache != cache {
      assert r.cache == cache[t := MongoStoreType(k, t.id)];
      forall key | key in r.cache
        ensures MongoClose(k, key) == Success(r.cache[key])
      {
        if key != t {
          assert key in cache && r.cache[key] == cache[key];
        }
      }
    }
  }

  /** Asking again right away gives the same answer and the same cache. */
  lemma MongoGetStable(k: EntityKind, p: ServiceProvider, cache: Cache, t: ClassType)
    ensures
      var r := MongoGet(k, p, cache, t);
      MongoGet(k, p, r.cache, t) == r
  {
  }

  /** Registering a store for another entity type does not change how `t` resolves. */
  lemma MongoIgnoresOtherRegistrations(k: EntityKind, p: ServiceProvider, cache: Cache, t: ClassType, other: TypeRef, s: Store)
    requires MongoCacheValid(k, cache)
    requires other != t.id
    ensures MongoGet(k, p[StoreInterface(k, other) := s], cache, t) == MongoGet(k, p, cache, t)
  {
    var p' := p[StoreInterface(k, other) := s];
    var service := StoreInterface(k, t.id);
    assert StoreInterface(k, other) != service;
    assert GetService(p', service) == GetService(p, service);
    if service !in p {
      var closed := MongoStoreType(k, t.id);
      if t in cache {
        assert MongoClose(k, t) == Success(cache[t]);
      }
      assert closed.name != StoreInterface(k, other).name;
      assert GetRequiredService(p', closed) == GetRequiredService(p, closed);
    }
  }

  // Entity Framework Core resolvers.

  datatype EfCoreOptions = EfCoreOptions(dbContextType: Option<TypeRef>)

  /** The generic base entity `OpenIddict<Kind><,,>` of the Entity Framework Core
      models; both have three type parameters. */
  function EfEntityDefinition(k: EntityKind): string
  {
    match k
    case Application => "OpenIddict.EntityFrameworkCore.Models.OpenIddictApplication"
    case Token => "OpenIddict.EntityFrameworkCore.Models.OpenIddictToken"
  }

  /** The default store closed over the entity, the other two entities and the key
      taken from the entity's generic base, and the configured context.
      `OpenIddictApplication<TKey, TAuthorization, TToken>` gives
      `OpenIddictApplicationStore<TApplication, TAuthorization, TToken, TContext, TKey>`;
      `OpenIddictToken<TKey, TApplication, TAuthorization>` gives
      `OpenIddictTokenStore<TToken, TApplication, TAuthorization, TContext, TKey>`. */
  function EfStoreType(k: EntityKind, entity: TypeRef, root: TypeRef, context: TypeRef): (r: TypeRef)
    requires |root.args| == 3
    ensures k == Application ==> r.name == "OpenIddict.EntityFrameworkCore.OpenIddictApplicationStore"
    ensures k == Token ==> r.name == "OpenIddict.EntityFrameworkCore.OpenIddictTokenStore"
    ensures |r.args| == 5 && r.args[0] == entity && r.args[3] == context && r.args[4] == root.args[0]
    ensures r.args[1] == root.args[1] && r.args[2] == root.args[2]
  {
    var name := match k
      case Application => "OpenIddict.EntityFrameworkCore.OpenIddictApplicationStore"
      case Token => "OpenIddict.EntityFrameworkCore.OpenIddictTokenStore";
    TypeRef(name, [entity, root.args[1], root.args[2], context, root.args[0]])
  }

  function EfIncompatible(k: EntityKind): string
  {
    match k
    case Application =>
      "The specified application type is not compatible with the Entity Framework Core stores." + NewLine
      + "When enabling the Entity Framework Core stores, make sure you use the built-in "
      + "'OpenIddictApplication' entity (from the 'OpenIddict.EntityFrameworkCore.Models' package) "
      + "or a custom entity that inherits from the generic 'OpenIddictApplication' entity."
    case Token =>
      "The specified token type is not compatible with the Entity Framework Core stores." + NewLine
      + "When enabling the Entity Framework Core stores, make sure you use the built-in "
      + "'OpenIddictToken' entity (from the 'OpenIddict.EntityFrameworkCore.Models' package) "
      + "or a custom entity that inherits from the generic 'OpenIddictToken' entity."
  }

  const NoContextSpecified :=
    "No Entity Framework Core context was specified in the OpenIddict options." + NewLine
    + "To configure the OpenIddict Entity Framework Core stores to use a specific 'DbContext', "
    + "use 'options.UseEntityFrameworkCore().UseDbContext<TContext>()'."

  /** The generic base of `key` the Entity Framework Core stores accept, if any. */
  function EfRoot(k: EntityKind, key: ClassType): Option<TypeRef>
  {
    FindGenericBase(Lineage(key), EfEntityDefinition(k), 3)
  }

  /** The cache factory of the Entity Framework Core resolvers: the entity check
      comes first, the options are read only for an acceptable entity. */
  function EfClose(k: EntityKind, o: EfCoreOptions, key: ClassType): (r: Result<TypeRef, Error>)
    ensures EfRoot(k, key).None? ==> r == Failure(InvalidOperation(EfIncompatible(k)))
    ensures EfRoot(k, key).Some? && o.dbContextType.None? ==> r == Failure(InvalidOperation(NoContextSpecified))
    ensures r.Success? <==> EfRoot(k, key).Some? && o.dbContextType.Some?
    ensures r.Success? ==> r.value == EfStoreType(k, key.id, EfRoot(k, key).value, o.dbContextType.value)
  {
    match EfRoot(k, key)
    case None => Failure(InvalidOperation(EfIncompatible(k)))
    case Some(root) =>
      match o.dbContextType
      case None => Failure(InvalidOperation(NoContextSpecified))
      case Some(context) => Success(EfStoreType(k, key.id, root, context))
  }

  /** `Get<TEntity>` of the Entity Framework Core resolvers. */
  function EfGet(k: EntityKind, p: ServiceProvider, o: EfCoreOptions, cache: Cache, t: ClassType): (r: Resolution)
    ensures StoreInterface(k, t.id) in p ==> r == Resolution(Success(p[StoreInterface(k, t.id)]), cache)
    ensures StoreInterface(k, t.id) !in p && t !in cache && EfRoot(k, t).None? ==>
      r == Resolution(Failure(InvalidOperation(EfIncompatible(k))), cache)
    ensures StoreInterface(k, t.id) !in p && t !in cache && EfRoot(k, t).Some? && o.dbContextType.None? ==>
      r == Resolution(Failure(InvalidOperation(NoContextSpecified)), cache)
    ensures StoreInterface(k, t.id) !in p && (t in cache || (EfRoot(k, t).Some? && o.dbContextType.Some?)) ==>
      && t in r.cache
      && r.result == GetRequiredService(p, r.cache[t])
    ensures r.cache == cache
         || (t !in cache && EfRoot(k, t).Some? && o.dbContextType.Some?
             && r.cache == cache[t := EfStoreType(k, t.id, EfRoot(k, t).value, o.dbContextType.value)])
  {
    match GetService(p, StoreInterface(k, t.id))
    case Some(s) => Resolution(Success(s), cache)
    case None =>
      var (closed, cache') := GetOrAdd(cache, t, key => EfClose(k, o, key));
      match closed
      case Failure(e) => Resolution(Failure(e), cache')
      case Success(ty) => Resolution(GetRequiredService(p, ty), cache')
  }

  /** Cache-free reference for the Entity Framework Core resolvers. */
  function EfResolve(k: EntityKind, p: ServiceProvider, o: EfCoreOptions, t: ClassType): Result<Store, Error>
  {
    if StoreInterface(k, t.id) in p then Success(p[StoreInterface(k, t.id)])
    else
      match EfClose(k, o, t)
      case Failure(e) => Failure(e)
      case Success(ty) => GetRequiredService(p, ty)
  }

  /** Every cached entry is what the factory computes for its key under `o`. */
  ghost predicate EfCacheValid(k: EntityKind, o: EfCoreOptions, cache: Cache)
  {
    forall key :: key in cache ==> EfClose(k, o, key) == Success(cache[key])
  }

  /** While the options stay the same, the cache is invisible. */
  lemma EfCacheTransparent(k: EntityKind, p: ServiceProvider, o: EfCoreOptions, cache: Cache, t: ClassType)
    requires EfCacheValid(k, o, cache)
    ensures EfGet(k, p, o, cache, t).result == EfResolve(k, p, o, t)
  {
    if StoreInterface(k, t.id) !in p && t in cache {
      assert EfClose(k, o, t) == Success(cache[t]);
    }
  }

  /** A resolution keeps the cache valid for the options it was made under. */
  lemma EfCacheStaysValid(k: EntityKind, p: ServiceProvider, o: EfCoreOptions, cache: Cache, t: ClassType)
    requires EfCacheValid(k, o, cache)
    ensures EfCacheValid(k, o, EfGet(k, p, o, cache, t).cache)
  {
    var r := EfGet(k, p, o, cache, t);
    if r.cache != cache {
      var ty := EfStoreType(k, t.id, EfRoot(k, t).value, o.dbContextType.value);
      assert EfClose(k, o, t) == Success(ty);
      assert r.cache == cache[t := ty];
      forall key | key in r.cache
        ensures EfClose(k, o, key) == Success(r.cache[key])
      {
        if key != t {
          assert key in cache && r.cache[key] == cache[key];
        }
      }
    }
  }

  /** A registered store, or an entity the stores cannot accept, is answered
      without reading the options: any two option values give the same outcome. */
  lemma EfOptionsReadOnlyForAcceptedEntities(
    k: EntityKind, p: ServiceProvider, o1: EfCoreOptions, o2: EfCoreOptions, cache: Cache, t: ClassType)
    requires StoreInterface(k, t.id) in p || (t !in cache && EfRoot(k, t).None?)
    ensures EfGet(k, p, o1, cache, t) == EfGet(k, p, o2, cache, t)
  {
  }

  /** Asking again right away gives the same answer and the same cache. */
  lemma EfGetStable(k: EntityKind, p: ServiceProvider, o: EfCoreOptions, cache: Cache, t: ClassType)
    ensures
      var r := EfGet(k, p, o, cache, t);
      EfGet(k, p, o, r.cache, t) == r
  {
  }

  // The core resolver.

  const NoApplicationStore :=
    "No application store has been registered in the dependency injection container." + NewLine
    + "To register the Entity Framework Core stores, reference the 'OpenIddict.EntityFrameworkCore' "
    + "package and call 'services.AddOpenIddict().AddCore().UseEntityFrameworkCore()'." + NewLine
    + "To register a custom store, create an implementation of 'IOpenIddictApplicationStore' and "
    + "use 'services.AddOpenIddict().AddCore().AddApplicationStore()' to add it to the DI container."

  /** `Get<TApplication>` of the core application resolver: the registered store
      or an exception, for any entity type at all. */
  function CoreApplicationGet(p: ServiceProvider, t: TypeRef): (r: Result<Store, Error>)
    ensures r.Success? <==> StoreInterface(Application, t) in p
    ensures r.Success? ==> r.value == p[StoreInterface(Application, t)]
    ensures r.Failure? ==> r.error == InvalidOperation(NoApplicationStore)
  {
    match GetService(p, StoreInterface(Application, t))
    case Some(s) => Success(s)
    case None => Failure(InvalidOperation(NoApplicationStore))
  }

  /** The MongoDB token resolver as a service object whose cache persists
      between calls. */
  class MongoTokenStoreResolver {
    const provider: ServiceProvider
    var cache: Cache

    ghost predicate Valid()
      reads this
    {
      MongoCacheValid(Token, cache)
    }

    constructor(p: ServiceProvider)
      ensures provider == p && cache == map[] && Valid()
    {
      provider := p;
      cache := map[];
      EmptyMongoCacheValid(Token);
    }

    method Get(t: ClassType) returns (r: Result<Store, Error>)
      requires Valid()
      modifies this
      ensures Valid()
      ensures r == MongoResolve(Token, provider, t)
      ensures cache == MongoGet(Token, provider, old(cache), t).cache
    {
      var res := MongoGet(Token, provider, cache, t);
      MongoCacheTransparent(Token, provider, cache, t);
      MongoCacheStaysValid(Token, provider, cache, t);
      cache := res.cache;
      r := res.result;
    }
  }
}
