# OpenIddict Data Protection token handlers and store resolvers in Dafny

This project models two parts of OpenIddict.

1. **The Data Protection server handlers.** During authentication, `ValidateDataProtectionToken` reads a token produced with ASP.NET Core Data Protection. If the context already holds a principal, the handler keeps it. Otherwise it tries the token type the context names. When no type is named, it tries access token, refresh token, authorization code, device code and user code, in that order, and keeps the first principal that reads. During sign-in, five generators each fill one response slot: access token, authorization code, device code, refresh token or user code. A generator never overwrites a slot that is already filled. Validator and generators choose the same protector purposes. The purposes depend on the token kind and on two options: `UseReferenceAccessTokens` and `DisableTokenStorage`. The handlers' descriptors place each one 500 after (for the validator) or 500 before (for a generator) its IdentityModel counterpart.
2. **The store resolvers.** `Get<TEntity>` returns the store registered for the exact entity type when there is one. Otherwise the MongoDB resolvers check that the entity derives from the MongoDB base entity. The Entity Framework Core resolvers check that the entity derives from a closed instance of the generic base entity `OpenIddict<Kind><,,>`, and then that a `DbContext` type is configured. That closed base supplies the store's other type arguments. The first time an entity type is seen, the resolver runs these checks, closes its generic store over the entity, and caches the closed type for that entity type. On a cache hit the checks are skipped. Either way it then asks the container for that store. The core resolver has no fallback: it returns the registered store or throws.

Layout:

- `wrappers.dfy`: `Option` (null) and `Result` (a thrown exception).
- `dp_types.dfy`: token kinds, purposes, options, principals, the abstract crypto backend, and the handler contexts.
- `dp_handlers.dfy`: the purpose table, the validator with its candidate fallback, the generators and the descriptors.
- `dp_properties.dfy`: generator/validator agreement, round trips and idempotence.
- `type_system.dfy`: type references, classes with base chains, generic-base search, and the container as a map.
- `store_resolvers.dfy`: the MongoDB, Entity Framework Core and core resolvers, and the cache.
- `resolver_scenarios.dfy`: the resolver unit-test scenarios, stated for all stores and options.

Collaborators whose code is not modelled are parameters:

- The Base64Url codec, the protector and the binary formatter are the function fields of `Backend`. `None` stands for a thrown exception, or for a null principal from `ReadToken`.
- The dependency-injection container is a map from service type to store instance.
- The IdentityModel handler orders are the fields of `IdentityModelOrders`.

Round-trip lemmas assume the collaborators invert each other (`Lawful`). The no-type round trip also needs a protector that refuses payloads protected under other purposes (`PurposeSeparating`).

Behaviour kept as the code has it:

- The purpose `switch` in the validator sits outside the `try`. A context that names a token type other than the five kinds therefore makes the handler throw "The specified token type is not supported." (`Validate` returns `Failure`). Only failures while decoding, unprotecting or reading are turned into "no principal".
- In the fallback chain, the purpose `switch` never throws for a candidate, because every candidate is a supported type.
- Handler orders are C# `int`s and the ±500 offsets are unchecked arithmetic (`Wrap32`). An IdentityModel order within 500 of `int.MaxValue` puts the validator in front of its counterpart instead of after it, and one within 500 of `int.MinValue` puts a generator behind its counterpart. The orders OpenIddict defines are far from either end.

## Model

| member | source | states |
|---|---|---|
| DataProtectionHandlers.ValidationPurposes | openiddict-core/src/OpenIddict.Server.DataProtection/OpenIddictServerDataProtectionHandlers.cs:109-133 | The validator's purposes exist exactly for the five token-usage names; any other name throws the "not supported" error. The list is server handler, the kind's format, optionally the reference-token feature, server scheme. The reference feature is present iff (access token and UseReferenceAccessTokens) or (other kind and not DisableTokenStorage). |
| DataProtectionHandlers.GenerationPurposes | openiddict-core/src/OpenIddict.Server.DataProtection/OpenIddictServerDataProtectionHandlers.cs:197-201 | A generator's purposes have the same shape, with the reference feature under the same condition. The same choice is made at lines 261-265, 325-329, 389-393 and 453-457. |
| DataProtectionProperties.GeneratorAndValidatorAgree | openiddict-core/src/OpenIddict.Server.DataProtection/OpenIddictServerDataProtectionHandlers.cs:111-130 | For every kind and every option setting, the validator picks exactly the purpose list the generator of that kind picks. |
| DataProtectionProperties.PurposesSeparateKinds | openiddict-core/src/OpenIddict.Server.DataProtection/OpenIddictServerDataProtectionHandlers.cs:140-141 | Two different kinds never share a purpose list under the same options. Given pairwise distinct purpose strings, this is what makes a read token "guaranteed to be of the expected type". |
| DataProtectionHandlers.Unprotect | openiddict-core/src/OpenIddict.Server.DataProtection/OpenIddictServerDataProtectionHandlers.cs:135-150 | A principal comes out iff Base64Url decoding, unprotecting and reading all succeed; any failure or a null read gives no principal. The principal is exactly the one the formatter read. |
| DataProtectionHandlers.ValidateToken | openiddict-core/src/OpenIddict.Server.DataProtection/OpenIddictServerDataProtectionHandlers.cs:106-151 | Throws iff the type name is not one of the five kinds. Otherwise it yields a principal iff the guarded read succeeds, and that principal keeps the claims the formatter read, with its token-usage claim set to the type that was tried. |
| DataProtectionHandlers.FirstDecodedIsEarliest | openiddict-core/src/OpenIddict.Server.DataProtection/OpenIddictServerDataProtectionHandlers.cs:89-93 | The `??` chain yields nothing iff every candidate fails. Otherwise it yields the principal of some candidate, and every earlier candidate failed. |
| DataProtectionHandlers.Validate | openiddict-core/src/OpenIddict.Server.DataProtection/OpenIddictServerDataProtectionHandlers.cs:73-104 | An attached principal is kept untouched. A named type is the only one tried. Without a name, the candidates are tried in the fixed order and the earliest one that reads wins. If nothing reads, the context is unchanged and no error is raised. Only the principal can change. The handler throws iff the named type is unsupported. |
| DataProtectionProperties.ValidateIsIdempotent | openiddict-core/src/OpenIddict.Server.DataProtection/OpenIddictServerDataProtectionHandlers.cs:80-84 | Running the validator again on its own output changes nothing. |
| DataProtectionProperties.IssuedTokenReadsAsItsKind | openiddict-core/src/OpenIddict.Server.DataProtection/OpenIddictServerDataProtectionHandlers.cs:137-142 | With inverse collaborators, a token a generator wrote reads back, as its own kind, to the generator's principal stamped with that kind. |
| DataProtectionProperties.IssuedTokenRejectedAsOtherKind | openiddict-core/src/OpenIddict.Server.DataProtection/OpenIddictServerDataProtectionHandlers.cs:140-142 | With a purpose-separating protector, a token of one kind never reads as another kind. |
| DataProtectionProperties.FirstDecodedFindsOnlyReader | openiddict-core/src/OpenIddict.Server.DataProtection/OpenIddictServerDataProtectionHandlers.cs:87-93 | If only one kind in the candidate list can read the token, the chain returns what that kind reads, wherever it sits in the list. |
| DataProtectionProperties.RoundTripNamedType | openiddict-core/src/OpenIddict.Server.DataProtection/OpenIddictServerDataProtectionHandlers.cs:87-99 | Validating a freshly generated token, with its own type named and the same options, attaches the generator's principal stamped with that type. |
| DataProtectionProperties.RoundTripAnyType | openiddict-core/src/OpenIddict.Server.DataProtection/OpenIddictServerDataProtectionHandlers.cs:89-99 | The same holds with no type named: the candidate chain finds the generator's kind. |
| DataProtectionHandlers.Generate | openiddict-core/src/OpenIddict.Server.DataProtection/OpenIddictServerDataProtectionHandlers.cs:190-208 | A filled slot leaves the context unchanged. An empty slot receives the encoded, protected, serialised principal of that kind. No other slot, option or principal changes. |
| DataProtectionProperties.GenerateIsIdempotent | openiddict-core/src/OpenIddict.Server.DataProtection/OpenIddictServerDataProtectionHandlers.cs:190-194 | Running a generator twice is the same as running it once: the second run finds the slot filled, or the first run issued an empty token and changed nothing. |
| DataProtectionHandlers.GenerateAccessToken | openiddict-core/src/OpenIddict.Server.DataProtection/OpenIddictServerDataProtectionHandlers.cs:183-216 | A non-empty AccessToken leaves the context as is; otherwise only AccessToken is set, to the issued token. |
| DataProtectionHandlers.GenerateAuthorizationCode | openiddict-core/src/OpenIddict.Server.DataProtection/OpenIddictServerDataProtectionHandlers.cs:247-280 | A non-empty Code leaves the context as is; otherwise only Code is set. |
| DataProtectionHandlers.GenerateDeviceCode | openiddict-core/src/OpenIddict.Server.DataProtection/OpenIddictServerDataProtectionHandlers.cs:311-344 | A non-empty DeviceCode leaves the context as is; otherwise only DeviceCode is set. |
| DataProtectionHandlers.GenerateRefreshToken | openiddict-core/src/OpenIddict.Server.DataProtection/OpenIddictServerDataProtectionHandlers.cs:375-408 | A non-empty RefreshToken leaves the context as is; otherwise only RefreshToken is set. |
| DataProtectionHandlers.GenerateUserCode | openiddict-core/src/OpenIddict.Server.DataProtection/OpenIddictServerDataProtectionHandlers.cs:439-472 | A non-empty UserCode leaves the context as is; otherwise only UserCode is set. |
| DataProtectionHandlers.ValidatorDescriptor | openiddict-core/src/OpenIddict.Server.DataProtection/OpenIddictServerDataProtectionHandlers.cs:60-64 | The validator handles the authentication context as a singleton with no filters. It orders exactly 500 after the IdentityModel validator while that sum fits in an `int`. Past `int.MaxValue` the order wraps to the other end and lands before the validator. |
| DataProtectionHandlers.GeneratorDescriptor | openiddict-core/src/OpenIddict.Server.DataProtection/OpenIddictServerDataProtectionHandlers.cs:168-174 | Each generator handles the sign-in context as a singleton. It has exactly two filters, the kind's "included" filter and then the prefer-Data-Protection filter. It orders exactly 500 before its IdentityModel counterpart while that difference fits in an `int`. Below `int.MinValue` the order wraps and lands after the counterpart. |
| DataProtectionHandlers.DefaultHandlers | openiddict-core/src/OpenIddict.Server.DataProtection/OpenIddictServerDataProtectionHandlers.cs:32-45 | Six singleton descriptors. First the validator on the authentication context: no filters, ordered 500 after the IdentityModel validator in wrapping `int` arithmetic. Then the generators for access token, authorization code, device code, refresh token and user code, on the sign-in context. Each is ordered 500 before its IdentityModel counterpart in wrapping `int` arithmetic and carries its two filters. |
| TypeSystem.FindGenericBaseIsNearest | openiddict-core/test/OpenIddict.EntityFrameworkCore.Tests/Resolvers/OpenIddictApplicationStoreResolverTests.cs:111-116 | The generic-base search finds nothing iff no class in the chain closes the definition. Otherwise it finds the nearest class that does. |
| StoreResolvers.MongoClose | openiddict-core/src/OpenIddict.MongoDb/Resolvers/OpenIddictTokenStoreResolver.cs:44-54 | An entity type is accepted iff it is the MongoDB base entity or derives from it, and then it yields the generic store closed over it. Otherwise the exact incompatibility message is thrown. |
| StoreResolvers.MongoGet | openiddict-core/src/OpenIddict.MongoDb/Resolvers/OpenIddictTokenStoreResolver.cs:34-58 | An exact registration is returned with no check and no cache change. An uncached, non-derived type throws and adds no cache entry. Otherwise the closed store type is cached and the store is requested from the container. The only entry ever added is the closure of a derived type. |
| StoreResolvers.MongoCacheTransparent | openiddict-core/src/OpenIddict.MongoDb/Resolvers/OpenIddictTokenStoreResolver.cs:22-57 | From any valid cache, `Get` answers exactly as the cache-free resolution. |
| StoreResolvers.MongoCacheStaysValid | openiddict-core/src/OpenIddict.MongoDb/Resolvers/OpenIddictTokenStoreResolver.cs:42-55 | Every cache entry maps an entity type to the store closed over it, and each resolution keeps it so. |
| StoreResolvers.MongoTokenStoreResolver.Get | openiddict-core/src/OpenIddict.MongoDb/Resolvers/OpenIddictTokenStoreResolver.cs:20-58 | The resolver object keeps its cache across calls. Each call answers as the cache-free resolution and keeps the cache valid. |
| StoreResolvers.MongoGetStable | openiddict-core/src/OpenIddict.MongoDb/Resolvers/OpenIddictTokenStoreResolver.cs:42-55 | A repeated lookup of the same entity type gives the same answer and the same cache. |
| StoreResolvers.MongoIgnoresOtherRegistrations | openiddict-core/test/OpenIddict.MongoDb.Tests/Resolvers/OpenIddictApplicationStoreResolverTests.cs:59-66 | Registering a store for another entity type does not change how an entity resolves. |
| StoreResolvers.EfStoreType | openiddict-core/test/OpenIddict.EntityFrameworkCore.Tests/Resolvers/OpenIddictTokenStoreResolverTests.cs:105-116 | The application or token store definition, closed over the entity, the other two entities, the configured context and the key, in that order. |
| StoreResolvers.EfClose | openiddict-core/test/OpenIddict.EntityFrameworkCore.Tests/Resolvers/OpenIddictApplicationStoreResolverTests.cs:41-81 | An entity without the generic base throws the incompatibility message, whatever the options. An accepted entity without a context throws the missing-context message. It succeeds iff both are present. |
| StoreResolvers.EfGet | openiddict-core/test/OpenIddict.EntityFrameworkCore.Tests/Resolvers/OpenIddictTokenStoreResolverTests.cs:23-103 | Exact registration first. Then the entity check, then the context check, each throwing its message and leaving the cache alone. Then the cached closed store is requested from the container. |
| StoreResolvers.EfCacheTransparent | openiddict-core/test/OpenIddict.EntityFrameworkCore.Tests/Resolvers/OpenIddictTokenStoreResolverTests.cs:99-102 | While the options stay the same, a valid cache does not change any answer. |
| StoreResolvers.EfCacheStaysValid | openiddict-core/test/OpenIddict.EntityFrameworkCore.Tests/Resolvers/OpenIddictApplicationStoreResolverTests.cs:99-102 | A resolution leaves the cache valid for the options it was made under. |
| StoreResolvers.EfOptionsReadOnlyForAcceptedEntities | openiddict-core/test/OpenIddict.EntityFrameworkCore.Tests/Resolvers/OpenIddictApplicationStoreResolverTests.cs:27-56 | For a registered store, or for an uncached entity the stores cannot accept, any two option values give the same outcome. |
| StoreResolvers.EfGetStable | openiddict-core/test/OpenIddict.EntityFrameworkCore.Tests/Resolvers/OpenIddictTokenStoreResolverTests.cs:92-102 | A repeated lookup gives the same answer and the same cache. |
| StoreResolvers.CoreApplicationGet | openiddict-core/test/OpenIddict.Core.Tests/Resolvers/OpenIddictApplicationStoreResolverTests.cs:18-50 | Succeeds iff a store is registered for the requested type, returning that store; otherwise it throws the exact "No application store has been registered" message. No base type is required. |
| ResolverScenarios.MongoRegisteredUnrelatedClass | openiddict-core/test/OpenIddict.MongoDb.Tests/Resolvers/OpenIddictApplicationStoreResolverTests.cs:20-32 | A store registered for `CustomApplication`, which does not derive from the MongoDB entity, is returned as is. |
| ResolverScenarios.EfRegisteredUnrelatedClass | openiddict-core/test/OpenIddict.EntityFrameworkCore.Tests/Resolvers/OpenIddictApplicationStoreResolverTests.cs:23-36 | For both entity kinds and any options, a store registered for an unrelated class is returned as is. |
| ResolverScenarios.CoreApplicationScenarios | openiddict-core/test/OpenIddict.Core.Tests/Resolvers/OpenIddictApplicationStoreResolverTests.cs:18-50 | With nothing registered the core resolver throws its registration hint. A bare class with a registered store resolves, since no base type is required. |
| ResolverScenarios.MongoRefusesUnrelatedClass | openiddict-core/test/OpenIddict.MongoDb.Tests/Resolvers/OpenIddictApplicationStoreResolverTests.cs:34-52 | With nothing registered, an unrelated application class throws the MongoDB incompatibility message and nothing is cached. |
| ResolverScenarios.MongoResolvesDerivedEntity | openiddict-core/test/OpenIddict.MongoDb.Tests/Resolvers/OpenIddictApplicationStoreResolverTests.cs:54-76 | A class deriving from the MongoDB application resolves to `OpenIddictApplicationStore<MyApplication>`, despite another registration, and that closure is cached. |
| ResolverScenarios.EfRefusesUnrelatedClass | openiddict-core/test/OpenIddict.EntityFrameworkCore.Tests/Resolvers/OpenIddictApplicationStoreResolverTests.cs:38-57 | Under any options, an unrelated class throws the incompatibility message of its entity kind. |
| ResolverScenarios.EfRefusesMissingContext | openiddict-core/test/OpenIddict.EntityFrameworkCore.Tests/Resolvers/OpenIddictApplicationStoreResolverTests.cs:59-82 | The built-in entity with no context configured throws the missing-context message. |
| ResolverScenarios.EfResolvesDerivedApplication | openiddict-core/test/OpenIddict.EntityFrameworkCore.Tests/Resolvers/OpenIddictApplicationStoreResolverTests.cs:84-116 | `MyApplication` with a context resolves to the store closed over MyApplication, MyAuthorization, MyToken, DbContext and long. |
| ResolverScenarios.EfResolvesDerivedToken | openiddict-core/test/OpenIddict.EntityFrameworkCore.Tests/Resolvers/OpenIddictTokenStoreResolverTests.cs:84-116 | `MyToken` with a context resolves to the store closed over MyToken, MyApplication, MyAuthorization, DbContext and long. |

## Left out

- Data Protection cryptography, Base64Url and the binary token formatter are not modelled. They are the uninterpreted fields of `Backend`. Exceptions they throw inside the generators propagate in the source; the generators here are total. Likewise the validator's protector creation sits outside its exception guard, so a throw there escapes the handler in the source; here protector creation cannot fail.
- Logging, `ValueTask` plumbing and the `ArgumentNullException` for a null context. Contexts here are never null.
- The semantics of the `Require<Kind>Included` and `RequirePreferDataProtectionFormatEnabled` filters. Their code lives in the server's filter classes, which are not part of this model, so descriptors carry the filters by name only.
- The IdentityModel handlers' orders. They are defined in `OpenIddictServerHandlers`, which is not part of this model, and appear here as parameters.
- The token-usage name strings ("access_token", ...) come from OpenIddict's constants, which are not part of this model. The properties rely only on the names being distinct and non-empty.
- The purpose strings (`Handlers.Server`, `Formats.<Kind>`, `Features.ReferenceTokens`, `Schemes.Server`) come from OpenIddict's Data Protection constants, which are not part of this model. They are the constructors of `Purpose` and so are taken to be pairwise distinct. `PurposesSeparateKinds`, `IssuedTokenRejectedAsOtherKind` and `RoundTripAnyType` rely on that.
- The claim name of the private token-usage claim. The principal keeps that claim in a field of its own.
- Repeated claim types. OpenIddict principals may carry several claims of one type (one per scope or audience, say). Here claims are a map, so each claim type has a single value. No property depends on this, because the formatter is a parameter.
- The handler dispatcher, the registry and filter evaluation. Their implementation is not part of this model.
- The MongoDB application resolver's own source file is not part of this model. `MongoGet(Application, …)` follows the MongoDB token resolver with the application entity, store and message, and the scenarios of the MongoDB application resolver's unit tests are stated and proved as lemmas in `resolver_scenarios.dfy`.
- The Entity Framework Core resolvers' own source files are not part of this model. Their behaviour is modelled from their unit tests and from the shape of the MongoDB resolver. This includes the cache keyed by entity type and the closed store's argument order, which comes from the tests' `CreateStore`.
- The MongoDB and Entity Framework Core authorization and scope resolvers, and the Entity Framework Core token resolver beyond its tests. Only the token and application resolvers are modelled.
- `ConcurrentDictionary` thread safety. The cache is a map updated one call at a time.
- .NET reflection. A class is its type plus its base-class chain; interfaces are not modelled.
- `Environment.NewLine` in the exception messages is taken to be "\n".
- `OpenIddictMongoDbExtensions` registration wiring, the Entity Framework 6 entity configurations, the MongoDB `OpenIddictApplication` data bag, the OWIN and ASP.NET Core integration, and the validation provider and filter interfaces. These are outside the modelled core.
