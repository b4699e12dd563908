/** The resolvers' unit-test scenarios, stated for all stores and options. */
module ResolverScenarios {
  import opened Wrappers
  import opened TypeSystem
  import opened StoreResolvers

  const Object := Plain("System.Object")
  const Long := Plain("System.Int64")
  const DbContext := Plain("Microsoft.EntityFrameworkCore.DbContext")

  /** A class deriving from nothing but `object`. */
  function Unrelated(name: string): ClassType
  {
    ClassType(Plain(name), [Object])
  }

  // MongoDB application resolver.

  /** `MyApplication : OpenIddictApplication` of the MongoDB models. */
  const MongoMyApplication := ClassType(Plain("MyApplication"), [MongoEntity(Application), Object])

  /** A store registered for a class unrelated to the base entity is returned. */
  lemma MongoRegisteredUnrelatedClass(s: Store)
    ensures
      var p := map[StoreInterface(Application, Plain("CustomApplication")) := s];
      MongoGet(Application, p, map[], Unrelated("CustomApplication")).result == Success(s)
  {
  }

  /** With nothing registered an unrelated class is refused with the MongoDB message. */
  lemma MongoRefusesUnrelatedClass()
    ensures
      MongoGet(Application, map[], map[], Unrelated("CustomApplication"))
        == Resolution(Failure(InvalidOperation(MongoIncompatible(Application))), map[])
  {
    assert Object != MongoEntity(Application) by {
      assert |Object.name| != |MongoEntity(Application).name|;
    }
    assert Plain("CustomApplication") != MongoEntity(Application) by {
      assert |"CustomApplication"| != |MongoEntity(Application).name|;
    }
  }

  /** A derived entity resolves to the generic store closed over it, whatever
      else is registered, and the closure is cached. */
  lemma MongoResolvesDerivedEntity(s: Store, s2: Store)
    ensures
      var closed := TypeRef("OpenIddict.MongoDb.OpenIddictApplicationStore", [MongoMyApplication.id]);
      var p := map[StoreInterface(Application, Plain("CustomApplication")) := s, closed := s2];
      MongoGet(Application, p, map[], MongoMyApplication) == Resolution(Success(s2), map[MongoMyApplication := closed])
  {
    var closed := TypeRef("OpenIddict.MongoDb.OpenIddictApplicationStore", [MongoMyApplication.id]);
    var p := map[StoreInterface(Application, Plain("CustomApplication")) := s, closed := s2];
    assert StoreInterface(Application, MongoMyApplication.id) !in p by {
      assert |"MyApplication"| != |"CustomApplication"|;
      assert |StoreInterface(Application, MongoMyApplication.id).name| != |closed.name|;
    }
    assert IsAssignableTo(MongoMyApplication, MongoEntity(Application)) by {
      assert Lineage(MongoMyApplication)[1] == MongoEntity(Application);
    }
    assert MongoStoreType(Application, MongoMyApplication.id) == closed;
  }

  // Entity Framework Core application and token resolvers.

  const MyApplicationRoot := TypeRef("OpenIddict.EntityFrameworkCore.Models.OpenIddictApplication",
    [Long, Plain("MyAuthorization"), Plain("MyToken")])
  const MyTokenRoot := TypeRef("OpenIddict.EntityFrameworkCore.Models.OpenIddictToken",
    [Long, Plain("MyApplication"), Plain("MyAuthorization")])

  /** `MyApplication : OpenIddictApplication<long, MyAuthorization, MyToken>`. */
  const EfMyApplication := ClassType(Plain("MyApplication"), [MyApplicationRoot, Object])
  /** `MyToken : OpenIddictToken<long, MyApplication, MyAuthorization>`. */
  const EfMyToken := ClassType(Plain("MyToken"), [MyTokenRoot, Object])

  /** The built-in non-generic entity, which derives from the generic one closed
      over string keys and the built-in entities. */
  function EfBuiltIn(k: EntityKind): ClassType
  {
    var root := match k
      case Application => TypeRef(EfEntityDefinition(Application),
        [Plain("System.String"), Plain("OpenIddict.EntityFrameworkCore.Models.OpenIddictAuthorization"),
         Plain("OpenIddict.EntityFrameworkCore.Models.OpenIddictToken")])
      case Token => TypeRef(EfEntityDefinition(Token),
        [Plain("System.String"), Plain("OpenIddict.EntityFrameworkCore.Models.OpenIddictApplication"),
         Plain("OpenIddict.EntityFrameworkCore.Models.OpenIddictAuthorization")]);
    ClassType(Plain(EfEntityDefinition(k)), [root, Object])
  }

  /** A registered store is returned whatever the options hold. */
  lemma EfRegisteredUnrelatedClass(k: EntityKind, o: EfCoreOptions, s: Store)
    ensures
      var p := map[StoreInterface(k, Plain("CustomEntity")) := s];
      EfGet(k, p, o, map[], Unrelated("CustomEntity")).result == Success(s)
  {
  }

  /** An unrelated class is refused with the incompatibility message, before the
      options are read. */
  lemma EfRefusesUnrelatedClass(k: EntityKind, o: EfCoreOptions)
    ensures
      EfGet(k, map[], o, map[], Unrelated("CustomEntity")).result == Failure(InvalidOperation(EfIncompatible(k)))
  {
    assert EfRoot(k, Unrelated("CustomEntity")).None? by {
      FindGenericBaseIsNearest(Lineage(Unrelated("CustomEntity")), EfEntityDefinition(k), 3);
    }
  }

  /** An acceptable entity with no context configured is refused. */
  lemma EfRefusesMissingContext(k: EntityKind)
    ensures
      EfGet(k, map[], EfCoreOptions(None), map[], EfBuiltIn(k)).result == Failure(InvalidOperation(NoContextSpecified))
  {
    assert EfRoot(k, EfBuiltIn(k)).Some? by {
      FindGenericBaseIsNearest(Lineage(EfBuiltIn(k)), EfEntityDefinition(k), 3);
      assert Closes(Lineage(EfBuiltIn(k))[1], EfEntityDefinition(k), 3);
    }
  }

  /** A derived application with a context resolves to the default store closed
      over the application, authorization, token, context and key types. */
  lemma EfResolvesDerivedApplication(s: Store, s2: Store)
    ensures
      var closed := TypeRef("OpenIddict.EntityFrameworkCore.OpenIddictApplicationStore",
        [Plain("MyApplication"), Plain("MyAuthorization"), Plain("MyToken"), DbContext, Long]);
      var p := map[StoreInterface(Application, Plain("CustomEntity")) := s, closed := s2];
      EfGet(Application, p, EfCoreOptions(Some(DbContext)), map[], EfMyApplication)
        == Resolution(Success(s2), map[EfMyApplication := closed])
  {
    var closed := TypeRef("OpenIddict.EntityFrameworkCore.OpenIddictApplicationStore",
      [Plain("MyApplication"), Plain("MyAuthorization"), Plain("MyToken"), DbContext, Long]);
    var p := map[StoreInterface(Application, Plain("CustomEntity")) := s, closed := s2];
    assert StoreInterface(Application, EfMyApplication.id) !in p by {
      assert |"MyApplication"| != |"CustomEntity"|;
      assert |StoreInterface(Application, EfMyApplication.id).args| != |closed.args|;
    }
    assert EfRoot(Application, EfMyApplication) == Some(MyApplicationRoot) by {
      assert !Closes(EfMyApplication.id, EfEntityDefinition(Application), 3);
      assert Lineage(EfMyApplication)[1..] == EfMyApplication.bases;
      assert FindGenericBase(EfMyApplication.bases, EfEntityDefinition(Application), 3) == Some(MyApplicationRoot);
    }
  }

  /** A derived token with a context resolves to the default store closed over
      the token, application, authorization, context and key types. */
  lemma EfResolvesDerivedToken(s: Store, s2: Store)
    ensures
      var closed := TypeRef("OpenIddict.EntityFrameworkCore.OpenIddictTokenStore",
        [Plain("MyToken"), Plain("MyApplication"), Plain("MyAuthorization"), DbContext, Long]);
      var p := map[StoreInterface(Token, Plain("CustomEntity")) := s, closed := s2];
      EfGet(Token, p, EfCoreOptions(Some(DbContext)), map[], EfMyToken)
        == Resolution(Success(s2), map[EfMyToken := closed])
  {
    var closed := TypeRef("OpenIddict.EntityFrameworkCore.OpenIddictTokenStore",
      [Plain("MyToken"), Plain("MyApplication"), Plain("MyAuthorization"), DbContext, Long]);
    var p := map[StoreInterface(Token, Plain("CustomEntity")) := s, closed := s2];
    assert StoreInterface(Token, EfMyToken.id) !in p by {
      assert |"MyToken"| != |"CustomEntity"|;
      assert |StoreInterface(Token, EfMyToken.id).args| != |closed.args|;
    }
    assert EfRoot(Token, EfMyToken) == Some(MyTokenRoot) by {
      assert !Closes(EfMyToken.id, EfEntityDefinition(Token), 3);
      assert Lineage(EfMyToken)[1..] == EfMyToken.bases;
      assert FindGenericBase(EfMyToken.bases, EfEntityDefinition(Token), 3) == Some(MyTokenRoot);
    }
  }

  // The core application resolver.

  lemma CoreApplicationScenarios(s: Store)
    // With nothing registered the resolver throws its registration hint.
    ensures CoreApplicationGet(map[], Plain("OpenIddictApplication")) == Failure(InvalidOperation(NoApplicationStore))
    // A bare class with a registered store resolves: no base type is required.
    ensures
      var p := map[StoreInterface(Application, Plain("OpenIddictApplication")) := s];
      CoreApplicationGet(p, Plain("OpenIddictApplication")) == Success(s)
  {
  }
}
