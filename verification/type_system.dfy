/** Just enough of the runtime type system for the store resolvers: type
    references (possibly closed generics), classes with their base-class chain,
    assignability, the search for a generic base type, and the dependency
    injection container seen as a map from service type to instance. */
module TypeSystem {
  import opened Wrappers

  /** A type by full name and generic arguments; a non-generic type has none.
      A generic definition is identified by its name and arity. */
  datatype TypeRef = TypeRef(name: string, args: seq<TypeRef>)

  function Plain(name: string): TypeRef
  {
    TypeRef(name, [])
  }

  /** A class as reflection sees it: its own type and its base classes, nearest
      first. Base classes are kept as references so that entity types may refer
      to each other through their generic arguments. */
  datatype ClassType = ClassType(id: TypeRef, bases: seq<TypeRef>)

  /** The class followed by its base classes. */
  function Lineage(t: ClassType): (r: seq<TypeRef>)
    ensures |r| == |t.bases| + 1 && r[0] == t.id
  {
    [t.id] + t.bases
  }

  /** `typeof(b).IsAssignableFrom(t)` for a class `b`: `t` is `b` or derives from it. */
  predicate IsAssignableTo(t: ClassType, b: TypeRef)
  {
    b in Lineage(t)
  }

  /** Whether `x` closes the generic definition `definition` of arity `arity`. */
  predicate Closes(x: TypeRef, definition: string, arity: nat)
  {
    x.name == definition && |x.args| == arity
  }

  /** The first type of `chain` that closes the generic definition, if any: the
      generic base-type search of the Entity Framework Core resolvers. */
  function FindGenericBase(chain: seq<TypeRef>, definition: string, arity: nat): (r: Option<TypeRef>)
    ensures r.Some? ==> r.value in chain && Closes(r.value, definition, arity)
  {
    if |chain| == 0 then None
    else if Closes(chain[0], definition, arity) then Some(chain[0])
    else FindGenericBase(chain[1..], definition, arity)
  }

  /** The search finds nothing exactly when no type of the chain closes the
      definition, and otherwise finds the nearest one. */
  lemma {:induction false} FindGenericBaseIsNearest(chain: seq<TypeRef>, definition: string, arity: nat)
    ensures FindGenericBase(chain, definition, arity).None? <==>
      forall i :: 0 <= i < |chain| ==> !Closes(chain[i], definition, arity)
    ensures FindGenericBase(chain, definition, arity).Some? ==>
      exists i :: 0 <= i < |chain| && chain[i] == FindGenericBase(chain, definition, arity).value
        && forall j :: 0 <= j < i ==> !Closes(chain[j], definition, arity)
  {
    if |chain| > 0 && !Closes(chain[0], definition, arity) {
      FindGenericBaseIsNearest(chain[1..], definition, arity);
      assert forall i :: 1 <= i < |chain| ==> chain[i] == chain[1..][i - 1];
      var r := FindGenericBase(chain, definition, arity);
      if r.Some? {
        var i :| 0 <= i < |chain[1..]| && chain[1..][i] == r.value
          && forall j :: 0 <= j < i ==> !Closes(chain[1..][j], definition, arity);
        assert chain[i + 1] == r.value;
      }
    }
  }

  /** An opaque store instance held by the container. */
  datatype Store = Store(id: nat)

  /** The container's registrations: the instance served for each service type. */
  type ServiceProvider = map<TypeRef, Store>

  datatype Error =
    | InvalidOperation(message: string)
    /** `GetRequiredService` found no registration for the service type. */
    | MissingService(serviceType: TypeRef)

  /** `GetService`: the registered instance, or null. */
  function GetService(p: ServiceProvider, service: TypeRef): (r: Option<Store>)
    ensures r.Some? <==> service in p
    ensures r.Some? ==> r.value == p[service]
  {
    if service in p then Some(p[service]) else None
  }

  /** `GetRequiredService`: the registered instance, or an exception; never null. */
  function GetRequiredService(p: ServiceProvider, service: TypeRef): (r: Result<Store, Error>)
    ensures r.Success? <==> service in p
    ensures r.Success? ==> r.value == p[service]
    ensures r.Failure? ==> r.error == MissingService(service)
  {
    if service in p then Success(p[service]) else Failure(MissingService(service))
  }
}
