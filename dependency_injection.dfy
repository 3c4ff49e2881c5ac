/** The type-keyed dependency container of the core library: the first instance registered
    for a type is the one every later request for that type receives, until `Reset`. */
module DependencyInjection {
  import opened Wrappers

  /** A `System.Type`, by its full name. */
  type TypeName = string

  /** An object created by `Activator.CreateInstance(type)`. */
  class Instance {
    const typeName: TypeName

    constructor (typeName: TypeName)
      ensures this.typeName == typeName
    {
      this.typeName := typeName;
    }
  }

  /** What `Activator.CreateInstance` does for a type: construct a new object through its
      public parameterless constructor, give null (a `Nullable<T>` type), throw
      `MissingMethodException` (no such constructor, an abstract class or an interface), or
      throw `TargetInvocationException` (the constructor itself throws). */
  datatype Activation = Constructs | YieldsNull | MissingConstructor | ConstructorThrows

  /** The exceptions activation raises. */
  datatype ActivationException = MissingMethodException | TargetInvocationException

  /** The result of a call that either returns or throws an activation exception. */
  datatype Outcome<T> = Returned(value: T) | Thrown(exception: ActivationException)

  /** The exception an activation raises, if any. */
  function Raises(a: Activation): (r: Option<ActivationException>)
    ensures r.None? <==> a == Constructs || a == YieldsNull
    ensures r == Some(MissingMethodException) <==> a == MissingConstructor
    ensures r == Some(TargetInvocationException) <==> a == ConstructorThrows
  {
    match a
    case MissingConstructor => Some(MissingMethodException)
    case ConstructorThrows => Some(TargetInvocationException)
    case _ => None
  }

  /** The registration rule shared by every path that adds an entry: an absent type gets
      `instance`; a present type keeps its entry. */
  function Registered(m: map<TypeName, Instance?>, typeName: TypeName, instance: Instance?): (r: map<TypeName, Instance?>)
    ensures typeName in r
    ensures typeName in m ==> r == m
    ensures typeName !in m ==> r[typeName] == instance
    ensures r.Keys == m.Keys + {typeName}
    ensures forall k :: k in m && k != typeName ==> r[k] == m[k]
  {
    if typeName in m then m else m[typeName := instance]
  }

  /** The first registration for a type wins over every later one. */
  lemma FirstRegistrationWins(m: map<TypeName, Instance?>, typeName: TypeName, first: Instance?, later: Instance?)
    ensures Registered(Registered(m, typeName, first), typeName, later) == Registered(m, typeName, first)
    ensures typeName !in m ==> Registered(Registered(m, typeName, first), typeName, later)[typeName] == first
  {
  }

  /** The static `TestDependencyInjection` class; one object of this class stands for its static state. */
  class TestDependencyInjection {
    /** `_registeredTypes`. */
    var registeredTypes: map<TypeName, Instance?>
    /** How the runtime activates each type. */
    const activation: TypeName -> Activation

    constructor (activation: TypeName -> Activation)
      ensures registeredTypes == map[] && this.activation == activation
    {
      registeredTypes := map[];
      this.activation := activation;
    }

    /** `Activator.CreateInstance(type)` and `Activator.CreateInstance<T>()`. */
    method CreateInstance(typeName: TypeName) returns (r: Outcome<Instance?>)
      ensures r.Thrown? <==> Raises(activation(typeName)).Some?
      ensures r.Thrown? ==> r.exception == Raises(activation(typeName)).value
      ensures activation(typeName) == YieldsNull ==> r == Returned(null)
      ensures activation(typeName) == Constructs ==>
                r.Returned? && r.value != null && fresh(r.value) && r.value.typeName == typeName
    {
      match activation(typeName)
      case Constructs =>
        var instance := new Instance(typeName);
        r := Returned(instance);
      case YieldsNull =>
        r := Returned(null);
      case MissingConstructor =>
        r := Thrown(MissingMethodException);
      case ConstructorThrows =>
        r := Thrown(TargetInvocationException);
    }

    /** `RegisterDependency(Type)`: constructs and stores an instance only when the type is
        absent; when activation throws, the exception propagates and nothing is stored. */
    method RegisterDependency(typeName: TypeName) returns (r: Outcome<()>)
      modifies this
      ensures typeName in old(registeredTypes) ==> r == Returned(()) && registeredTypes == old(registeredTypes)
      ensures typeName !in old(registeredTypes) && Raises(activation(typeName)).Some? ==>
                r == Thrown(Raises(activation(typeName)).value) && registeredTypes == old(registeredTypes)
      ensures typeName !in old(registeredTypes) && activation(typeName) == YieldsNull ==>
                r == Returned(()) && registeredTypes == Registered(old(registeredTypes), typeName, null)
      ensures typeName !in old(registeredTypes) && activation(typeName) == Constructs ==>
                r == Returned(()) && typeName in registeredTypes &&
                registeredTypes[typeName] != null && fresh(registeredTypes[typeName]) &&
                registeredTypes[typeName].typeName == typeName &&
                registeredTypes == Registered(old(registeredTypes), typeName, registeredTypes[typeName])
    {
      r := Returned(());
      if typeName !in registeredTypes {
        var created := CreateInstance(typeName);
        if created.Thrown? {
          return Thrown(created.exception);
        }
        registeredTypes := registeredTypes[typeName := created.value];
      }
    }

    /** `RegisterDependency<T>(instance)`: a no-op when `T` is registered, else stores `instance`
        (which may be null). */
    method RegisterDependencyInstance(typeName: TypeName, instance: Instance?)
      modifies this
      ensures registeredTypes == Registered(old(registeredTypes), typeName, instance)
    {
      if typeName in registeredTypes {
        return;
      }
      registeredTypes := registeredTypes[typeName := instance];
    }

    /** `GetDependency<T>()`: the stored instance when `T` is registered, leaving the map as it
        was; otherwise a newly constructed instance, which is stored and returned. When
        activation throws, the exception propagates and nothing is stored. The `class`
        constraint on `T` rules out a `Nullable<T>` type, so the null case is stated for
        completeness but is not reached from the source. */
    method GetDependency(typeName: TypeName) returns (r: Outcome<Instance?>)
      modifies this
      ensures typeName in old(registeredTypes) ==>
                r == Returned(old(registeredTypes)[typeName]) && registeredTypes == old(registeredTypes)
      ensures typeName !in old(registeredTypes) && Raises(activation(typeName)).Some? ==>
                r == Thrown(Raises(activation(typeName)).value) && registeredTypes == old(registeredTypes)
      ensures typeName !in old(registeredTypes) && activation(typeName) == YieldsNull ==>
                r == Returned(null) && registeredTypes == Registered(old(registeredTypes), typeName, null)
      ensures typeName !in old(registeredTypes) && activation(typeName) == Constructs ==>
                r.Returned? && r.value != null && fresh(r.value) && r.value.typeName == typeName &&
                registeredTypes == Registered(old(registeredTypes), typeName, r.value)
      ensures r.Returned? ==> typeName in registeredTypes && r.value == registeredTypes[typeName]
    {
      if typeName in registeredTypes {
        return Returned(registeredTypes[typeName]);
      }
      r := CreateInstance(typeName);
      if r.Thrown? {
        return;
      }
      RegisterDependencyInstance(typeName, r.value);
    }

    /** `Reset`: forgets every registration. */
    method Reset()
      modifies this
      ensures registeredTypes == map[]
    {
      registeredTypes := map[];
    }
  }

  /** Two requests for one type give the same object, or both throw. */
  method GetTwice(container: TestDependencyInjection, typeName: TypeName) returns (a: Outcome<Instance?>, b: Outcome<Instance?>)
    modifies container
    ensures a == b
  {
    a := container.GetDependency(typeName);
    b := container.GetDependency(typeName);
  }

  /** After `Reset`, a request for a constructible type constructs an instance different from
      every earlier one. */
  method GetAfterReset(container: TestDependencyInjection, typeName: TypeName)
    returns (before: Outcome<Instance?>, after: Outcome<Instance?>)
    modifies container
    ensures container.activation(typeName) == Constructs ==>
              after.Returned? && after.value != null && fresh(after.value) && after != before
  {
    before := container.GetDependency(typeName);
    container.Reset();
    after := container.GetDependency(typeName);
  }
}
