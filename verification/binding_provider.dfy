/** BindingProvider: resolves, from the injector's binding for a key, the
    scope that binding lives in and the concrete class it produces. */
module BindingProviders {
  import opened JavaLang
  import opened Guice

  /** The provider object of a ProviderInstanceBinding, as far as scope
      resolution distinguishes it. */
  datatype ProviderInstance =
    | MultibinderProvider          // instanceof Multibinder
    | ProvidersOf                  // of the class of Providers.of(...)
    | OtherProvider(className: string)

  /** A type variable declared by a class, with its declared bounds. */
  datatype TypeParameter = TypeParameter(name: string, bounds: seq<TypeRef>)

  /** A java.lang.Class as reflection describes its type parameters. */
  datatype ClassInfo = ClassInfo(name: string, typeParameters: seq<TypeParameter>)

  /** What a binding is bound to, one case per kind of Guice SPI binding. */
  datatype Target =
    | ConstructorTarget(declaringType: TypeRef)
    | LinkedKeyTarget(linkedKey: Key)
    | ProviderTarget(providerClass: ClassInfo)   // spi.ProviderBinding: the class of its provider
    | UntargettedTarget
    | InstanceTarget
    | ProviderInstanceTarget(provider: ProviderInstance)
    | ProviderKeyTarget(providerKey: Key)
    | ConvertedConstantTarget
    | ExposedTarget

  /** How a binding is scoped, as Guice's scoping visitor reports it. */
  datatype Scoping =
    | EagerSingleton
    | Unscoped
    | ScopeInstance(scope: Scope)
    | ScopeAnnotation(annotation: string)

  datatype Binding = Binding(key: Key, target: Target, scoping: Scoping)

  /** An injector: the binding it gives for each key (getBinding throws for
      a key it cannot bind) and its scope bindings by annotation name. */
  datatype Injector = Injector(bindingFor: Key -> Outcome<Binding>, scopeBindings: map<string, Scope>)

  const ScopeNotResolvedMessage := "Scope was not resolved"

  predicate IsMultibinder(b: Binding)
  {
    b.target.ProviderInstanceTarget? && b.target.provider.MultibinderProvider?
  }

  /** Bindings whose scope is Singleton whatever their scoping says:
      instances of Providers.of(...) and converted constants. */
  predicate AlwaysSingleton(b: Binding)
  {
    || (b.target.ProviderInstanceTarget? && b.target.provider.ProvidersOf?)
    || b.target.ConvertedConstantTarget?
  }

  /** scopeOfBinding(binding, scopeBindings); None is null, "not resolved". */
  function ScopeOfBinding(b: Binding, scopeBindings: map<string, Scope>): (r: Option<Scope>)
    ensures IsMultibinder(b) ==> r.None?
    ensures AlwaysSingleton(b) || (!IsMultibinder(b) && b.scoping.EagerSingleton?) ==> r == Some(Singleton)
    ensures !IsMultibinder(b) && !AlwaysSingleton(b) ==>
      match b.scoping
      case EagerSingleton => r == Some(Singleton)
      case Unscoped => r == Some(NoScope)
      case ScopeInstance(s) => r == Some(s)
      case ScopeAnnotation(a) => (r.Some? <==> a in scopeBindings) && (r.Some? ==> r.value == scopeBindings[a])
  {
    if IsMultibinder(b) then None
    else if AlwaysSingleton(b) then Some(Singleton)
    else match b.scoping
      case EagerSingleton => Some(Singleton)
      case Unscoped => Some(NoScope)
      case ScopeInstance(s) => Some(s)
      case ScopeAnnotation(a) => if a in scopeBindings then Some(scopeBindings[a]) else None
  }

  /** The scope stays unresolved exactly for multibinders and for scope
      annotations the injector has no scope for. */
  lemma ScopeUnresolvedIff(b: Binding, scopeBindings: map<string, Scope>)
    ensures ScopeOfBinding(b, scopeBindings).None? <==>
      IsMultibinder(b)
      || (!AlwaysSingleton(b) && b.scoping.ScopeAnnotation? && b.scoping.annotation !in scopeBindings)
  {
  }

  /** The injector's scope bindings only matter through the binding's own
      scope annotation. */
  lemma ScopeBindingsOnlyMatterForTheAnnotation(b: Binding, sb1: map<string, Scope>, sb2: map<string, Scope>)
    requires b.scoping.ScopeAnnotation? ==>
      (b.scoping.annotation in sb1 <==> b.scoping.annotation in sb2)
      && (b.scoping.annotation in sb1 ==> sb1[b.scoping.annotation] == sb2[b.scoping.annotation])
    ensures ScopeOfBinding(b, sb1) == ScopeOfBinding(b, sb2)
  {
  }

  /** getFirstTypeArgumentUpperBound(type): the single bound of the class's
      first type parameter, which must be a class. */
  function FirstTypeArgumentUpperBound(c: ClassInfo): (r: Outcome<string>)
    ensures |c.typeParameters| == 0 ==> r == Throw(ArrayIndexOutOfBounds)
    ensures |c.typeParameters| > 0 && |c.typeParameters[0].bounds| != 1 ==> r == Throw(IllegalArgument(CheckFailed))
    ensures r.Return? <==>
      |c.typeParameters| > 0 && |c.typeParameters[0].bounds| == 1 && c.typeParameters[0].bounds[0].ClassType?
    ensures r.Return? ==> r.value == c.typeParameters[0].bounds[0].name
    ensures r.Throw? ==> r.error in {ArrayIndexOutOfBounds, IllegalArgument(CheckFailed), ClassCast}
  {
    if |c.typeParameters| == 0 then Throw(ArrayIndexOutOfBounds)
    else
      var bounds := c.typeParameters[0].bounds;
      if |bounds| != 1 then Throw(IllegalArgument(CheckFailed))
      else match bounds[0]
        case ClassType(n) => Return(n)
        case _ => Throw(ClassCast)
  }

  /** The four kinds of binding whose target class can be resolved. */
  predicate Resolvable(t: Target)
  {
    t.ConstructorTarget? || t.LinkedKeyTarget? || t.ProviderTarget? || t.UntargettedTarget?
  }

  /** The target visitor of setBinding: the concrete class a binding for
      `key` produces. `isAssignableFrom(a, b)` stands for Class.isAssignableFrom. */
  function ActualType(b: Binding, key: Key, isAssignableFrom: (string, string) -> bool): (r: Outcome<string>)
    ensures r.Throw? ==> r.error.Provision?
    ensures !Resolvable(b.target) ==> r == Throw(Provision(None))
    ensures b.target.ConstructorTarget? ==> r == Return(RawType(b.target.declaringType))
    ensures b.target.LinkedKeyTarget? ==> r == Return(RawType(b.target.linkedKey.typeRef))
    ensures b.target.UntargettedTarget? ==> r == Return(RawType(b.key.typeRef))
    ensures b.target.ProviderTarget? ==>
      var bound := FirstTypeArgumentUpperBound(b.target.providerClass);
      && (r.Return? <==> bound.Return? && isAssignableFrom(RawType(key.typeRef), bound.value))
      && (r.Return? ==> r == bound)
      && (bound.Throw? ==> r == Throw(Provision(Some(bound.error))))
  {
    match b.target
    case ConstructorTarget(d) => Return(RawType(d))
    case LinkedKeyTarget(k) => Return(RawType(k.typeRef))
    case ProviderTarget(pc) =>
      (match FirstTypeArgumentUpperBound(pc)
       case Throw(e) => Throw(Provision(Some(e)))
       case Return(bound) =>
         if isAssignableFrom(RawType(key.typeRef), bound) then Return(bound)
         else Throw(Provision(Some(IllegalArgument(CheckFailed)))))
    case UntargettedTarget => Return(RawType(b.key.typeRef))
    case _ => Throw(Provision(None))
  }

  /** The class a provider binding resolves to is always one the key's raw
      type accepts, and resolution fails exactly for the unresolvable kinds
      and for providers whose bound is missing or unacceptable. */
  lemma ActualTypeFailsIff(b: Binding, key: Key, isAssignableFrom: (string, string) -> bool)
    ensures var r := ActualType(b, key, isAssignableFrom);
      && (r.Throw? <==>
          !Resolvable(b.target)
          || (b.target.ProviderTarget?
              && (FirstTypeArgumentUpperBound(b.target.providerClass).Throw?
                  || !isAssignableFrom(RawType(key.typeRef), FirstTypeArgumentUpperBound(b.target.providerClass).value))))
      && (b.target.ProviderTarget? && r.Return? ==> isAssignableFrom(RawType(key.typeRef), r.value))
  {
  }

  /** BindingProvider: what a Key is bound to, resolved once the injector is
      known. actualType and scope stay null until then. */
  class BindingProvider {
    const key: Key
    var actualType: Option<string>
    var scope: Option<Scope>

    constructor (key: Key)
      ensures this.key == key && actualType == None && scope == None
    {
      this.key := key;
      actualType := None;
      scope := None;
    }

    /** getScope(): the resolved scope; IllegalState while it is null. */
    method GetScope() returns (r: Outcome<Scope>)
      ensures scope.None? ==> r == Throw(IllegalState(ScopeNotResolvedMessage))
      ensures scope.Some? ==> r == Return(scope.value)
    {
      if scope.None? {
        return Throw(IllegalState(ScopeNotResolvedMessage));
      }
      return Return(scope.value);
    }

    /** setBinding(binding, scopeBindings): the scope is assigned first, so a
        target that cannot be resolved leaves the new scope in place, the old
        actualType unchanged, and throws a ProvisionException. */
    method SetBinding(b: Binding, scopeBindings: map<string, Scope>, isAssignableFrom: (string, string) -> bool)
      returns (r: Outcome<()>)
      modifies this
      ensures scope == ScopeOfBinding(b, scopeBindings)
      ensures var t := ActualType(b, key, isAssignableFrom);
        && (t.Return? ==> actualType == Some(t.value) && r == Return(()))
        && (t.Throw? ==> actualType == old(actualType) && r == Throw(t.error) && r.error.Provision?)
    {
      scope := ScopeOfBinding(b, scopeBindings);
      var t := ActualType(b, key, isAssignableFrom);
      if t.Throw? {
        return Throw(t.error);
      }
      actualType := Some(t.value);
      r := Return(());
    }

    /** setInjector(injector): setBinding with the injector's binding for the
        key and its scope bindings; nothing changes when getBinding throws. */
    method SetInjector(injector: Injector, isAssignableFrom: (string, string) -> bool) returns (r: Outcome<()>)
      modifies this
      ensures injector.bindingFor(key).Throw? ==>
        r == Throw(injector.bindingFor(key).error) && actualType == old(actualType) && scope == old(scope)
      ensures injector.bindingFor(key).Return? ==>
        var b := injector.bindingFor(key).value;
        var t := ActualType(b, key, isAssignableFrom);
        && scope == ScopeOfBinding(b, injector.scopeBindings)
        && (t.Return? ==> actualType == Some(t.value) && r == Return(()))
        && (t.Throw? ==> actualType == old(actualType) && r == Throw(t.error))
    {
      var binding := injector.bindingFor(key);
      if binding.Throw? {
        return Throw(binding.error);
      }
      r := SetBinding(binding.value, injector.scopeBindings, isAssignableFrom);
    }
  }
}
