/** The parts of the Guice container the scoping code consumes: keys, scopes
    and providers (here called creators). */
module Guice {
  import opened JavaLang

  /** A java.lang.reflect.Type as Guice keys carry it. */
  datatype TypeRef =
    | ClassType(name: string)
    | ParameterizedType(rawType: string, arguments: seq<TypeRef>, owner: Option<TypeRef>)
    | TypeVariable(name: string)

  /** com.google.inject.Key: a type and an optional binding annotation
      (given by its rendering). */
  datatype Key = Key(typeRef: TypeRef, annotation: Option<string>)

  /** The scopes a binding can resolve to: Scopes.SINGLETON, Scopes.NO_SCOPE
      or any other Scope object (CXFScopes.REQUEST among them). */
  datatype Scope = Singleton | NoScope | NamedScope(name: string)

  function Join(parts: seq<string>): string
  {
    if |parts| == 0 then ""
    else if |parts| == 1 then parts[0]
    else parts[0] + ", " + Join(parts[1..])
  }

  /** The rendering Guice gives a type: the class name, with the type
      arguments of a parameterized type in angle brackets. */
  function TypeName(t: TypeRef): string
  {
    match t
    case ClassType(n) => n
    case TypeVariable(n) => n
    case ParameterizedType(raw, args, _) =>
      raw + "<" + Join(seq(|args|, i requires 0 <= i < |args| => TypeName(args[i]))) + ">"
  }

  /** Key.toString(): the name under which a request-scoped value is cached. */
  function KeyString(k: Key): string
  {
    "Key[type=" + TypeName(k.typeRef) + ", annotation="
      + (match k.annotation case None => "[none]" case Some(a) => a) + "]"
  }

  /** TypeLiteral.getRawType(): the class a type erases to; a type variable
      erases to Object. */
  function RawType(t: TypeRef): string
  {
    match t
    case ClassType(n) => n
    case ParameterizedType(raw, _, _) => raw
    case TypeVariable(_) => "java.lang.Object"
  }

  /** The unscoped com.google.inject.Provider that a scope wraps. What its
      n-th get() returns or throws is fixed by `produce`; `calls` counts the
      calls made so far. */
  class Creator {
    var calls: nat
    const produce: nat -> Outcome<Option<Instance>>

    constructor (produce: nat -> Outcome<Option<Instance>>)
      ensures calls == 0 && this.produce == produce
    {
      calls := 0;
      this.produce := produce;
    }

    /** Provider.get(). */
    method Get() returns (r: Outcome<Option<Instance>>)
      modifies this
      ensures calls == old(calls) + 1
      ensures r == produce(old(calls))
    {
      r := produce(calls);
      calls := calls + 1;
    }
  }
}
