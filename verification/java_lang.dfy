/** The few notions of the Java runtime that the scoping code relies on:
    nullable references, exceptions, thread identities and ThreadLocal
    storage. */
module JavaLang {

  /** A Java reference that may be null: None stands for null. */
  datatype Option<+T> = None | Some(value: T)

  /** The identity of a thread, as returned by Thread.currentThread(). */
  type ThreadId = nat

  /** A non-null Java object of the application. `circularProxy` is what
      ScopeUtils.isCircularProxy (com.google.code.inject.jaxrs.util) reports for it: whether it is a
      placeholder Guice hands out to break a dependency cycle. */
  datatype Instance = Instance(id: nat, className: string, circularProxy: bool)

  /** A non-null value held in an attribute store: an ordinary object, or
      CXFScopes.NullObject.INSTANCE, the sentinel that stands for a cached null. */
  datatype Ref = NullObject | Obj(instance: Instance)

  /** Which argument check an IllegalArgumentException reports. */
  datatype ArgumentProblem =
    | NullSeedMap                                    // scopeRequest given a null seed map
    | IncompatibleValue(value: Instance, key: string) // seed value not an instance of the key's raw type
    | CheckFailed                                    // checkArgument(condition) without a message

  /** What the modelled code throws or lets through: java.lang.Exceptions
      and, as JavaError, java.lang.Errors, which are Throwables but not
      Exceptions. */
  datatype Exception =
    | IllegalState(message: string)
    | IllegalArgument(problem: ArgumentProblem)
    | NullPointer
    | ArrayIndexOutOfBounds
    | ClassCast
    | UnsupportedOperation
    | OutOfScope(message: string)
    | Provision(cause: Option<Exception>)
    | Fault(cause: Option<Exception>)
    | Raised(name: string)   // any other exception, thrown by code outside the model
    | JavaError(name: string) // a java.lang.Error (OutOfMemoryError, AssertionError, ...)

  /** The way a Java call ends: it returns a value or throws. */
  datatype Outcome<+T> = Return(value: T) | Throw(error: Exception)

  /** java.lang.ThreadLocal: one slot per thread; a thread without a slot
      reads null. */
  class ThreadLocal<C> {
    var slots: map<ThreadId, C>

    constructor ()
      ensures slots == map[]
    {
      slots := map[];
    }

    /** ThreadLocal.get() on thread t. */
    function Get(t: ThreadId): (r: Option<C>)
      reads this
      ensures r.Some? <==> t in slots
      ensures r.Some? ==> r.value == slots[t]
    {
      if t in slots then Some(slots[t]) else None
    }

    /** ThreadLocal.set(c) on thread t; setting null empties the slot, so a
        later get() reads null, and no other thread's slot changes. */
    method Set(t: ThreadId, c: Option<C>)
      modifies this
      ensures slots == if c.Some? then old(slots)[t := c.value] else old(slots) - {t}
      ensures Get(t) == c
    {
      if c.Some? {
        slots := slots[t := c.value];
      } else {
        slots := slots - {t};
      }
    }
  }
}
