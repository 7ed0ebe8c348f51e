/**
 The slice of the Java class hierarchy that the lifecycle listeners look at:
 the Spring Boot lifecycle event classes and their superclasses, the runtime
 classes of the objects that `ResolvableType.getType()` can return, and
 `instanceof` / `Class.isInstance` over that hierarchy. Interfaces play no
 part in the checks modelled here and are left out.
 */
module JavaTypes {

  datatype JavaClass =
    | JavaObject                          // java.lang.Object
    | EventObject                         // java.util.EventObject
    | ApplicationEvent                    // org.springframework.context.ApplicationEvent
    | SpringApplicationEvent              // org.springframework.boot.context.event.SpringApplicationEvent
    | ApplicationStartingEvent
    | ApplicationEnvironmentPreparedEvent
    | ApplicationContextInitializedEvent
    | ApplicationPreparedEvent
    | ApplicationStartedEvent
    | ApplicationReadyEvent
    | ApplicationFailedEvent
    | SpringApplication                   // org.springframework.boot.SpringApplication
    | ClassClass                          // java.lang.Class, the class of every class literal
    | ParameterizedTypeImpl               // runtime class of a parameterized java.lang.reflect.Type
    | EmptyType                           // runtime class of ResolvableType.NONE.getType()
    | UserClass(name: string, superclass: JavaClass)  // any class outside the framework, with its superclass

  /** The seven concrete lifecycle events that Spring Boot publishes. */
  predicate IsBootEvent(c: JavaClass) {
    c in {ApplicationStartingEvent, ApplicationEnvironmentPreparedEvent, ApplicationContextInitializedEvent,
          ApplicationPreparedEvent, ApplicationStartedEvent, ApplicationReadyEvent, ApplicationFailedEvent}
  }

  /** Distance from java.lang.Object in the superclass chain. */
  function Depth(c: JavaClass): nat {
    match c
    case JavaObject => 0
    case EventObject => 1
    case ApplicationEvent => 2
    case SpringApplicationEvent => 3
    case SpringApplication => 1
    case ClassClass => 1
    case ParameterizedTypeImpl => 1
    case EmptyType => 1
    case UserClass(_, p) => Depth(p) + 1
    case _ => 4
  }

  function Superclass(c: JavaClass): (p: JavaClass)
    requires c != JavaObject
    ensures Depth(p) + 1 == Depth(c)
    ensures IsBootEvent(p) ==> c.UserClass?
    ensures !c.UserClass? ==> !p.UserClass?
  {
    match c
    case EventObject => JavaObject
    case ApplicationEvent => EventObject
    case SpringApplicationEvent => ApplicationEvent
    case SpringApplication => JavaObject
    case ClassClass => JavaObject
    case ParameterizedTypeImpl => JavaObject
    case EmptyType => JavaObject
    case UserClass(_, p) => p
    case _ => SpringApplicationEvent
  }

  /** `c` is `d` or one of its subclasses: `d.isAssignableFrom(c)`. */
  predicate IsSubclassOf(c: JavaClass, d: JavaClass)
    decreases Depth(c)
  {
    c == d || (c != JavaObject && IsSubclassOf(Superclass(c), d))
  }

  /** `cls.isInstance(v)` (equivalently `v instanceof cls`) for a value `v` whose runtime class is `valueClass`. */
  predicate IsInstance(cls: JavaClass, valueClass: JavaClass) {
    IsSubclassOf(valueClass, cls)
  }

  /** The runtime class of a class literal `X.class`: java.lang.Class, whatever X is. */
  function ClassOfClassLiteral(x: JavaClass): JavaClass {
    ClassClass
  }

  /** What `ResolvableType.getType()` returns: a plain class, a parameterized type, or nothing. */
  datatype TypeDescriptor =
    | ClassType(cls: JavaClass)
    | ParameterizedType(raw: JavaClass, arguments: seq<JavaClass>)
    | NoType

  /** `eventType.getType().getClass()`: the runtime class of the reflective type object. */
  function TypeObjectClass(t: TypeDescriptor): JavaClass {
    match t
    case ClassType(_) => ClassClass
    case ParameterizedType(_, _) => ParameterizedTypeImpl
    case NoType => EmptyType
  }

  /**
   No framework class extends a lifecycle event class, so for a framework
   class `instanceof` on a lifecycle event class is an exact class test. The
   classes are not final: a user class is an instance exactly when its
   superclass is.
   */
  lemma {:induction false} BootEventSubclasses(c: JavaClass, d: JavaClass)
    requires IsBootEvent(d)
    ensures !c.UserClass? ==> (IsSubclassOf(c, d) <==> c == d)
    ensures c.UserClass? ==> (IsSubclassOf(c, d) <==> IsSubclassOf(c.superclass, d))
    decreases Depth(c)
  {
    if !c.UserClass? && c != d && c != JavaObject {
      BootEventSubclasses(Superclass(c), d);
    }
  }
}
