/**
 The demo's `MyListener`, a `GenericApplicationListener` with no fields.
 Each of its methods depends only on its argument, so each is a function here;
 the console line that `onApplicationEvent` may write is returned as a flag.
 */
module MyListener {
  import opened JavaTypes

  /**
   Event-type subscription, as written: the listener asks whether
   `ApplicationStartingEvent.class` is an instance of the runtime class of
   `eventType.getType()`. A class literal is an instance of java.lang.Class, so
   the answer is yes for every plain-class event type, whichever class it
   names, and no for parameterized and empty types.
   */
  function SupportsEventType(eventType: TypeDescriptor): (r: bool)
    ensures r <==> eventType.ClassType?
  {
    IsInstance(TypeObjectClass(eventType), ClassOfClassLiteral(ApplicationStartingEvent))
  }

  /** Source-type subscription: every source type is accepted. */
  function SupportsSourceType(sourceType: JavaClass): (r: bool)
    ensures r
  {
    true
  }

  /** Ordering priority of the listener. */
  function GetOrder(): (r: int)
    ensures r == 0
  {
    0
  }

  /**
   Whether handling an event of runtime class `eventClass` writes the
   listener's console line: for the framework's own event classes, exactly
   when the event is an ApplicationStartingEvent; for a user-defined event
   class, exactly when its superclass is (a subclass of) ApplicationStartingEvent.
   */
  function OnApplicationEvent(eventClass: JavaClass): (prints: bool)
    requires IsSubclassOf(eventClass, ApplicationEvent)
    ensures !eventClass.UserClass? ==> (prints <==> eventClass == ApplicationStartingEvent)
    ensures eventClass.UserClass? ==> (prints <==> IsSubclassOf(eventClass.superclass, ApplicationStartingEvent))
  {
    BootEventSubclasses(eventClass, ApplicationStartingEvent);
    IsInstance(ApplicationStartingEvent, eventClass)
  }

  /** The listener is subscribed to an event when both predicates hold. */
  function Subscribed(eventType: TypeDescriptor, sourceType: JavaClass): (r: bool)
    ensures r <==> SupportsEventType(eventType)
    ensures r <==> eventType.ClassType?
  {
    SupportsEventType(eventType) && SupportsSourceType(sourceType)
  }
}
