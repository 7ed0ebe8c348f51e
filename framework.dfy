/**
 The collaborators of the run listener: lifecycle events, application
 listeners, the application context and the event multicaster, together with
 the delivery rule a multicaster applies when it broadcasts an event.
 The context and the multicaster are recording classes: they keep the
 listeners registered on them and the events sent through them.
 */
module Framework {
  import opened JavaTypes
  import MyListener

  /** A snapshot of the prepared environment; its contents play no part here. */
  datatype Environment = Environment(activeProfiles: seq<string>)

  /** The exception a failed run reports. */
  datatype Throwable = Throwable(message: string)

  /** A SpringApplication: its runtime class and what `getListeners()` returns. */
  datatype Application = Application(cls: JavaClass, listeners: seq<Listener>)

  /** The phase-specific part of a lifecycle event, one constructor per event class. */
  datatype Payload =
    | StartingEvent
    | EnvironmentPreparedEvent(environment: Environment)
    | ContextInitializedEvent(initializedContext: ApplicationContext?)
    | PreparedEvent(preparedContext: ApplicationContext?)
    | StartedEvent(context: ApplicationContext)
    | ReadyEvent(context: ApplicationContext)
    | FailedEvent(failedContext: ApplicationContext?, exception: Throwable)

  /** A lifecycle event: its source application, the program arguments and its payload. */
  datatype Event = Event(application: Application, args: seq<string>, payload: Payload)

  /** The runtime class of the event object built for a payload. */
  function EventClass(p: Payload): (c: JavaClass)
    ensures IsBootEvent(c) && IsSubclassOf(c, SpringApplicationEvent)
  {
    match p
    case StartingEvent => ApplicationStartingEvent
    case EnvironmentPreparedEvent(_) => ApplicationEnvironmentPreparedEvent
    case ContextInitializedEvent(_) => ApplicationContextInitializedEvent
    case PreparedEvent(_) => ApplicationPreparedEvent
    case StartedEvent(_) => ApplicationStartedEvent
    case ReadyEvent(_) => ApplicationReadyEvent
    case FailedEvent(_, _) => ApplicationFailedEvent
  }

  /** The resolved type of an event: its (non-generic) runtime class. */
  function EventType(e: Event): TypeDescriptor {
    ClassType(EventClass(e.payload))
  }

  /** The source of every lifecycle event is the application. */
  function SourceType(e: Event): JavaClass {
    e.application.cls
  }

  /**
   What a listener is. `Demo` is the demo's MyListener; `Subscriber` stands for
   any other listener, interested in the events whose class is one of
   `eventClasses` or a subclass, raised by a source whose class is one of
   `sourceClasses` or a subclass; `contextAware` says whether it implements
   ApplicationContextAware.
   */
  datatype ListenerKind =
    | Demo
    | Subscriber(eventClasses: set<JavaClass>, sourceClasses: set<JavaClass>, contextAware: bool)

  class Listener {
    const kind: ListenerKind
    /** The context last handed to `setApplicationContext`, if any. */
    var context: ApplicationContext?

    constructor (kind: ListenerKind)
      ensures this.kind == kind && context == null
    {
      this.kind := kind;
      context := null;
    }

    predicate ContextAware() {
      kind.Subscriber? && kind.contextAware
    }

    method SetApplicationContext(c: ApplicationContext)
      requires ContextAware()
      modifies this
      ensures context == c
    {
      context := c;
    }
  }

  predicate SupportsEventType(l: Listener, t: TypeDescriptor) {
    match l.kind
    case Demo => MyListener.SupportsEventType(t)
    case Subscriber(events, _, _) => t.ClassType? && exists d :: d in events && IsSubclassOf(t.cls, d)
  }

  predicate SupportsSourceType(l: Listener, s: JavaClass) {
    match l.kind
    case Demo => MyListener.SupportsSourceType(s)
    case Subscriber(_, sources, _) => exists d :: d in sources && IsSubclassOf(s, d)
  }

  /**
   The delivery rule: a listener gets an event when it supports both its type
   and its source type. MyListener gets every lifecycle event.
   */
  predicate Accepts(l: Listener, e: Event)
    ensures l.kind.Demo? ==> Accepts(l, e)
  {
    SupportsEventType(l, EventType(e)) && SupportsSourceType(l, SourceType(e))
  }

  /** `r` is `s` with some elements dropped, the rest kept in order. */
  predicate IsSubsequence<T(==)>(r: seq<T>, s: seq<T>)
    decreases |s|
  {
    if r == [] then true
    else if s == [] then false
    else if r[0] == s[0] then IsSubsequence(r[1..], s[1..])
    else IsSubsequence(r, s[1..])
  }

  /** The listeners of `ls` that get `e`, in the order they are registered. */
  function Receivers(ls: seq<Listener>, e: Event): (r: seq<Listener>)
    ensures |r| <= |ls|
    ensures forall l | l in r :: l in ls && Accepts(l, e)
  {
    if ls == [] then []
    else if Accepts(ls[0], e) then [ls[0]] + Receivers(ls[1..], e)
    else Receivers(ls[1..], e)
  }

  /** Every registered listener that accepts the event is among its receivers. */
  lemma {:induction false} ReceiversComplete(ls: seq<Listener>, e: Event, l: Listener)
    requires l in ls && Accepts(l, e)
    ensures l in Receivers(ls, e)
  {
    if ls[0] != l {
      ReceiversComplete(ls[1..], e, l);
    }
  }

  /** Receivers are invoked in registration order: they form a subsequence of the registry. */
  lemma {:induction false} ReceiversInOrder(ls: seq<Listener>, e: Event)
    ensures IsSubsequence(Receivers(ls, e), ls)
  {
    if ls != [] {
      ReceiversInOrder(ls[1..], e);
      var r := Receivers(ls, e);
      if !Accepts(ls[0], e) && r != [] {
        assert r[0] in r;
      }
    }
  }

  /** Filtering a concatenation filters each part. */
  lemma {:induction false} ReceiversAppend(a: seq<Listener>, b: seq<Listener>, e: Event)
    ensures Receivers(a + b, e) == Receivers(a, e) + Receivers(b, e)
  {
    if a == [] {
      assert a + b == b;
    } else {
      assert (a + b)[0] == a[0] && (a + b)[1..] == a[1..] + b;
      ReceiversAppend(a[1..], b, e);
    }
  }

  /** Which handler a multicaster routes listener failures to. */
  datatype ErrorHandler = NoErrorHandler | LoggingErrorHandler

  /**
   One listener invocation: the listener, the event, the context the listener
   held when it was invoked, and whether it wrote the demo's console line.
   */
  datatype Delivery = Delivery(listener: Listener, event: Event, contextSeen: ApplicationContext?, printed: bool)

  function Deliver(l: Listener, e: Event): Delivery
    reads l
  {
    Delivery(l, e, l.context, l.kind.Demo? && MyListener.OnApplicationEvent(EventClass(e.payload)))
  }

  /** The invocations, in order, of the listeners `rs` with event `e`. */
  function Deliveries(rs: seq<Listener>, e: Event): (ds: seq<Delivery>)
    reads rs
    ensures |ds| == |rs|
    ensures forall i | 0 <= i < |rs| :: ds[i] == Deliver(rs[i], e)
  {
    if rs == [] then [] else [Deliver(rs[0], e)] + Deliveries(rs[1..], e)
  }

  lemma {:induction false} DeliveriesAppend(a: seq<Listener>, b: seq<Listener>, e: Event)
    ensures Deliveries(a + b, e) == Deliveries(a, e) + Deliveries(b, e)
  {
    if a == [] {
      assert a + b == b;
    } else {
      assert (a + b)[0] == a[0] && (a + b)[1..] == a[1..] + b;
      DeliveriesAppend(a[1..], b, e);
    }
  }

  /** The invocations a multicaster makes, accumulated listener by listener from the front of `ls`. */
  function Broadcast(ls: seq<Listener>, e: Event): (ds: seq<Delivery>)
    reads ls
    ensures |ds| <= |ls|
    ensures forall d | d in ds :: d.event == e && Accepts(d.listener, e)
  {
    if ls == [] then []
    else
      var last := ls[|ls| - 1];
      Broadcast(ls[..|ls| - 1], e) + (if Accepts(last, e) then [Deliver(last, e)] else [])
  }

  /**
   One more listener: its invocation, if it accepts the event, follows those
   of the listeners before it (and whatever was delivered before them).
   */
  lemma BroadcastStep(before: seq<Delivery>, ls: seq<Listener>, i: nat, e: Event)
    requires i < |ls|
    ensures before + Broadcast(ls[..i + 1], e)
         == before + Broadcast(ls[..i], e) + (if Accepts(ls[i], e) then [Deliver(ls[i], e)] else [])
  {
    assert ls[..i + 1][..i] == ls[..i];
  }

  /** Accumulating invocations one listener at a time invokes exactly the receivers, in order. */
  lemma {:induction false} BroadcastDelivers(ls: seq<Listener>, e: Event)
    ensures Broadcast(ls, e) == Deliveries(Receivers(ls, e), e)
  {
    if ls != [] {
      var init, last := ls[..|ls| - 1], ls[|ls| - 1];
      assert ls == init + [last];
      BroadcastDelivers(init, e);
      ReceiversAppend(init, [last], e);
      DeliveriesAppend(Receivers(init, e), Receivers([last], e), e);
    }
  }

  /**
   MyListener receives every lifecycle event, since each has a plain-class
   type, and it writes its line exactly when the event is a starting event.
   */
  lemma DemoReceivesEveryEvent(l: Listener, e: Event)
    requires l.kind == Demo
    ensures Accepts(l, e)
    ensures Deliver(l, e).printed <==> e.payload.StartingEvent?
  {
  }

  /** A listener subscribed only to ApplicationFailedEvent from a SpringApplication gets only failure events. */
  lemma {:induction false} FailureOnlySubscriber(l: Listener, e: Event)
    requires l.kind.Subscriber? && l.kind.eventClasses == {ApplicationFailedEvent}
    requires l.kind.sourceClasses == {SpringApplication} && e.application.cls == SpringApplication
    ensures Accepts(l, e) <==> e.payload.FailedEvent?
  {
    BootEventSubclasses(EventClass(e.payload), ApplicationFailedEvent);
  }

  /** The downstream application context, as far as the run listener uses it. */
  class ApplicationContext {
    /** Whether the context is an AbstractApplicationContext. */
    const isAbstract: bool
    var active: bool
    var listeners: seq<Listener>
    /** Events handed to `publishEvent`, in order. */
    var published: seq<Event>

    constructor (isAbstract: bool, active: bool)
      ensures this.isAbstract == isAbstract && this.active == active
      ensures listeners == [] && published == []
    {
      this.isAbstract := isAbstract;
      this.active := active;
      listeners := [];
      published := [];
    }

    /** `isActive()`: whether the context is refreshed and not yet closed. */
    function IsActive(): (r: bool)
      reads this
      ensures r <==> active
    {
      active
    }

    /** `getApplicationListeners()` of an AbstractApplicationContext: the listeners registered on it, in order. */
    function GetApplicationListeners(): (r: seq<Listener>)
      requires isAbstract
      reads this
      ensures r == listeners
    {
      listeners
    }

    method AddApplicationListener(l: Listener)
      modifies this
      ensures listeners == old(listeners) + [l]
      ensures active == old(active) && published == old(published)
    {
      listeners := listeners + [l];
    }

    method PublishEvent(e: Event)
      modifies this
      ensures published == old(published) + [e]
      ensures active == old(active) && listeners == old(listeners)
    {
      published := published + [e];
    }
  }

  /** A SimpleApplicationEventMulticaster: registered listeners, error handler, and what it broadcast. */
  class Multicaster {
    var listeners: seq<Listener>
    var errorHandler: ErrorHandler
    /** Events handed to `multicastEvent`, in order. */
    var log: seq<Event>
    /** Listener invocations, in order. */
    var delivered: seq<Delivery>

    constructor ()
      ensures listeners == [] && errorHandler == NoErrorHandler && log == [] && delivered == []
    {
      listeners := [];
      errorHandler := NoErrorHandler;
      log := [];
      delivered := [];
    }

    method AddApplicationListener(l: Listener)
      modifies this
      ensures listeners == old(listeners) + [l]
      ensures errorHandler == old(errorHandler) && log == old(log) && delivered == old(delivered)
    {
      listeners := listeners + [l];
    }

    method SetErrorHandler(h: ErrorHandler)
      modifies this
      ensures errorHandler == h
      ensures listeners == old(listeners) && log == old(log) && delivered == old(delivered)
    {
      errorHandler := h;
    }

    /** Invokes, one after another in registration order, every listener that accepts `e`. */
    method MulticastEvent(e: Event)
      modifies this
      ensures listeners == old(listeners) && errorHandler == old(errorHandler)
      ensures log == old(log) + [e]
      ensures delivered == old(delivered) + Deliveries(Receivers(listeners, e), e)
    {
      log := log + [e];
      InvokeListeners(listeners, e);
      BroadcastDelivers(listeners, e);
    }

    /** The invocation loop of `multicastEvent`: each of `ls` in turn, when it accepts `e`. */
    method InvokeListeners(ls: seq<Listener>, e: Event)
      modifies this
      ensures delivered == old(delivered) + Broadcast(ls, e)
      ensures listeners == old(listeners) && errorHandler == old(errorHandler) && log == old(log)
    {
      for i := 0 to |ls|
        invariant delivered == old(delivered) + Broadcast(ls[..i], e)
        invariant listeners == old(listeners) && errorHandler == old(errorHandler) && log == old(log)
      {
        InvokeListener(ls[i], e);
        BroadcastStep(old(delivered), ls, i, e);
      }
      assert ls[..|ls|] == ls;
    }

    /** Hands `e` to `l` when `l` accepts it. */
    method InvokeListener(l: Listener, e: Event)
      modifies this
      ensures delivered == old(delivered) + (if Accepts(l, e) then [Deliver(l, e)] else [])
      ensures listeners == old(listeners) && errorHandler == old(errorHandler) && log == old(log)
    {
      if Accepts(l, e) {
        delivered := delivered + [Deliver(l, e)];
      }
    }
  }
}
