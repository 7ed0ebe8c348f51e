# Spring Boot lifecycle run listener, modelled in Dafny

This project models the part of Spring Boot that turns each bootstrap phase
of a `SpringApplication` run into one lifecycle event: the
`EventPublishingRunListener`, the collaborators it talks to (the event
multicaster, the application context, the application listeners), the rule by
which a multicaster picks the listeners that get an event, and the demo's
`MyListener`, a concrete listener for that rule.

- `java_types.dfy` (module `JavaTypes`): the Java classes involved (the
  seven lifecycle event classes and their superclasses, `java.lang.Class`,
  the runtime classes of reflective type objects), `instanceof` and
  `Class.isInstance` over that hierarchy, and the three shapes of
  `ResolvableType.getType()`: a plain class, a parameterized type, or none.
- `my_listener.dfy` (module `MyListener`): the demo listener's
  `supportsEventType`, `supportsSourceType`, `getOrder` and
  `onApplicationEvent`, as pure functions. The listener has no fields, so each
  result depends only on the argument and no call changes any state.
- `framework.dfy` (module `Framework`): lifecycle events (application,
  arguments, phase payload); listeners as objects (a listener kind and the
  context last handed to `setApplicationContext`); the delivery rule
  `Accepts` (event type AND source type supported) and `Receivers`, the
  accepting listeners in registration order; the application context and the
  multicaster as recording classes. The context keeps its registered
  listeners, its `active` flag, whether it is an `AbstractApplicationContext`,
  and the events published through it. The multicaster keeps its listeners,
  its error handler, the events broadcast through it and every listener
  invocation it made.
- `event_publishing_run_listener.dfy` (module `RunListener`): the class
  `EventPublishingRunListener` with its `application`, `args` and
  `initialMulticaster`, and one method per phase. Its invariant `Valid()`
  says that the application's listeners stay registered, in front, on the
  own multicaster, and that every event broadcast there carries this run's
  application and arguments.

`MyListener.supportsEventType` is modelled as the code is written. It tests
whether `ApplicationStartingEvent.class` is an instance of the runtime class of
`eventType.getType()`. A class literal is an instance of `java.lang.Class`, so
the test holds for every plain-class event type, whatever class that type names,
and fails for parameterized and empty types. It does not single out starting
events, despite the comment beside it. The check reads as if it rarely holds;
it holds for every plain class. Every lifecycle event resolves to a plain class,
so MyListener receives every lifecycle event. Among the framework's own event
classes it writes its console line only for `ApplicationStartingEvent`, because
of the `instanceof` test in `onApplicationEvent` (lemma
`Framework.DemoReceivesEveryEvent`). The lifecycle event classes are not final,
so the model also has user-defined classes (`UserClass`, with a superclass): an
event of a user subclass of `ApplicationStartingEvent` makes it write the line
too.

Listeners other than MyListener are represented by `Subscriber`. A subscriber
declares the event classes and source classes it is interested in, subclasses
included, and whether it is context-aware.

## Model

| member | source | states |
|---|---|---|
| `JavaTypes.BootEventSubclasses` | demo-test-springboot/src/main/java/com/on/listener/MyListener.java:49 | no framework class extends a lifecycle event class, so for framework classes `instanceof` on one holds exactly for that class itself; a user class is an instance exactly when its superclass is |
| `MyListener.SupportsEventType` | demo-test-springboot/src/main/java/com/on/listener/MyListener.java:27-32 | true exactly for plain-class event types, so it gives the same answer for every class it could name; false for parameterized and empty types |
| `MyListener.SupportsSourceType` | demo-test-springboot/src/main/java/com/on/listener/MyListener.java:35-38 | true for every source type |
| `MyListener.GetOrder` | demo-test-springboot/src/main/java/com/on/listener/MyListener.java:41-44 | always 0 |
| `MyListener.OnApplicationEvent` | demo-test-springboot/src/main/java/com/on/listener/MyListener.java:48-51 | for an event of a framework class, the console line is written exactly when it is an ApplicationStartingEvent; for an event of a user class, exactly when its superclass is ApplicationStartingEvent or a subclass of it |
| `MyListener.Subscribed` | demo-test-springboot/src/main/java/com/on/listener/MyListener.java:20-23 | subscription needs both predicates; since the source predicate is constantly true it reduces to `SupportsEventType` alone, i.e. to the type being a plain class |
| `Framework.EventClass` | spring-boot-project/spring-boot/src/main/java/org/springframework/boot/context/event/EventPublishingRunListener.java:96-164 | each phase builds an event of its own lifecycle event class, a subclass of SpringApplicationEvent |
| `Framework.Accepts` | spring-boot-project/spring-boot/src/main/java/org/springframework/boot/context/event/EventPublishingRunListener.java:86-89 | a listener is subscribed to an event when it supports both the event's type and its source type; MyListener is subscribed to every lifecycle event |
| `Framework.Receivers` | spring-boot-project/spring-boot/src/main/java/org/springframework/boot/context/event/EventPublishingRunListener.java:85-89 | the listeners picked for an event are registered listeners that support both its event type and its source type |
| `Framework.ReceiversComplete` | spring-boot-project/spring-boot/src/main/java/org/springframework/boot/context/event/EventPublishingRunListener.java:85-89 | conversely, every registered listener supporting both is picked |
| `Framework.ReceiversInOrder` | spring-boot-project/spring-boot/src/main/java/org/springframework/boot/context/event/EventPublishingRunListener.java:88-92 | the picked listeners keep the registry's order (they form a subsequence of it) |
| `Framework.ReceiversAppend` | spring-boot-project/spring-boot/src/main/java/org/springframework/boot/context/event/EventPublishingRunListener.java:174-180 | picking from a registry extended by merged listeners picks from the old part, then from the merged part |
| `Framework.Deliveries` | spring-boot-project/spring-boot/src/main/java/org/springframework/boot/context/event/EventPublishingRunListener.java:90-92 | one invocation per receiver, in the receivers' order: the i-th invocation hands the event to the i-th receiver, recording the context it holds and whether it writes the demo's line |
| `Framework.DeliveriesAppend` | spring-boot-project/spring-boot/src/main/java/org/springframework/boot/context/event/EventPublishingRunListener.java:90-92 | invoking a concatenation of receivers invokes the first part, then the second |
| `Framework.Broadcast` | spring-boot-project/spring-boot/src/main/java/org/springframework/boot/context/event/EventPublishingRunListener.java:79-92 | the invocations a multicaster accumulates while going through its listeners: at most one per listener, each with this event and to a listener that accepts it (`Framework.BroadcastDelivers` relates it to the receivers) |
| `Framework.BroadcastStep` | spring-boot-project/spring-boot/src/main/java/org/springframework/boot/context/event/EventPublishingRunListener.java:90-92 | going one listener further appends that listener's invocation, when it accepts the event, after all the earlier ones |
| `Framework.BroadcastDelivers` | spring-boot-project/spring-boot/src/main/java/org/springframework/boot/context/event/EventPublishingRunListener.java:90-92 | going through the registry one listener at a time and invoking each that accepts invokes exactly the receivers, one after another in order |
| `Framework.DemoReceivesEveryEvent` | demo-test-springboot/src/main/java/com/on/listener/MyListener.java:27-51 | MyListener accepts every lifecycle event and writes its line exactly for the starting event |
| `Framework.FailureOnlySubscriber` | spring-boot-project/spring-boot/src/main/java/org/springframework/boot/context/event/EventPublishingRunListener.java:85-89 | a listener interested only in ApplicationFailedEvent from a SpringApplication accepts an event exactly when it is a failure event |
| `Framework.Listener.SetApplicationContext` | spring-boot-project/spring-boot/src/main/java/org/springframework/boot/context/event/EventPublishingRunListener.java:127-128 | a context-aware listener records the context it is given |
| `Framework.ApplicationContext.IsActive` | spring-boot-project/spring-boot/src/main/java/org/springframework/boot/context/event/EventPublishingRunListener.java:165 | `isActive()` answers the context's active flag |
| `Framework.ApplicationContext.GetApplicationListeners` | spring-boot-project/spring-boot/src/main/java/org/springframework/boot/context/event/EventPublishingRunListener.java:173-175 | available only on an AbstractApplicationContext; the listeners registered on the context, in registration order |
| `Framework.ApplicationContext.AddApplicationListener` | spring-boot-project/spring-boot/src/main/java/org/springframework/boot/context/event/EventPublishingRunListener.java:130 | the listener is appended to the context's listeners; nothing else changes |
| `Framework.ApplicationContext.PublishEvent` | spring-boot-project/spring-boot/src/main/java/org/springframework/boot/context/event/EventPublishingRunListener.java:142 | the event is appended to what the context published; nothing else changes |
| `Framework.Multicaster.AddApplicationListener` | spring-boot-project/spring-boot/src/main/java/org/springframework/boot/context/event/EventPublishingRunListener.java:59 | the listener is appended to the multicaster's listeners; nothing else changes |
| `Framework.Multicaster.SetErrorHandler` | spring-boot-project/spring-boot/src/main/java/org/springframework/boot/context/event/EventPublishingRunListener.java:179 | the error handler is replaced; nothing else changes |
| `Framework.Multicaster.MulticastEvent` | spring-boot-project/spring-boot/src/main/java/org/springframework/boot/context/event/EventPublishingRunListener.java:78-92 | the event is logged once, and exactly the accepting listeners are invoked with it, in registration order; listeners and error handler unchanged |
| `Framework.Multicaster.InvokeListeners` | spring-boot-project/spring-boot/src/main/java/org/springframework/boot/context/event/EventPublishingRunListener.java:79-92 | the invocation loop: after going through the given listeners, exactly their accumulated invocations are appended to what was delivered; nothing else changes |
| `Framework.Multicaster.InvokeListener` | spring-boot-project/spring-boot/src/main/java/org/springframework/boot/context/event/EventPublishingRunListener.java:90-92 | a listener is invoked with the event exactly when it accepts it |
| `RunListener.EventPublishingRunListener.constructor` | spring-boot-project/spring-boot/src/main/java/org/springframework/boot/context/event/EventPublishingRunListener.java:54-61 | `application` and `args` are the arguments; a fresh multicaster holds exactly the application's listeners in the same order, with no error handler and nothing broadcast |
| `RunListener.EventPublishingRunListener.GetOrder` | spring-boot-project/spring-boot/src/main/java/org/springframework/boot/context/event/EventPublishingRunListener.java:63-66 | always 0 |
| `RunListener.EventPublishingRunListener.Starting` | spring-boot-project/spring-boot/src/main/java/org/springframework/boot/context/event/EventPublishingRunListener.java:72-97 | exactly one ApplicationStartingEvent with this run's application and args is broadcast on the own multicaster, to its accepting listeners in order; its listeners and error handler stay; no context is touched |
| `RunListener.EventPublishingRunListener.EnvironmentPrepared` | spring-boot-project/spring-boot/src/main/java/org/springframework/boot/context/event/EventPublishingRunListener.java:105-108 | the same, for one ApplicationEnvironmentPreparedEvent carrying the given environment |
| `RunListener.EventPublishingRunListener.ContextPrepared` | spring-boot-project/spring-boot/src/main/java/org/springframework/boot/context/event/EventPublishingRunListener.java:115-118 | the same, for one ApplicationContextInitializedEvent carrying the given context, which may be null; the context itself is not touched |
| `RunListener.EventPublishingRunListener.ContextLoaded` | spring-boot-project/spring-boot/src/main/java/org/springframework/boot/context/event/EventPublishingRunListener.java:125-133 | every application listener is appended, in order, to the context's listeners (a null context is accepted when the application has no listeners); each context-aware one holds the context; only then is one ApplicationPreparedEvent broadcast on the own multicaster, so each context-aware application listener receiving it already holds the context; the multicaster's listeners and the context's published events are unchanged |
| `RunListener.EventPublishingRunListener.RegisterListeners` | spring-boot-project/spring-boot/src/main/java/org/springframework/boot/context/event/EventPublishingRunListener.java:126-131 | the registration loop: context listeners extended by the application's listeners in order, context handed to exactly the context-aware ones |
| `RunListener.EventPublishingRunListener.Started` | spring-boot-project/spring-boot/src/main/java/org/springframework/boot/context/event/EventPublishingRunListener.java:141-143 | exactly one ApplicationStartedEvent is published through the given context; the own multicaster is unchanged |
| `RunListener.EventPublishingRunListener.Running` | spring-boot-project/spring-boot/src/main/java/org/springframework/boot/context/event/EventPublishingRunListener.java:155-157 | exactly one ApplicationReadyEvent is published through the given context; the own multicaster is unchanged |
| `RunListener.EventPublishingRunListener.Failed` | spring-boot-project/spring-boot/src/main/java/org/springframework/boot/context/event/EventPublishingRunListener.java:163-182 | with a non-null active context, the failure event is published through it only and the multicaster is untouched; otherwise nothing is published through the context, the context's listeners are appended to the multicaster when it is an AbstractApplicationContext (nothing for null), the logging handler is installed, exactly one failure event carrying the context and the exception is broadcast there, and every accepting listener of the application or of the context receives it |
| `RunListener.EventPublishingRunListener.AddToMulticaster` | spring-boot-project/spring-boot/src/main/java/org/springframework/boot/context/event/EventPublishingRunListener.java:174-178 | the merge loop: the given listeners are appended in order, previously registered ones remain |

## Left out

- Ordering of receivers by `Ordered`/`@Order` priority: the multicaster's internals are not part of this model, so receivers are invoked in registration order and no stable sort by `getOrder()` is claimed.
- De-duplication on `addApplicationListener`: the multicaster and the context record every registration call; whether the real registry drops a listener that is already registered (for instance one merged back by `failed`) is not modelled.
- Listener failures and error containment: a listener's `onApplicationEvent` cannot fail in the model, so routing a failure to the error handler is not modelled; the error handler is kept only as a tag (`NoErrorHandler` or `LoggingErrorHandler`).
- `LoggingErrorHandler.handleError`: it only writes a log line; it is the `LoggingErrorHandler` tag.
- Delivery through the context (`publishEvent` reaching the context's listeners through its own multicaster): that code is not part of this model; the context records the published events.
- `setApplicationContext` on context-aware listeners: only the context handed over is recorded, no further effect.
- Console output of `MyListener.onApplicationEvent`: returned as a flag (and recorded in each invocation as `printed`); handlers of other listeners are not modelled.
- `SpringApplication.getListeners()`: taken as a given ordered sequence; how SpringApplication collects and orders it is not part of this model.
- The demo's entry point `TestApp` and the `DemoConfigurationProperties` bean: process start-up, property binding and console printing, with no logic of their own to verify.
- `JavaTypes.BootEventSubclasses`: only the Java classes the listeners look at are modelled; a user class has one superclass and no interfaces.
- `RunListener.EventPublishingRunListener.ContextLoaded`: a null context with at least one application listener is excluded by its precondition; there the source throws a NullPointerException at `context.addApplicationListener`, and exceptions are not modelled.
- `RunListener.EventPublishingRunListener.Started`, `RunListener.EventPublishingRunListener.Running`: the context parameter is non-null; a null context throws a NullPointerException at `context.publishEvent` in the source, which is not modelled.
- `RunListener.EventPublishingRunListener.ContextLoaded`: `application.getListeners()` is read once, when the run listener is built (`application` is a value), so the listeners registered on the context are the ones the own multicaster started with. The source calls `getListeners()` again here, and listeners added to the SpringApplication after construction would be registered on the context but are not in the model. `Valid()` relies on the same snapshot.
- The lifecycle order of the phase calls: the run listener does not enforce it, and neither does the model; each phase method is specified on its own.
