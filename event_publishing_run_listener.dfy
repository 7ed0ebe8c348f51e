/**
 EventPublishingRunListener: the SpringApplicationRunListener that turns each
 bootstrap phase into one lifecycle event. The first four phases broadcast
 through the listener's own `initialMulticaster`; `started` and `running`
 publish through the context; `failed` publishes through the context while it
 is active and otherwise falls back to the own multicaster, after pulling in
 the context's listeners and installing the logging error handler.
 */
module RunListener {
  import opened JavaTypes
  import opened Framework

  class EventPublishingRunListener {
    const application: Application
    const args: seq<string>
    const initialMulticaster: Multicaster

    /**
     What every phase keeps: the application's listeners stay registered on
     the own multicaster, in front, and every event broadcast there carries
     this run's application and arguments.
     */
    ghost predicate Valid()
      reads this, initialMulticaster
    {
      && application.listeners <= initialMulticaster.listeners
      && (forall e | e in initialMulticaster.log :: e.application == application && e.args == args)
      && (forall d | d in initialMulticaster.delivered :: d.event in initialMulticaster.log)
    }

    /** The event of the given phase, built from this run's application and arguments. */
    function EventOf(p: Payload): (e: Event)
      ensures e.application == application && e.args == args && e.payload == p
    {
      Event(application, args, p)
    }

    constructor (application: Application, args: seq<string>)
      ensures this.application == application && this.args == args
      ensures fresh(initialMulticaster)
      ensures initialMulticaster.listeners == application.listeners
      ensures initialMulticaster.errorHandler == NoErrorHandler
      ensures initialMulticaster.log == [] && initialMulticaster.delivered == []
      ensures Valid()
    {
      this.application := application;
      this.args := args;
      var m := new Multicaster();
      var ls := application.listeners;
      for i := 0 to |ls|
        invariant m.listeners == ls[..i]
        invariant m.errorHandler == NoErrorHandler && m.log == [] && m.delivered == []
      {
        m.AddApplicationListener(ls[i]);
      }
      assert ls[..|ls|] == ls;
      initialMulticaster := m;
    }

    function GetOrder(): (r: int)
      ensures r == 0
    {
      0
    }

    method Starting()
      requires Valid()
      modifies initialMulticaster
      ensures Valid()
      ensures var ev := EventOf(StartingEvent);
        && initialMulticaster.log == old(initialMulticaster.log) + [ev]
        && initialMulticaster.delivered == old(initialMulticaster.delivered)
             + Deliveries(Receivers(initialMulticaster.listeners, ev), ev)
      ensures initialMulticaster.listeners == old(initialMulticaster.listeners)
      ensures initialMulticaster.errorHandler == old(initialMulticaster.errorHandler)
    {
      initialMulticaster.MulticastEvent(EventOf(StartingEvent));
    }

    method EnvironmentPrepared(environment: Environment)
      requires Valid()
      modifies initialMulticaster
      ensures Valid()
      ensures var ev := EventOf(EnvironmentPreparedEvent(environment));
        && initialMulticaster.log == old(initialMulticaster.log) + [ev]
        && initialMulticaster.delivered == old(initialMulticaster.delivered)
             + Deliveries(Receivers(initialMulticaster.listeners, ev), ev)
      ensures initialMulticaster.listeners == old(initialMulticaster.listeners)
      ensures initialMulticaster.errorHandler == old(initialMulticaster.errorHandler)
    {
      initialMulticaster.MulticastEvent(EventOf(EnvironmentPreparedEvent(environment)));
    }

    method ContextPrepared(context: ApplicationContext?)
      requires Valid()
      modifies initialMulticaster
      ensures Valid()
      ensures var ev := EventOf(ContextInitializedEvent(context));
        && initialMulticaster.log == old(initialMulticaster.log) + [ev]
        && initialMulticaster.delivered == old(initialMulticaster.delivered)
             + Deliveries(Receivers(initialMulticaster.listeners, ev), ev)
      ensures initialMulticaster.listeners == old(initialMulticaster.listeners)
      ensures initialMulticaster.errorHandler == old(initialMulticaster.errorHandler)
    {
      initialMulticaster.MulticastEvent(EventOf(ContextInitializedEvent(context)));
    }

    /**
     Registers every application listener on the context, handing the context
     to the context-aware ones, and only then broadcasts the prepared event
     through the own multicaster: a context-aware application listener that
     receives it already holds the context.
     */
    method ContextLoaded(context: ApplicationContext?)
      requires Valid()
      requires context == null ==> application.listeners == []
      modifies initialMulticaster, context, application.listeners
      ensures Valid()
      ensures context != null ==> context.listeners == old(context.listeners) + application.listeners
      ensures context != null ==> context.published == old(context.published) && context.active == old(context.active)
      ensures forall l | l in application.listeners ::
                l.context == if l.ContextAware() then context else old(l.context)
      ensures var ev := EventOf(PreparedEvent(context));
        && initialMulticaster.log == old(initialMulticaster.log) + [ev]
        && initialMulticaster.delivered == old(initialMulticaster.delivered)
             + Deliveries(Receivers(initialMulticaster.listeners, ev), ev)
      ensures initialMulticaster.listeners == old(initialMulticaster.listeners)
      ensures initialMulticaster.errorHandler == old(initialMulticaster.errorHandler)
      ensures forall i | |old(initialMulticaster.delivered)| <= i < |initialMulticaster.delivered| ::
                var d := initialMulticaster.delivered[i];
                d.listener in application.listeners && d.listener.ContextAware() ==> d.contextSeen == context
    {
      if context != null {
        RegisterListeners(context);
      }
      initialMulticaster.MulticastEvent(EventOf(PreparedEvent(context)));
    }

    /** The registration loop of `contextLoaded`: every application listener onto the context, in order. */
    method RegisterListeners(context: ApplicationContext)
      modifies context, application.listeners
      ensures context.listeners == old(context.listeners) + application.listeners
      ensures context.published == old(context.published) && context.active == old(context.active)
      ensures forall l | l in application.listeners ::
                l.context == if l.ContextAware() then context else old(l.context)
    {
      var ls := application.listeners;
      for i := 0 to |ls|
        invariant context.listeners == old(context.listeners) + ls[..i]
        invariant context.published == old(context.published) && context.active == old(context.active)
        invariant forall l | l in ls ::
                    l.context == if l.ContextAware() && l in ls[..i] then context else old(l.context)
      {
        var l := ls[i];
        if l.ContextAware() {
          l.SetApplicationContext(context);
        }
        context.AddApplicationListener(l);
        assert ls[..i + 1] == ls[..i] + [l];
      }
      assert ls[..|ls|] == ls;
    }

    method Started(context: ApplicationContext)
      requires Valid()
      modifies context
      ensures context.published == old(context.published) + [EventOf(StartedEvent(context))]
      ensures context.listeners == old(context.listeners) && context.active == old(context.active)
      ensures unchanged(initialMulticaster)
    {
      context.PublishEvent(EventOf(StartedEvent(context)));
    }

    method Running(context: ApplicationContext)
      requires Valid()
      modifies context
      ensures context.published == old(context.published) + [EventOf(ReadyEvent(context))]
      ensures context.listeners == old(context.listeners) && context.active == old(context.active)
      ensures unchanged(initialMulticaster)
    {
      context.PublishEvent(EventOf(ReadyEvent(context)));
    }

    /**
     With a live context, publishes the failure event through it. Otherwise
     the own multicaster takes over: the context's listeners (when it is an
     AbstractApplicationContext) are appended to it, the logging error handler
     is installed, and the event is broadcast there, reaching every interested
     listener of the application and of the context.
     */
    method Failed(context: ApplicationContext?, exception: Throwable)
      requires Valid()
      modifies initialMulticaster, context
      ensures Valid()
      ensures var ev := EventOf(FailedEvent(context, exception));
        if context != null && old(context.active) then
          && context.published == old(context.published) + [ev]
          && context.listeners == old(context.listeners) && context.active == old(context.active)
          && unchanged(initialMulticaster)
        else
          && (context != null ==> unchanged(context))
          && initialMulticaster.listeners == old(initialMulticaster.listeners)
               + (if context != null && context.isAbstract then old(context.listeners) else [])
          && initialMulticaster.errorHandler == LoggingErrorHandler
          && initialMulticaster.log == old(initialMulticaster.log) + [ev]
          && initialMulticaster.delivered == old(initialMulticaster.delivered)
               + Deliveries(Receivers(initialMulticaster.listeners, ev), ev)
      ensures var ev := EventOf(FailedEvent(context, exception));
        !(context != null && old(context.active)) ==>
          forall l | (l in application.listeners || (context != null && context.isAbstract && l in old(context.listeners)))
                     && Accepts(l, ev) :: l in Receivers(initialMulticaster.listeners, ev)
    {
      var event := EventOf(FailedEvent(context, exception));
      if context != null && context.IsActive() {
        context.PublishEvent(event);
      } else {
        if context != null && context.isAbstract {
          AddToMulticaster(context.GetApplicationListeners());
        }
        initialMulticaster.SetErrorHandler(LoggingErrorHandler);
        initialMulticaster.MulticastEvent(event);
        forall l | l in initialMulticaster.listeners && Accepts(l, event)
          ensures l in Receivers(initialMulticaster.listeners, event)
        {
          ReceiversComplete(initialMulticaster.listeners, event, l);
        }
      }
    }

    /** The merge loop of `failed`: each of `ls`, in order, registered on the own multicaster. */
    method AddToMulticaster(ls: seq<Listener>)
      requires Valid()
      modifies initialMulticaster
      ensures Valid()
      ensures initialMulticaster.listeners == old(initialMulticaster.listeners) + ls
      ensures initialMulticaster.errorHandler == old(initialMulticaster.errorHandler)
      ensures initialMulticaster.log == old(initialMulticaster.log)
      ensures initialMulticaster.delivered == old(initialMulticaster.delivered)
    {
      for i := 0 to |ls|
        invariant initialMulticaster.listeners == old(initialMulticaster.listeners) + ls[..i]
        invariant initialMulticaster.errorHandler == old(initialMulticaster.errorHandler)
        invariant initialMulticaster.log == old(initialMulticaster.log)
        invariant initialMulticaster.delivered == old(initialMulticaster.delivered)
      {
        initialMulticaster.AddApplicationListener(ls[i]);
        assert ls[..i + 1] == ls[..i] + [ls[i]];
      }
      assert ls[..|ls|] == ls;
    }
  }
}
