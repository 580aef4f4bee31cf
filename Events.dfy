/** The events the core publishes and the dispatcher it publishes them
    through. Listener bodies are not run: a listener is known by its
    identity, and a dispatch is recorded in the order it happens. */
module Events {
  import opened Values
  import ContextStore

  /** `ContextDehydrating` and `ContextHydrated` carry the repository; what
      is recorded is its contents at the moment of dispatch. */
  datatype Event =
    | ContextDehydrating(repository: ContextStore.Store)
    | ContextHydrated(repository: ContextStore.Store)
    | MessageLogged(level: string, message: string, context: map<string, Value>)

  /** A PHP closure registered as a listener, known only by identity. */
  datatype Closure = Closure(id: nat)

  const MessageLoggedClass := "Hybrid\\Log\\Events\\MessageLogged"

  class Dispatcher {
    /** Every event dispatched so far, oldest first. */
    var dispatched: seq<Event>
    /** Every (event class, listener) registration, oldest first. */
    var listeners: seq<(string, Closure)>

    constructor()
      ensures dispatched == [] && listeners == []
    {
      dispatched := [];
      listeners := [];
    }

    method Dispatch(e: Event)
      modifies this
      ensures dispatched == old(dispatched) + [e]
      ensures listeners == old(listeners)
    {
      dispatched := dispatched + [e];
    }

    method Listen(eventClass: string, callback: Closure)
      modifies this
      ensures listeners == old(listeners) + [(eventClass, callback)]
      ensures dispatched == old(dispatched)
    {
      listeners := listeners + [(eventClass, callback)];
    }
  }
}
