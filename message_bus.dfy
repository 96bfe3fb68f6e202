/**
 * `MessageBus`: a publish/subscribe registry that keeps, per topic, the
 * handlers in registration order. Handlers are values of a type parameter;
 * emitting a topic yields the calls it makes, in the order it makes them.
 */
module Bus {
  import opened Common

  /** Named payload fields; entity references are positions in the world list. */
  type Payload = map<string, int>

  /** The handler list a registry holds for a topic; an unknown topic has none. */
  function Lookup<T, H>(registry: map<T, seq<H>>, topic: T): seq<H> {
    if topic in registry then registry[topic] else []
  }

  /** One handler invocation: the handler and the payload it receives. */
  datatype Call<H> = Call(handler: H, payload: Payload)

  class MessageBus<T(==, !new), H> {
    /** `_handlers`: the handler list of every topic that has ever been registered since the last clear. */
    var handlers: map<T, seq<H>>

    /** `new MessageBus()`: no topic registered. */
    constructor()
      ensures handlers == map[]
    {
      handlers := map[];
    }

    /** The handler list of a topic. */
    function Registered(topic: T): seq<H>
      reads this
    {
      Lookup(handlers, topic)
    }

    /**
     * `on`: appends the handler to the topic's list, creating the list on
     * first use; duplicates are kept and no other topic changes.
     */
    method On(topic: T, handler: H)
      modifies this
      ensures handlers == old(handlers)[topic := Lookup(old(handlers), topic) + [handler]]
    {
      if topic !in handlers {
        handlers := handlers[topic := []];
      }
      handlers := handlers[topic := handlers[topic] + [handler]];
    }

    /**
     * `emit`: calls every handler registered for the topic, in registration
     * order, each with the payload or with an empty payload when none is
     * given; an unknown topic makes no call.
     */
    method Emit(topic: T, payload: Option<Payload>) returns (calls: seq<Call<H>>)
      ensures |calls| == |Registered(topic)|
      ensures forall k :: 0 <= k < |calls| ==>
        calls[k].handler == Registered(topic)[k] && calls[k].payload == payload.GetOr(map[])
      ensures topic !in handlers ==> calls == []
    {
      calls := [];
      if topic !in handlers {
        return;
      }
      var list := handlers[topic];
      var delivered := payload.GetOr(map[]);
      for i := 0 to |list|
        invariant |calls| == i
        invariant forall k :: 0 <= k < i ==> calls[k] == Call(list[k], delivered)
      {
        calls := calls + [Call(list[i], delivered)];
      }
    }

    /** `clear`: forgets every registration. */
    method Clear()
      modifies this
      ensures handlers == map[]
      ensures forall t :: Registered(t) == []
    {
      handlers := map[];
    }
  }
}
