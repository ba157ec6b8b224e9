/** The typed event queue: events are stored type-erased together with the id of
  * their type, handlers are registered per type id, and processing hands every
  * queued event to the handler of its id. Event types are represented by their
  * generated ids (non-negative, counted from 0); handlers by an opaque value `H`
  * standing for the bound member function or functor. Dispatch is returned as the
  * sequence of (handler, event) calls made. */
module EventQueue {
  import opened Wrappers
  import MQ = MessageQueue

  /** `EventPtr`: the stored id (-1 when empty) and the event it holds, if any. */
  datatype EventPtr<E> = EventPtr(id: int, event: Option<E>)

  /** A default-constructed `EventPtr`. */
  function EmptyPtr<E>(): (p: EventPtr<E>)
    ensures p.id == -1 && p.event.None?
  {
    EventPtr(-1, None)
  }

  /** `EventPtr::Emplace<TEvent>`: records the type's id and constructs the event. */
  function Emplace<E>(p: EventPtr<E>, typeId: int, e: E): (r: EventPtr<E>)
    ensures r.id == typeId && r.event == Some(e)
  {
    p.(id := typeId, event := Some(e))
  }

  /** `EventPtr::Get<TEvent>`: only for the type the pointer was emplaced with. */
  function Get<E>(p: EventPtr<E>, typeId: int): (e: E)
    requires p.id == typeId && p.event.Some?
    ensures Some(e) == p.event
  {
    p.event.value
  }

  /** `EventPtr::Destroy<TEvent>`: only for the type the pointer was emplaced with;
    * the id is left as it was. */
  function Destroy<E>(p: EventPtr<E>, typeId: int): (r: EventPtr<E>)
    requires p.id == typeId
    ensures r.id == p.id && r.event.None?
  {
    p.(event := None)
  }

  /** What emplacing stores, `Get` with the same type gives back. */
  lemma GetAfterEmplace<E>(p: EventPtr<E>, typeId: int, e: E)
    ensures Get(Emplace(p, typeId, e), typeId) == e
  {
  }

  /** A handler calls the user function on the event, then destroys it. */
  function Handle<E, H>(h: H, p: EventPtr<E>): (r: ((H, E), EventPtr<E>))
    requires p.event.Some?
    ensures r.0 == (h, p.event.value)
    ensures r.1.id == p.id && r.1.event.None?
  {
    ((h, Get(p, p.id)), Destroy(p, p.id))
  }

  /** `try_emplace`: an id that already has a handler keeps it. */
  function TryEmplace<H>(m: map<int, H>, k: int, v: H): (r: map<int, H>)
    ensures k in r && r[k] == (if k in m then m[k] else v)
    ensures forall j :: j != k ==> (j in r <==> j in m)
    ensures forall j :: j != k && j in m ==> r[j] == m[j]
  {
    if k in m then m else m[k := v]
  }

  /** `erase`: the id no longer has a handler; the others are kept. */
  function Erase<H>(m: map<int, H>, k: int): (r: map<int, H>)
    ensures k !in r
    ensures forall j :: j != k ==> (j in r <==> j in m)
    ensures forall j :: j != k && j in m ==> r[j] == m[j]
  {
    m - {k}
  }

  /** The first handler bound for an id wins over later ones. */
  lemma {:induction false} FirstBindWins<H>(m: map<int, H>, k: int, first: H, later: seq<H>)
    requires k !in m
    ensures BindAll(TryEmplace(m, k, first), k, later)[k] == first
    decreases |later|
  {
    if later != [] {
      FirstBindWins(m, k, first, later[1..]);
      assert BindAll(TryEmplace(m, k, first), k, later) == BindAll(TryEmplace(m, k, first), k, later[1..]);
    }
  }

  /** Binding several handlers for one id, in order. */
  function BindAll<H>(m: map<int, H>, k: int, hs: seq<H>): (r: map<int, H>)
    ensures k in m ==> k in r && r[k] == m[k]
    decreases |hs|
  {
    if hs == [] then m else BindAll(TryEmplace(m, k, hs[0]), k, hs[1..])
  }

  /** Unbinding then binding installs the new handler. */
  lemma RebindAfterUnbind<H>(m: map<int, H>, k: int, v: H)
    ensures TryEmplace(Erase(m, k), k, v)[k] == v
  {
  }

  /** The calls `ProcessEvents` makes for a batch of events under a handler table. */
  function Dispatch<E, H>(handlers: map<int, H>, events: seq<EventPtr<E>>): (calls: seq<(H, E)>)
    requires forall i :: 0 <= i < |events| ==> events[i].id in handlers && events[i].event.Some?
    ensures |calls| == |events|
    ensures forall i :: 0 <= i < |events| ==> calls[i] == (handlers[events[i].id], events[i].event.value)
  {
    if events == [] then []
    else [Handle(handlers[events[0].id], events[0]).0] + Dispatch(handlers, events[1..])
  }

  class EventQueue<E, H> {
    /** `mEvents`. */
    const events: MQ.MessageQueue<EventPtr<E>>
    /** `mHandlers`: type id to handler. */
    var handlers: map<int, H>

    /** Queued events always hold an event of a generated (non-negative) type id. */
    predicate Valid()
      reads this, events
    {
      events.Valid()
      && forall i :: 0 <= i < |events.write| ==> events.write[i].id >= 0 && events.write[i].event.Some?
    }

    constructor ()
      ensures Valid() && fresh(events)
      ensures events.write == [] && handlers == map[]
    {
      events := new MQ.MessageQueue();
      handlers := map[];
    }

    /** `Push` / `Emplace<Event>`: a fresh pointer holding the event is queued. */
    method Push(typeId: nat, e: E)
      requires Valid()
      modifies events
      ensures Valid()
      ensures events.write == old(events.write) + [EventPtr(typeId, Some(e))]
    {
      var p := Emplace(EmptyPtr(), typeId, e);
      events.Enqueue(p);
    }

    /** `Bind<TEvent>`: the first handler bound for a type id wins. */
    method Bind(typeId: nat, h: H)
      modifies this
      ensures handlers == TryEmplace(old(handlers), typeId, h)
    {
      handlers := TryEmplace(handlers, typeId, h);
    }

    /** `Unbind<TEvent>`. */
    method Unbind(typeId: nat)
      modifies this
      ensures handlers == Erase(old(handlers), typeId)
    {
      handlers := Erase(handlers, typeId);
    }

    /** `ProcessEvents`: every queued event, in order, goes to the handler of its id,
      * which must exist. */
    method ProcessEvents() returns (calls: seq<(H, E)>)
      requires Valid()
      requires forall i :: 0 <= i < |events.write| ==> events.write[i].id in handlers
      modifies events
      ensures Valid() && events.write == []
      ensures calls == Dispatch(handlers, old(events.write))
    {
      var batch := events.Process();
      calls := [];
      for i := 0 to |batch|
        modifies {}
        invariant calls == Dispatch(handlers, batch[..i])
      {
        var handled := Handle(handlers[batch[i].id], batch[i]);
        calls := calls + [handled.0];
        assert batch[..i + 1] == batch[..i] + [batch[i]];
        DispatchSnoc(handlers, batch[..i], batch[i]);
      }
      assert batch[..|batch|] == batch;
    }
  }

  lemma {:induction false} DispatchSnoc<E, H>(handlers: map<int, H>, events: seq<EventPtr<E>>, e: EventPtr<E>)
    requires forall i :: 0 <= i < |events| ==> events[i].id in handlers && events[i].event.Some?
    requires e.id in handlers && e.event.Some?
    ensures Dispatch(handlers, events + [e]) == Dispatch(handlers, events) + [(handlers[e.id], e.event.value)]
  {
  }
}
