/** The double-buffered message queue of the event system: producers append to the
  * write queue; the consumer swaps the two queues and handles every message of the
  * read queue in order. Locking is not modelled: each call is one sequential step.
  * The callback of `Process` is represented by the sequence of messages it is
  * called with, which the method returns. */
module MessageQueue {
  class MessageQueue<T> {
    /** `mWriteQueue`: messages enqueued since the last `Process`. */
    var write: seq<T>
    /** `mReadQueue`: the batch being handled; empty between calls. */
    var read: seq<T>

    predicate Valid()
      reads this
    {
      read == []
    }

    /** Both queues start empty. */
    constructor ()
      ensures Valid() && write == []
    {
      write := [];
      read := [];
    }

    /** `Enqueue`: the message goes to the end of the write queue. */
    method Enqueue(message: T)
      requires Valid()
      modifies this
      ensures Valid()
      ensures write == old(write) + [message]
    {
      write := write + [message];
    }

    /** `Process(func)`: `func` is called once per pending message, in enqueue order
      * (`handled` lists the calls); afterwards both queues are empty. */
    method Process() returns (handled: seq<T>)
      requires Valid()
      modifies this
      ensures Valid()
      ensures handled == old(write)
      ensures write == []
      ensures old(write) == [] ==> handled == []
    {
      handled := [];
      if write == [] {
        return;
      }
      write, read := read, write;
      for i := 0 to |read|
        invariant handled == read[..i]
      {
        handled := handled + [read[i]];
      }
      read := [];
    }

    /** The destructor asserts that nothing is left pending. */
    predicate MayDestroy()
      reads this
    {
      write == []
    }
  }

  /** Messages enqueued one after another are handled in that order. */
  method EnqueueTwiceThenProcess<T>(q: MessageQueue<T>, a: T, b: T) returns (handled: seq<T>)
    requires q.Valid() && q.write == []
    modifies q
    ensures handled == [a, b]
    ensures q.Valid() && q.MayDestroy()
  {
    q.Enqueue(a);
    q.Enqueue(b);
    handled := q.Process();
  }
}
