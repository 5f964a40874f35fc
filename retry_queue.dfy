/**
 * The queue of requests waiting for a fresh access token: callbacks are
 * queued while a refresh is in flight and all run, in order, once it ends.
 * A callback is named by an id.
 */
module RetryQueue {
  type Callback = nat

  class Queue {
    var pending: seq<Callback>

    constructor ()
      ensures pending == []
    {
      pending := [];
    }

    /** queueRetryRequest: appends at the end. */
    method Enqueue(retry: Callback)
      modifies this
      ensures pending == old(pending) + [retry]
    {
      pending := pending + [retry];
    }

    /** flushRetryQueue: runs every queued callback once, oldest first, then empties the queue. */
    method Flush() returns (ran: seq<Callback>)
      modifies this
      ensures ran == old(pending)
      ensures pending == []
    {
      ran := [];
      if |pending| > 0 {
        var i := 0;
        while i < |pending|
          invariant 0 <= i <= |pending|
          invariant ran == pending[..i]
        {
          ran := ran + [pending[i]];
          i := i + 1;
        }
        assert pending[..|pending|] == pending;
        pending := [];
      }
    }
  }

  /** Example: queue a, b, c, flush: they run as a, b, c, and a second flush runs nothing. */
  method FlushTwice(a: Callback, b: Callback, c: Callback) returns (first: seq<Callback>, second: seq<Callback>)
    ensures first == [a, b, c] && second == []
  {
    var q := new Queue();
    q.Enqueue(a);
    q.Enqueue(b);
    q.Enqueue(c);
    first := q.Flush();
    second := q.Flush();
  }
}
