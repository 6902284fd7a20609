/** The instance returned by the factory in src/index.js, as an object whose
    fields are the closure variables the source updates in place. The consumer
    callback is represented by the log `delivered` of the batches it was
    called with; the interval timer by the flag `armed`. */
module Saturated {
  import opened Batching

  class Instance<T> {
    /** `max`, fixed when the instance is created. */
    const max: Max
    /** `queue`, appended to by push and spliced by batch. */
    var queue: seq<T>
    /** Whether `timer` holds an interval that has not been cleared. */
    var armed: bool
    /** One entry per call of the consumer, oldest first. */
    var delivered: seq<seq<T>>
    /** Every entry ever pushed, in push order. */
    ghost var pushed: seq<T>

    /** Nothing pushed is lost or duplicated: the delivered batches, laid end
        to end and followed by the queue, are exactly the pushed entries. */
    ghost predicate Valid()
      reads this
    {
      Flatten(delivered) + queue == pushed
    }

    /** The state of the instance as the pure model sees it. */
    function Snapshot(): State<T>
      reads this
    {
      State(queue, armed, delivered)
    }

    /** The factory: read `max` from the options, start with an empty queue,
        and start the timer with `ticker()`. */
    constructor (optMax: Option<int>)
      ensures Valid() && pushed == []
      ensures max == MaxOf(optMax)
      ensures Snapshot() == Init()
    {
      max := MaxOf(optMax);
      queue := [];
      delivered := [];
      pushed := [];
      armed := true;
    }

    /** `batch`, exported as `flush`: clear the timer, splice up to `max`
        entries off the front, call the consumer with them, re-arm the timer. */
    method Flush()
      requires Valid()
      modifies this
      ensures Valid() && pushed == old(pushed)
      ensures Snapshot() == Batching.Flush(old(Snapshot()), max)
    {
      ghost var before := Snapshot();
      armed := false;
      var k := TakeCount(max, |queue|);
      var batch := queue[..k];
      queue := queue[k..];
      delivered := delivered + [batch];
      armed := true;
      FlushKeepsOrder(before, max);
    }

    /** One firing of the interval timer, which runs `batch`. */
    method Tick()
      requires Valid() && armed
      modifies this
      ensures Valid() && pushed == old(pushed)
      ensures Snapshot() == Step(old(Snapshot()), max, TimerFires)
    {
      Flush();
    }

    /** `push`: append the entry, keep the new length in `tmp`, flush when it
        reaches `max`, and return `tmp`. */
    method Push(x: T) returns (tmp: nat)
      requires Valid()
      modifies this
      ensures Valid() && pushed == old(pushed) + [x]
      ensures tmp == |old(queue)| + 1
      ensures (Snapshot(), tmp) == Batching.Push(old(Snapshot()), max, x)
    {
      queue := queue + [x];
      pushed := pushed + [x];
      tmp := |queue|;
      if Reaches(max, tmp) {
        Flush();
      }
    }

    /** `size`: the number of queued entries; changes nothing. */
    method Size() returns (n: nat)
      ensures n == |queue|
    {
      n := |queue|;
    }

    /** `reset(toFlush)`: flush once if asked to, then clear the timer. */
    method Reset(toFlush: bool)
      requires Valid()
      modifies this
      ensures Valid() && pushed == old(pushed)
      ensures Snapshot() == Batching.Reset(old(Snapshot()), max, toFlush)
    {
      if toFlush {
        Flush();
      }
      armed := false;
    }
  }
}
