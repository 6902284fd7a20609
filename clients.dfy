/** The scenarios of test/index.js, replayed against the contracts of
    Saturated.Instance alone. Each test there ends the instance with `end`,
    which src/index.js exports under the name `reset`. */
module Clients {
  import opened Batching
  import opened Saturated

  /** `$.push` and `$.size`: push returns, and size reports, 1 then 2. */
  method PushAndSize() {
    var ctx := new Instance<string>(None);
    var foo := ctx.Push("hello");
    assert foo == 1;
    var n := ctx.Size();
    assert n == 1;
    var bar := ctx.Push("world");
    assert bar == 2;
    n := ctx.Size();
    assert n == 2;
    ctx.Reset(false);
    assert ctx.delivered == [];
  }

  /** `$.flush`: both entries reach the consumer in one batch, in order. */
  method ManualFlush() {
    var ctx := new Instance<string>(None);
    var _ := ctx.Push("hello");
    var _ := ctx.Push("world");
    var n := ctx.Size();
    assert n == 2 && ctx.Snapshot() == State(["hello", "world"], true, []);
    ctx.Flush();
    FlushUnboundedDrains(State(["hello", "world"], true, []));
    n := ctx.Size();
    assert n == 0;
    assert ctx.delivered == [["hello", "world"]];
    ctx.Reset(false);
  }

  /** `$.end`: without the flag nothing is delivered and both entries stay. */
  method EndWithoutFlush() {
    var ctx := new Instance<string>(None);
    var _ := ctx.Push("hello");
    var _ := ctx.Push("world");
    ctx.Reset(false);
    var n := ctx.Size();
    assert n == 2 && ctx.delivered == [] && !ctx.armed;
  }

  /** `$.end(true)`: one final batch with both entries, then an empty queue. */
  method EndWithFlush() {
    var ctx := new Instance<string>(None);
    var _ := ctx.Push("hello");
    var _ := ctx.Push("world");
    assert ctx.Snapshot() == State(["hello", "world"], true, []);
    ctx.Reset(true);
    FlushUnboundedDrains(State(["hello", "world"], true, []));
    var n := ctx.Size();
    assert n == 0 && ctx.delivered == [["hello", "world"]] && !ctx.armed;
  }

  /** `opts.max`: with `max: 10`, the tenth push delivers all ten entries
      before any timer fires. */
  method MaxTriggersFlush() {
    var ctx := new Instance<int>(Some(10));
    var i := 0;
    while i < 9
      invariant 0 <= i <= 9
      invariant ctx.Valid() && ctx.max == Bounded(10)
      invariant |ctx.queue| == i && ctx.delivered == []
    {
      var _ := ctx.Push(i);
      i := i + 1;
    }
    var last := ctx.Push(9);
    assert last == 10;
    assert |ctx.delivered| == 1 && |ctx.delivered[0]| == 10;
    var n := ctx.Size();
    assert n == 0;
    ctx.Reset(false);
  }

  /** `opts.interval`: five entries, then the timer fires and drains them. */
  method TimerDrains() {
    var ctx := new Instance<int>(None);
    var _ := ctx.Push(1);
    var _ := ctx.Push(2);
    var _ := ctx.Push(3);
    var _ := ctx.Push(4);
    var _ := ctx.Push(5);
    var n := ctx.Size();
    assert n == 5 && ctx.Snapshot() == State([1, 2, 3, 4, 5], true, []);
    ctx.Tick();
    FlushUnboundedDrains(State([1, 2, 3, 4, 5], true, []));
    n := ctx.Size();
    assert n == 0 && ctx.delivered == [[1, 2, 3, 4, 5]];
    ctx.Reset(false);
  }

  /** After `reset`, a push that reaches `max` still flushes and starts a new
      timer: the code keeps no stopped state. */
  method AutoFlushAfterReset() {
    var ctx := new Instance<string>(Some(2));
    var _ := ctx.Push("hello");
    ctx.Reset(false);
    assert !ctx.armed;
    var tmp := ctx.Push("world");
    assert tmp == 2 && ctx.armed && ctx.queue == [];
    assert |ctx.delivered| == 1;
  }
}
