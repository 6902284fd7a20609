/** The batching queue of src/index.js as a pure state machine.
    A state holds the queued entries, whether the interval timer is armed, and
    the log of every batch handed to the consumer. Each exported operation of
    the instance is a function from the old state to the new one; the class in
    module Saturated is proved to follow these functions step by step. */
module Batching {

  datatype Option<T> = None | Some(value: T)

  /** The flush threshold `max`. The source computes it as `opts.max || Infinity`,
      so an absent or zero option means no threshold at all. */
  datatype Max = Unbounded | Bounded(n: int)

  /** `opts.max || Infinity`, for integer-valued options. */
  function MaxOf(opt: Option<int>): (m: Max)
    ensures m.Unbounded? <==> opt == None || opt == Some(0)
    ensures m.Bounded? ==> opt == Some(m.n) && m.n != 0
  {
    match opt
    case None => Unbounded
    case Some(n) => if n == 0 then Unbounded else Bounded(n)
  }

  /** The test `tmp >= max` that push makes after appending. `Unbounded`
      stands for `Infinity`, which no length reaches; every length reaches a
      threshold that is not positive. */
  predicate Reaches(m: Max, len: nat): (b: bool)
    ensures m.Unbounded? ==> !b
    ensures m.Bounded? && m.n <= 0 ==> b
    ensures m.Bounded? && m.n > 0 ==> (b <==> len >= m.n)
  {
    m.Bounded? && len >= m.n
  }

  /** How many entries `queue.splice(0, max)` removes from a queue of length
      `len`: the delete count is clamped to lie between 0 and `len`. */
  function TakeCount(m: Max, len: nat): (k: nat)
    ensures k <= len
    ensures m.Unbounded? ==> k == len
    ensures m.Bounded? ==> k <= m.n || k == 0
    ensures m.Bounded? && k < len ==> k == m.n || (k == 0 && m.n < 0)
  {
    match m
    case Unbounded => len
    case Bounded(n) => if n <= 0 then 0 else if n < len then n else len
  }

  /** What one instance holds: the pending entries in push order, whether an
      interval timer is armed, and one entry per consumer call, oldest first. */
  datatype State<T> = State(queue: seq<T>, armed: bool, delivered: seq<seq<T>>)

  /** A freshly created instance: empty queue, timer started by `ticker()`,
      consumer never called. */
  function Init<T>(): (r: State<T>)
    ensures r.armed
    ensures |r.queue| == 0 && |r.delivered| == 0
    ensures Flatten(r.delivered) + r.queue == []
  {
    State([], true, [])
  }

  /** `batch()`: clear the timer, splice a prefix of at most `max` entries off
      the queue, call the consumer with it, and arm a new timer. */
  function Flush<T>(s: State<T>, m: Max): (r: State<T>)
    ensures r.armed
    ensures |r.delivered| == |s.delivered| + 1 && r.delivered[..|s.delivered|] == s.delivered
    ensures r.delivered[|s.delivered|] + r.queue == s.queue
  {
    var k := TakeCount(m, |s.queue|);
    State(s.queue[k..], true, s.delivered + [s.queue[..k]])
  }

  /** `push`: append one entry, remember the new length in `tmp`, flush when
      `tmp >= max`, and return `tmp`. The returned length is the one measured
      before that flush. */
  function Push<T>(s: State<T>, m: Max, x: T): (r: (State<T>, nat))
    ensures r.1 == |s.queue| + 1
    ensures |r.0.queue| <= r.1
    ensures |r.0.delivered| == |s.delivered| + (if Reaches(m, r.1) then 1 else 0)
  {
    var s' := s.(queue := s.queue + [x]);
    var tmp := |s'.queue|;
    if Reaches(m, tmp) then (Flush(s', m), tmp) else (s', tmp)
  }

  /** `reset(toFlush)`: flush once when the flag is truthy, then clear the timer. */
  function Reset<T>(s: State<T>, m: Max, toFlush: bool): (r: State<T>)
    ensures !r.armed
    ensures |r.delivered| == |s.delivered| + (if toFlush then 1 else 0)
  {
    var s' := if toFlush then Flush(s, m) else s;
    s'.(armed := false)
  }

  /** One call on the instance, or one firing of the interval timer. */
  datatype Call<T> = CallPush(item: T) | CallFlush | CallSize | CallReset(toFlush: bool) | TimerFires

  /** The effect of one call. A cleared interval never fires, so a firing is
      only a flush while the timer is armed. */
  function Step<T>(s: State<T>, m: Max, c: Call<T>): (r: State<T>)
    ensures |s.delivered| <= |r.delivered| <= |s.delivered| + 1
    ensures r.delivered[..|s.delivered|] == s.delivered
    ensures c.CallSize? || (c.TimerFires? && !s.armed) ==> r == s
    ensures c.CallFlush? || (c.TimerFires? && s.armed) ==> r.armed && |r.delivered| == |s.delivered| + 1
    ensures c.CallReset? ==> !r.armed
    ensures c.CallPush? ==> (|r.delivered| == |s.delivered| + 1 <==> Reaches(m, |s.queue| + 1))
  {
    match c
    case CallPush(x) => Push(s, m, x).0
    case CallFlush => Flush(s, m)
    case CallSize => s
    case CallReset(b) => Reset(s, m, b)
    case TimerFires => if s.armed then Flush(s, m) else s
  }

  /** The effect of a whole trace of calls, in order. */
  function Run<T>(s: State<T>, m: Max, cs: seq<Call<T>>): State<T>
    decreases |cs|
  {
    if cs == [] then s else Run(Step(s, m, cs[0]), m, cs[1..])
  }

  /** The entries a trace pushes, in order. */
  function Pushed<T>(cs: seq<Call<T>>): seq<T>
    decreases |cs|
  {
    if cs == [] then []
    else (if cs[0].CallPush? then [cs[0].item] else []) + Pushed(cs[1..])
  }

  /** All delivered batches laid end to end. */
  function Flatten<T>(bs: seq<seq<T>>): seq<T>
    decreases |bs|
  {
    if bs == [] then [] else bs[0] + Flatten(bs[1..])
  }

  lemma {:induction false} FlattenAppend<T>(bs: seq<seq<T>>, b: seq<T>)
    ensures Flatten(bs + [b]) == Flatten(bs) + b
    decreases |bs|
  {
    if bs == [] {
      assert [b][1..] == [];
    } else {
      assert (bs + [b])[1..] == bs[1..] + [b];
      FlattenAppend(bs[1..], b);
    }
  }

  // ---------------------------------------------------------------------------
  // push

  /** Below the threshold, push appends exactly one entry at the back, returns
      the new length, and touches neither the timer nor the consumer. */
  lemma PushAppends<T>(s: State<T>, m: Max, x: T)
    requires !Reaches(m, |s.queue| + 1)
    ensures Push(s, m, x) == (s.(queue := s.queue + [x]), |s.queue| + 1)
  {
  }

  /** At the threshold, push runs exactly one flush over the appended queue,
      and still returns the length measured before that flush. */
  lemma PushAtThreshold<T>(s: State<T>, m: Max, x: T)
    requires Reaches(m, |s.queue| + 1)
    ensures Push(s, m, x).1 == |s.queue| + 1
    ensures Push(s, m, x).0 == Flush(s.(queue := s.queue + [x]), m)
    ensures Push(s, m, x).0.armed
  {
  }

  /** With a positive threshold `n`, the push that brings the queue to exactly
      `n` entries delivers those `n` entries as one batch, empties the queue,
      and returns `n` although the size is now 0. */
  lemma PushFillsBatch<T>(s: State<T>, n: int, x: T)
    requires 0 < n && |s.queue| + 1 == n
    ensures Push(s, Bounded(n), x).1 == n
    ensures Push(s, Bounded(n), x).0.queue == []
    ensures Push(s, Bounded(n), x).0.delivered == s.delivered + [s.queue + [x]]
  {
    var q := s.queue + [x];
    assert q[..n] == q;
  }

  /** With a negative threshold, `tmp >= max` always holds but `splice(0, max)`
      removes nothing: every push calls the consumer with an empty batch and
      keeps the entry queued. */
  lemma PushNegativeMax<T>(s: State<T>, n: int, x: T)
    requires n < 0
    ensures Push(s, Bounded(n), x).0.queue == s.queue + [x]
    ensures Push(s, Bounded(n), x).0.delivered == s.delivered + [[]]
  {
  }

  /** Nothing stops the size-triggered flush after `reset`: a push that reaches
      the threshold flushes and arms a new timer again. */
  lemma PushAfterResetRearms<T>(s: State<T>, m: Max, toFlush: bool, x: T)
    requires Reaches(m, |Reset(s, m, toFlush).queue| + 1)
    ensures !Reset(s, m, toFlush).armed
    ensures Push(Reset(s, m, toFlush), m, x).0.armed
    ensures |Push(Reset(s, m, toFlush), m, x).0.delivered| == |Reset(s, m, toFlush).delivered| + 1
  {
  }

  // ---------------------------------------------------------------------------
  // flush

  /** Flush removes exactly `min(max, size)` entries from the front and hands
      them, in order, to one consumer call; the rest stays queued. */
  lemma FlushTakesFront<T>(s: State<T>, n: int)
    requires 0 < n
    ensures var r := Flush(s, Bounded(n));
      && r.delivered == s.delivered + [s.queue[..if n < |s.queue| then n else |s.queue|]]
      && r.queue == s.queue[if n < |s.queue| then n else |s.queue|..]
      && r.armed
  {
  }

  /** Without a threshold, flush drains the whole queue into one batch. */
  lemma FlushUnboundedDrains<T>(s: State<T>)
    ensures Flush(s, Unbounded).queue == []
    ensures Flush(s, Unbounded).delivered == s.delivered + [s.queue]
  {
    assert s.queue[..|s.queue|] == s.queue;
  }

  /** Flushing an empty queue is not suppressed: the consumer gets `[]`. */
  lemma FlushEmptyDelivers<T>(s: State<T>, m: Max)
    requires s.queue == []
    ensures Flush(s, m).delivered == s.delivered + [[]]
    ensures Flush(s, m).queue == []
  {
  }

  /** With a negative threshold, `splice(0, max)` removes nothing, so a manual
      or timer flush calls the consumer with `[]` and keeps the whole queue. */
  lemma FlushNegativeMax<T>(s: State<T>, n: int)
    requires n < 0
    ensures Flush(s, Bounded(n)).queue == s.queue
    ensures Flush(s, Bounded(n)).delivered == s.delivered + [[]]
  {
  }

  // ---------------------------------------------------------------------------
  // reset

  /** `reset()` with a falsy flag delivers nothing and keeps the queue; the
      timer ends cleared. */
  lemma ResetWithoutFlush<T>(s: State<T>, m: Max)
    ensures Reset(s, m, false) == s.(armed := false)
  {
  }

  /** `reset(true)` is exactly one flush followed by clearing the timer. */
  lemma ResetWithFlush<T>(s: State<T>, m: Max)
    ensures Reset(s, m, true) == Flush(s, m).(armed := false)
    ensures Reset(s, m, true).delivered == s.delivered + [Flush(s, m).delivered[|s.delivered|]]
  {
  }

  // ---------------------------------------------------------------------------
  // traces

  /** One call keeps the ordering invariant: delivered batches followed by the
      queue grow by exactly what the call pushed. */
  lemma {:induction false} StepKeepsOrder<T>(s: State<T>, m: Max, c: Call<T>)
    ensures Flatten(Step(s, m, c).delivered) + Step(s, m, c).queue
         == Flatten(s.delivered) + s.queue + (if c.CallPush? then [c.item] else [])
  {
    match c
    case CallPush(x) =>
      var s' := s.(queue := s.queue + [x]);
      if Reaches(m, |s'.queue|) {
        FlushKeepsOrder(s', m);
      }
    case CallFlush =>
      FlushKeepsOrder(s, m);
    case CallSize =>
    case CallReset(b) =>
      if b {
        FlushKeepsOrder(s, m);
      }
    case TimerFires =>
      if s.armed {
        FlushKeepsOrder(s, m);
      }
  }

  /** Flush moves a prefix of the queue to the end of the delivered log. */
  lemma {:induction false} FlushKeepsOrder<T>(s: State<T>, m: Max)
    ensures Flatten(Flush(s, m).delivered) + Flush(s, m).queue == Flatten(s.delivered) + s.queue
  {
    var k := TakeCount(m, |s.queue|);
    FlattenAppend(s.delivered, s.queue[..k]);
    assert s.queue[..k] + s.queue[k..] == s.queue;
  }

  /** Across any trace of push, flush, size, reset and timer firings, every
      pushed entry is delivered or still queued, exactly once and in push
      order. */
  lemma {:induction false} RunKeepsOrder<T>(s: State<T>, m: Max, cs: seq<Call<T>>)
    ensures Flatten(Run(s, m, cs).delivered) + Run(s, m, cs).queue
         == Flatten(s.delivered) + s.queue + Pushed(cs)
    decreases |cs|
  {
    if cs != [] {
      var s' := Step(s, m, cs[0]);
      StepKeepsOrder(s, m, cs[0]);
      RunKeepsOrder(s', m, cs[1..]);
    }
  }

  /** From a fresh instance, the delivered batches followed by the queue are
      exactly the pushed entries. */
  lemma RunFromInitKeepsOrder<T>(m: Max, cs: seq<Call<T>>)
    ensures Flatten(Run(Init(), m, cs).delivered) + Run(Init(), m, cs).queue == Pushed(cs)
  {
    RunKeepsOrder(Init<T>(), m, cs);
  }

  /** Every batch holds at most `max` entries. */
  predicate BatchesWithin<T>(s: State<T>, n: int) {
    forall i :: 0 <= i < |s.delivered| ==> |s.delivered[i]| <= n
  }

  /** One call adds at most one batch, and that batch is no longer than `max`. */
  lemma StepKeepsBatchesWithin<T>(s: State<T>, n: int, c: Call<T>)
    requires 0 < n && BatchesWithin(s, n)
    ensures BatchesWithin(Step(s, Bounded(n), c), n)
  {
  }

  /** With a positive threshold, no consumer call ever receives more than
      `max` entries, along any trace. */
  lemma {:induction false} RunKeepsBatchesWithin<T>(s: State<T>, n: int, cs: seq<Call<T>>)
    requires 0 < n && BatchesWithin(s, n)
    ensures BatchesWithin(Run(s, Bounded(n), cs), n)
    decreases |cs|
  {
    if cs != [] {
      var s' := Step(s, Bounded(n), cs[0]);
      StepKeepsBatchesWithin(s, n, cs[0]);
      RunKeepsBatchesWithin(s', n, cs[1..]);
    }
  }

  /** With a positive threshold, the queue stays shorter than `max` between
      calls: the push that reaches `max` always drains it. */
  lemma {:induction false} RunKeepsQueueBelow<T>(s: State<T>, n: int, cs: seq<Call<T>>)
    requires 0 < n && |s.queue| < n
    ensures |Run(s, Bounded(n), cs).queue| < n
    decreases |cs|
  {
    if cs != [] {
      var s' := Step(s, Bounded(n), cs[0]);
      assert |s'.queue| < n;
      RunKeepsQueueBelow(s', n, cs[1..]);
    }
  }

  /** Every delivered batch is empty. */
  predicate AllEmpty<T>(bs: seq<seq<T>>) {
    forall i :: 0 <= i < |bs| ==> bs[i] == []
  }

  /** With a negative threshold, an instance never delivers a single entry:
      along any trace every consumer call receives `[]`, and every pushed
      entry stays queued. */
  lemma {:induction false} RunNegativeMaxNeverDelivers<T>(s: State<T>, n: int, cs: seq<Call<T>>)
    requires n < 0 && AllEmpty(s.delivered)
    ensures AllEmpty(Run(s, Bounded(n), cs).delivered)
    ensures Run(s, Bounded(n), cs).queue == s.queue + Pushed(cs)
    decreases |cs|
  {
    if cs != [] {
      var s' := Step(s, Bounded(n), cs[0]);
      assert s'.queue == s.queue + (if cs[0].CallPush? then [cs[0].item] else []);
      assert AllEmpty(s'.delivered);
      RunNegativeMaxNeverDelivers(s', n, cs[1..]);
      assert s.queue + Pushed(cs)
          == s.queue + (if cs[0].CallPush? then [cs[0].item] else []) + Pushed(cs[1..]);
    }
  }
}
