/** session.ts, makeInputChannel: a queue of messages that meets a queue of waiting readers. */
module Channel {
  import opened Basics
  import opened Protocol

  /** The promise a next() call returned. */
  datatype Read = Waiting | Value(m: Json) | Done

  /** resolvers holds, in order, which next() calls still wait; results is what each call has got. */
  datatype State = State(queue: seq<Json>, resolvers: seq<nat>, closed: bool, results: seq<Read>)

  datatype Op = Push(m: Json) | Next | Return | Close

  const EMPTY := State([], [], false, [])

  function Resolve(results: seq<Read>, i: nat, r: Read): seq<Read> {
    if i < |results| then results[i := r] else results
  }

  function ResolveAll(results: seq<Read>, waiting: seq<nat>): seq<Read>
    decreases |waiting|
  {
    if waiting == [] then results else ResolveAll(Resolve(results, waiting[0], Done), waiting[1..])
  }

  function Shut(c: State): State {
    State(c.queue, [], true, ResolveAll(c.results, c.resolvers))
  }

  function Step(c: State, op: Op): State {
    match op
    case Push(m) =>
      if c.closed then c
      else if c.resolvers != [] then
        c.(resolvers := c.resolvers[1..], results := Resolve(c.results, c.resolvers[0], Value(m)))
      else c.(queue := c.queue + [m])
    case Next =>
      if c.queue != [] then c.(queue := c.queue[1..], results := c.results + [Value(c.queue[0])])
      else if c.closed then c.(results := c.results + [Done])
      else c.(resolvers := c.resolvers + [|c.results|], results := c.results + [Waiting])
    case Return => Shut(c)
    case Close => Shut(c)
  }

  function Run(ops: seq<Op>): State {
    if ops == [] then EMPTY else Step(Run(ops[..|ops| - 1]), ops[|ops| - 1])
  }

  // The closed form -----------------------------------------------------------------------------

  /** What the i-th next() holds: the i-th message, or done, or nothing yet. */
  function Held(pushed: seq<Json>, closed: bool, i: nat): Read {
    if i < |pushed| then Value(pushed[i]) else if closed then Done else Waiting
  }

  /** The numbers from lo up to hi. */
  function Range(lo: nat, hi: nat): (r: seq<nat>)
    ensures |r| == if lo < hi then hi - lo else 0
    ensures forall k :: 0 <= k < |r| ==> r[k] == lo + k
  {
    if hi <= lo then [] else Range(lo, hi - 1) + [hi - 1]
  }

  /** The channel after these messages were taken and n next() calls were made. */
  function Shape(pushed: seq<Json>, n: nat, closed: bool): State {
    State(
      if n < |pushed| then pushed[n..] else [],
      if closed then [] else Range(|pushed|, n),
      closed,
      seq(n, i requires 0 <= i < n => Held(pushed, closed, i)))
  }

  predicate Closing(op: Op) { op.Close? || op.Return? }

  predicate ClosedBy(ops: seq<Op>) { exists i :: 0 <= i < |ops| && Closing(ops[i]) }

  function Nexts(ops: seq<Op>): nat {
    if ops == [] then 0 else Nexts(ops[..|ops| - 1]) + if ops[|ops| - 1].Next? then 1 else 0
  }

  /** The messages pushed before the channel was first closed. */
  function Accepted(ops: seq<Op>): seq<Json> {
    if ops == [] then [] else
    var pre, op := ops[..|ops| - 1], ops[|ops| - 1];
    Accepted(pre) + if op.Push? && !ClosedBy(pre) then [op.m] else []
  }

  lemma {:induction false} ResolveRange(results: seq<Read>, waiting: seq<nat>, lo: nat)
    requires lo + |waiting| == |results|
    requires forall k :: 0 <= k < |waiting| ==> waiting[k] == lo + k
    ensures ResolveAll(results, waiting) == results[..lo] + seq(|waiting|, _ => Done)
    decreases |waiting|
  {
    if waiting == [] {
      assert results[..lo] == results;
    } else {
      var r := Resolve(results, waiting[0], Done);
      ResolveRange(r, waiting[1..], lo + 1);
      assert r[..lo + 1] == results[..lo] + [Done];
      assert seq(|waiting|, _ => Done) == [Done] + seq(|waiting| - 1, _ => Done);
      assert results[..lo] + [Done] + seq(|waiting| - 1, _ => Done) == results[..lo] + seq(|waiting|, _ => Done);
    }
  }

  /** Each operation moves the closed form along. */
  lemma ShapeStep(pushed: seq<Json>, n: nat, closed: bool, op: Op)
    ensures Step(Shape(pushed, n, closed), op) ==
      match op
      case Push(m) => Shape(if closed then pushed else pushed + [m], n, closed)
      case Next => Shape(pushed, n + 1, closed)
      case Return => Shape(pushed, n, true)
      case Close => Shape(pushed, n, true)
  {
    var c := Shape(pushed, n, closed);
    var r := Step(c, op);
    match op
    case Push(m) => if !closed { PushShape(pushed, n, m); }
    case Next => NextShape(pushed, n, closed);
    case _ =>
      ResolveRange(c.results, c.resolvers, if closed || n < |pushed| then n else |pushed|);
      assert r.results == Shape(pushed, n, true).results;
  }

  /** The channel is the closed form of these messages. */
  ghost predicate Holds(c: State, pushed: seq<Json>) {
    c == Shape(pushed, |c.results|, c.closed)
  }

  lemma HoldsKept(c: State, pushed: seq<Json>, op: Op)
    requires Holds(c, pushed)
    ensures Holds(Step(c, op), if op.Push? && !c.closed then pushed + [op.m] else pushed)
    ensures c.closed || Closing(op) ==> Step(c, op).closed
  {
    ShapeStep(pushed, |c.results|, c.closed, op);
  }

  lemma PushShape(pushed: seq<Json>, n: nat, m: Json)
    ensures Step(Shape(pushed, n, false), Push(m)) == Shape(pushed + [m], n, false)
  {
    var c, d := Shape(pushed, n, false), Shape(pushed + [m], n, false);
    var r := Step(c, Push(m));
    assert r.queue == d.queue;
    assert r.resolvers == d.resolvers;
    assert r.results == d.results;
  }

  lemma NextShape(pushed: seq<Json>, n: nat, closed: bool)
    ensures Step(Shape(pushed, n, closed), Next) == Shape(pushed, n + 1, closed)
  {
    var c, d := Shape(pushed, n, closed), Shape(pushed, n + 1, closed);
    var r := Step(c, Next);
    assert r.queue == d.queue;
    assert r.resolvers == d.resolvers;
    assert r.results == d.results;
  }

  /**
   The channel refines its closed form: after any interleaving of pushes, next() calls of any number
   of iterators, return() and close, the state is determined by the messages taken, the number of
   next() calls and whether it is closed.
   */
  lemma {:induction false} ChannelIsItsClosedForm(ops: seq<Op>)
    ensures Run(ops) == Shape(Accepted(ops), Nexts(ops), ClosedBy(ops))
  {
    if ops == [] {
      assert Shape([], 0, false) == EMPTY;
    } else {
      var n := |ops| - 1;
      var pre, op := ops[..n], ops[n];
      ChannelIsItsClosedForm(pre);
      ClosedBySnoc(ops);
      ShapeStep(Accepted(pre), Nexts(pre), ClosedBy(pre), op);
      assert Accepted(pre) + [] == Accepted(pre);
    }
  }

  /** The producer's side of an interleaving. */
  function Producer(ops: seq<Op>): seq<Op> {
    if ops == [] then [] else
    Producer(ops[..|ops| - 1]) + if ops[|ops| - 1].Next? then [] else [ops[|ops| - 1]]
  }

  lemma {:induction false} ProducerDecides(ops: seq<Op>)
    ensures Accepted(ops) == Accepted(Producer(ops))
    ensures ClosedBy(ops) == ClosedBy(Producer(ops))
  {
    if ops != [] {
      var n := |ops| - 1;
      var pre, op := ops[..n], ops[n];
      ProducerDecides(pre);
      ClosedBySnoc(ops);
      if !op.Next? {
        assert Producer(ops)[..|Producer(ops)| - 1] == Producer(pre);
        ClosedBySnoc(Producer(ops));
      } else {
        assert Producer(ops) == Producer(pre);
      }
    }
  }

  lemma ClosedBySnoc(ops: seq<Op>)
    requires ops != []
    ensures ClosedBy(ops) <==> ClosedBy(ops[..|ops| - 1]) || Closing(ops[|ops| - 1])
  {
    var pre := ops[..|ops| - 1];
    if ClosedBy(pre) {
      var i :| 0 <= i < |pre| && Closing(pre[i]);
      assert Closing(ops[i]);
    }
  }

  /** Delivery does not depend on how the readers' next() calls fall between the producer's operations. */
  lemma DeliveryIgnoresInterleaving(a: seq<Op>, b: seq<Op>)
    requires Producer(a) == Producer(b) && Nexts(a) == Nexts(b)
    ensures Run(a) == Run(b)
  {
    ChannelIsItsClosedForm(a);
    ChannelIsItsClosedForm(b);
    ProducerDecides(a);
    ProducerDecides(b);
  }

  class InputChannel {
    var queue: seq<Json>
    var resolvers: seq<nat>
    var closed: bool
    var results: seq<Read>
    ghost var pushed: seq<Json>
    ghost const owner: nat

    ghost function View(): State
      reads this
    {
      State(queue, resolvers, closed, results)
    }

    ghost predicate Valid()
      reads this
    {
      Holds(View(), pushed)
    }

    constructor (ghost owner: nat)
      ensures Valid() && View() == EMPTY && pushed == [] && this.owner == owner
    {
      this.owner := owner;
      queue, resolvers, closed, results, pushed := [], [], false, [], [];
      new;
      assert Shape([], 0, false) == EMPTY;
    }

    /** The i-th call gets the i-th message, or done when it is closed, or waits. */
    method Next() returns (i: nat)
      requires Valid()
      modifies this`queue, this`resolvers, this`results
      ensures Valid()
      ensures i == old(|results|) && |results| == i + 1
      ensures results[i] == Held(pushed, closed, i)
      ensures View() == Step(old(View()), Op.Next)
    {
      NextShape(pushed, |results|, closed);
      i := |results|;
      if |queue| > 0 {
        results := results + [Value(queue[0])];
        queue := queue[1..];
      } else if closed {
        results := results + [Done];
      } else {
        resolvers := resolvers + [i];
        results := results + [Waiting];
      }
    }

    /** threw: the channel is closed, and the message is not taken. */
    method Push(m: Json) returns (threw: bool)
      requires Valid()
      modifies this`queue, this`resolvers, this`results, this`pushed
      ensures Valid()
      ensures threw == closed
      ensures pushed == if threw then old(pushed) else old(pushed) + [m]
      ensures View() == Step(old(View()), Op.Push(m))
    {
      threw := closed;
      if closed { return; }
      PushShape(pushed, |results|, m);
      if |resolvers| > 0 {
        results := results[resolvers[0] := Value(m)];
        resolvers := resolvers[1..];
      } else {
        queue := queue + [m];
      }
      pushed := pushed + [m];
    }

    /** close, and an iterator's return: every waiting reader is told there is no more. */
    method Close()
      requires Valid()
      modifies this`resolvers, this`results, this`closed
      ensures Valid() && closed
      ensures Waiting !in results
      ensures View() == Step(old(View()), Op.Close)
    {
      ghost var was := View();
      ShapeStep(pushed, |results|, closed, Op.Close);
      closed := true;
      ghost var n := |results|;
      while |resolvers| > 0
        invariant closed
        invariant ResolveAll(results, resolvers) == ResolveAll(was.results, was.resolvers)
        invariant forall k :: 0 <= k < |resolvers| ==> resolvers[k] < |results| == n
      {
        results := results[resolvers[0] := Done];
        resolvers := resolvers[1..];
      }
      assert resolvers == [] && View() == Step(was, Op.Close);
      assert forall i :: 0 <= i < n ==> results[i] == Held(pushed, true, i);
    }
  }
}
