/** From the bytes on stdin to the promises of outbound calls, and the end of the process. */
module EndToEnd {
  import opened Basics
  import opened Protocol
  import opened Framing
  import R = Rpc
  import opened Sidecar
  import opened SessionTable

  // The outbound client inside the sidecar ----------------------------------------------------------

  /** What a step of the sidecar is to the client. */
  function RpcActions(s: State, a: Action): seq<R.Action> {
    if Over(s) then [] else
    match a
    case Arrive(v, _) => if s.phase.Running? && v.Object? then [R.Feed(v.frame)] else []
    case Outbound(methodName, _, timeoutMs) => [R.Call(methodName, timeoutMs)]
    case Timer(id) => [R.Fire(id)]
    case StaleTimer(id) => [R.Stale(id)]
    case Tick(ms) => [R.Tick(ms)]
    case MainLeave => if CanLeave(s) then [R.Drain(REASON)] else []
    case _ => []
  }

  function RpcTrace(w: World, acts: seq<Action>): seq<R.Action> {
    if acts == [] then [] else
    var pre := acts[..|acts| - 1];
    RpcTrace(w, pre) + RpcActions(Run(w, pre), acts[|acts| - 1])
  }

  /** What the client does in a step of the sidecar. */
  ghost predicate RpcMoves(lib: Lib, s: State, a: Action, t: State) {
    t.rpc == if RpcActions(s, a) == [] then s.rpc else R.Step(lib, s.rpc, RpcActions(s, a)[0])
  }

  lemma PerformKeepsRpc(w: World, s: State, a: Action)
    requires !a.Arrive?
    ensures RpcMoves(w.lib, s, a, Step(w, s, a))
  {
  }

  lemma DispatchKeepsRpc(w: World, s: State, methodName: string, params: Json, env: Env)
    ensures Dispatch(w, s, methodName, params, env).0.rpc == s.rpc
  {
  }

  lemma StepMovesRpc(w: World, s: State, a: Action)
    ensures RpcMoves(w.lib, s, a, Step(w, s, a))
  {
    if a.Arrive? {
      var r := RouteOf(w.lib, s.rpc, a.v);
      if r.Dispatched? {
        DispatchKeepsRpc(w, s.(rpc := FeedValue(w.lib, s.rpc, a.v)), r.methodName, r.params, a.env);
      }
    } else {
      PerformKeepsRpc(w, s, a);
    }
  }

  lemma TraceGrows(w: World, acts: seq<Action>)
    requires acts != []
    ensures var pre, a := acts[..|acts| - 1], acts[|acts| - 1];
      var tr, more := RpcTrace(w, acts), RpcActions(Run(w, pre), a);
      if more == [] then tr == RpcTrace(w, pre)
      else tr != [] && tr[..|tr| - 1] == RpcTrace(w, pre) && tr[|tr| - 1] == more[0]
  {
  }

  lemma {:induction false} RpcIsARun(w: World, acts: seq<Action>)
    ensures Run(w, acts).rpc == R.Run(w.lib, RpcTrace(w, acts))
  {
    if acts != [] {
      var pre, a := acts[..|acts| - 1], acts[|acts| - 1];
      RpcIsARun(w, pre);
      StepMovesRpc(w, Run(w, pre), a);
      TraceGrows(w, acts);
    }
  }

  /** The loop's body has thrown. */
  predicate Failed(s: State) { s.phase.Aborted? || s.phase.Crashed? }

  lemma StaysFailed(w: World, s: State, a: Action)
    ensures Failed(s) ==> Failed(Step(w, s, a))
  {
  }

  lemma LosingFails(w: World, s: State, a: Action)
    requires RpcActions(s, a) != [] && a.Arrive? && R.Throws(w.lib, s.rpc, a.v.frame)
    ensures Failed(Step(w, s, a))
  {
  }

  lemma FeedActions(s: State, a: Action)
    ensures RpcActions(s, a) != [] && RpcActions(s, a)[0].Feed? <==> a.Arrive? && a.v.Object? && s.phase.Running?
    ensures a.Arrive? && a.v.Object? && s.phase.Running? ==> RpcActions(s, a)[0] == R.Feed(a.v.frame)
  {
  }

  lemma StepLosesNone(w: World, s: State, a: Action)
    requires R.Ledger(s.rpc) && R.TimersMatch(s.rpc) && (!Failed(s) ==> R.Conserved(s.rpc))
    requires R.Ledger(Step(w, s, a).rpc)
    ensures !Failed(Step(w, s, a)) ==> R.Conserved(Step(w, s, a).rpc)
  {
    var t, more := Step(w, s, a), RpcActions(s, a);
    StepMovesRpc(w, s, a);
    StaysFailed(w, s, a);
    FeedActions(s, a);
    if !Failed(t) && more != [] {
      forall id ensures !R.Lost(t.rpc, id) {
        R.StepLoses(w.lib, s.rpc, more[0], id);
        if R.Loses(w.lib, s.rpc, more[0], id) { LosingFails(w, s, a); }
      }
    }
  }

  /** A call is lost only when the reply that loses it throws in the loop's body. */
  lemma {:induction false} LostOnlyIfFailed(w: World, acts: seq<Action>)
    ensures R.Ledger(Run(w, acts).rpc) && R.TimersMatch(Run(w, acts).rpc)
    ensures !Failed(Run(w, acts)) ==> R.Conserved(Run(w, acts).rpc)
  {
    RpcIsARun(w, acts);
    R.LedgerBalances(w.lib, RpcTrace(w, acts));
    if acts == [] {
      assert R.Conserved(R.INIT);
    } else {
      var pre, a := acts[..|acts| - 1], acts[|acts| - 1];
      LostOnlyIfFailed(w, pre);
      StepLosesNone(w, Run(w, pre), a);
    }
  }

  // The frames the main loop has seen ---------------------------------------------------------------

  /** The values that have reached the loop's body. */
  function Arrived(w: World, acts: seq<Action>): seq<Value> {
    if acts == [] then [] else
    var pre, a := acts[..|acts| - 1], acts[|acts| - 1];
    Arrived(w, pre) + if a.Arrive? && Run(w, pre).phase.Running? then [a.v] else []
  }

  function FramesOf(values: seq<Value>): seq<Frame> {
    if values == [] then [] else
    var v := values[|values| - 1];
    FramesOf(values[..|values| - 1]) + if v.Object? then [v.frame] else []
  }

  /** The frames fed to the client. */
  function Fed(tr: seq<R.Action>): seq<Frame> {
    if tr == [] then [] else
    var a := tr[|tr| - 1];
    Fed(tr[..|tr| - 1]) + if a.Feed? then [a.frame] else []
  }

  lemma {:induction false} FedIsArrived(w: World, acts: seq<Action>)
    ensures Fed(RpcTrace(w, acts)) == FramesOf(Arrived(w, acts))
  {
    if acts != [] {
      var pre, a := acts[..|acts| - 1], acts[|acts| - 1];
      FedIsArrived(w, pre);
      TraceGrows(w, acts);
      FeedActions(Run(w, pre), a);
      var arrived := Arrived(w, acts);
      if a.Arrive? && Run(w, pre).phase.Running? {
        assert arrived[..|arrived| - 1] == Arrived(w, pre);
      } else {
        assert arrived == Arrived(w, pre);
      }
    }
  }

  lemma {:induction false} FramesOfConcat(a: seq<Value>, b: seq<Value>)
    ensures FramesOf(a + b) == FramesOf(a) + FramesOf(b)
  {
    if b == [] {
      assert a + b == a;
    } else {
      var n := |b| - 1;
      assert (a + b)[..|a + b| - 1] == a + b[..n];
      FramesOfConcat(a, b[..n]);
    }
  }

  // Chunks and lines --------------------------------------------------------------------------------

  /** A chunk arrives; the reader takes one line; anything else happens. */
  datatype Input = Chunk(bytes: string) | Line(env: Env) | Do(a: Action)

  /** trace: what the sidecar has done so far, as actions of its machine. */
  datatype Pipe = Pipe(received: string, buffer: string, trace: seq<Action>)

  predicate LoopRuns(w: World, p: Pipe) { Run(w, p.trace).phase.Running? }

  /** The reader asks for a chunk only when no line is left, and for a line only while the loop runs. */
  function Take(w: World, p: Pipe, input: Input): Pipe {
    var i := FindLF(p.buffer);
    match input
    case Chunk(bytes) =>
      if LoopRuns(w, p) && i == |p.buffer| then
        p.(received := p.received + bytes, buffer := p.buffer + bytes)
      else p
    case Line(env) =>
      if LoopRuns(w, p) && i < |p.buffer| then
        var values := DecodeLine(w.lib, p.buffer[..i]);
        p.(buffer := p.buffer[i + 1..],
           trace := p.trace + if values == [] then [] else [Arrive(values[0], env)])
      else p
    case Do(a) => if a.Arrive? then p else p.(trace := p.trace + [a])
  }

  function RunPipe(w: World, inputs: seq<Input>): Pipe {
    if inputs == [] then Pipe("", "", []) else Take(w, RunPipe(w, inputs[..|inputs| - 1]), inputs[|inputs| - 1])
  }

  /** What has arrived and what is still buffered make up the batch decoding of what was received. */
  ghost predicate Accounts(lib: Lib, arrived: seq<Value>, buffer: string, received: string) {
    && arrived + Batch(lib, buffer) == Batch(lib, received)
    && Tail(buffer) == Tail(received)
  }

  ghost predicate InStep(w: World, p: Pipe) {
    Accounts(w.lib, Arrived(w, p.trace), p.buffer, p.received)
  }

  lemma OneMore(w: World, trace: seq<Action>, a: Action)
    ensures Arrived(w, trace + [a]) ==
      Arrived(w, trace) + if a.Arrive? && Run(w, trace).phase.Running? then [a.v] else []
  {
    assert (trace + [a])[..|trace + [a]| - 1] == trace;
  }

  lemma ChunkKeepsStep(w: World, p: Pipe, bytes: string)
    requires InStep(w, p) && FindLF(p.buffer) == |p.buffer|
    ensures InStep(w, p.(received := p.received + bytes, buffer := p.buffer + bytes))
  {
    BatchOfConcat(w.lib, p.received, bytes);
    assert Lines(p.buffer) == [] && Batch(w.lib, p.buffer) == [];
    assert p.buffer == Tail(p.received);
    assert Arrived(w, p.trace) == Batch(w.lib, p.received);
  }

  /** The pipe after one line, which is what TakeLine takes off the buffer. */
  function AfterLine(p: Pipe, arrivals: seq<Action>): Pipe
    requires FindLF(p.buffer) < |p.buffer|
  {
    Pipe(p.received, p.buffer[FindLF(p.buffer) + 1..], p.trace + arrivals)
  }

  function Arrivals(values: seq<Value>, env: Env): seq<Action> {
    if values == [] then [] else [Arrive(values[0], env)]
  }

  lemma LineIsTaken(w: World, p: Pipe, env: Env)
    requires LoopRuns(w, p) && FindLF(p.buffer) < |p.buffer|
    ensures Take(w, p, Line(env)) == AfterLine(p, Arrivals(DecodeLine(w.lib, p.buffer[..FindLF(p.buffer)]), env))
  {
  }

  lemma LineKeepsStep(w: World, p: Pipe, env: Env)
    requires InStep(w, p) && LoopRuns(w, p) && FindLF(p.buffer) < |p.buffer|
    ensures InStep(w, Take(w, p, Line(env)))
  {
    var values := DecodeLine(w.lib, p.buffer[..FindLF(p.buffer)]);
    LineIsTaken(w, p, env);
    ArrivedLine(w, p.trace, values, Arrivals(values, env));
    LineAccounts(w.lib, Arrived(w, p.trace), p.buffer, p.received);
  }

  lemma LineAccounts(lib: Lib, arrived: seq<Value>, buffer: string, received: string)
    requires Accounts(lib, arrived, buffer, received) && FindLF(buffer) < |buffer|
    ensures var i := FindLF(buffer);
      Accounts(lib, arrived + DecodeLine(lib, buffer[..i]), buffer[i + 1..], received)
  {
    TakeLine(lib, arrived, buffer);
  }

  /** What one line brings to the loop's body. */
  lemma ArrivedLine(w: World, trace: seq<Action>, values: seq<Value>, arrivals: seq<Action>)
    requires Run(w, trace).phase.Running?
    requires if values == [] then arrivals == [] else
      |values| == 1 && |arrivals| == 1 && arrivals[0].Arrive? && arrivals[0].v == values[0]
    ensures Arrived(w, trace + arrivals) == Arrived(w, trace) + values
  {
    if values == [] {
      assert trace + arrivals == trace && Arrived(w, trace) + values == Arrived(w, trace);
    } else {
      assert arrivals == [arrivals[0]] && values == [values[0]];
      OneMore(w, trace, arrivals[0]);
    }
  }

  lemma {:induction false} PipeStaysInStep(w: World, inputs: seq<Input>)
    ensures InStep(w, RunPipe(w, inputs))
  {
    if inputs != [] {
      var p := RunPipe(w, inputs[..|inputs| - 1]);
      PipeStaysInStep(w, inputs[..|inputs| - 1]);
      match inputs[|inputs| - 1]
      case Chunk(bytes) => if FindLF(p.buffer) == |p.buffer| { ChunkKeepsStep(w, p, bytes); }
      case Line(env) => if LoopRuns(w, p) && FindLF(p.buffer) < |p.buffer| { LineKeepsStep(w, p, env); }
      case Do(a) => OneMore(w, p.trace, a);
    }
  }

  /**
   In every interleaving of calls, timers, drain, requests, sessions and input bytes cut into any
   chunks: the frames fed to the client so far, with those still in the buffer, are the frames of
   the whole input in order; and each outbound call is pending, or was settled once, by the first
   such frame bearing its id after it was issued unless its timer or drain came first. Unless the
   loop's body has thrown, no call is lost.
   */
  lemma EndToEndCorrelation(w: World, inputs: seq<Input>)
    ensures var p := RunPipe(w, inputs);
      var s, tr := Run(w, p.trace), RpcTrace(w, p.trace);
      && Fed(tr) + FramesOf(Batch(w.lib, p.buffer)) == FramesOf(Batch(w.lib, p.received))
      && s.rpc == R.Run(w.lib, tr)
      && R.Ledger(s.rpc) && R.TimersMatch(s.rpc) && (!Failed(s) ==> R.Conserved(s.rpc))
      && forall i, id :: R.Issues(tr, i, id) ==> R.Told(w.lib, tr, i, id)
  {
    var p := RunPipe(w, inputs);
    var tr := RpcTrace(w, p.trace);
    FedWithBuffer(w, inputs);
    RpcIsARun(w, p.trace);
    LostOnlyIfFailed(w, p.trace);
    forall i, id | R.Issues(tr, i, id) ensures R.Told(w.lib, tr, i, id) {
      R.FirstCloseDecides(w.lib, tr, i, id);
    }
  }

  lemma FedWithBuffer(w: World, inputs: seq<Input>)
    ensures var p := RunPipe(w, inputs);
      Fed(RpcTrace(w, p.trace)) + FramesOf(Batch(w.lib, p.buffer)) == FramesOf(Batch(w.lib, p.received))
  {
    var p := RunPipe(w, inputs);
    PipeStaysInStep(w, inputs);
    FedIsArrived(w, p.trace);
    FramesOfConcat(Arrived(w, p.trace), Batch(w.lib, p.buffer));
  }

  // Inbound requests --------------------------------------------------------------------------------

  /** The requests the handlers were started for. */
  function Handled(handlers: seq<Handler>): seq<(Json, string)> {
    if handlers == [] then [] else
    var x := handlers[|handlers| - 1];
    Handled(handlers[..|handlers| - 1]) + [(x.id, x.methodName)]
  }

  /** The request in a frame: it has an id, and a method that is a string. */
  function Asked(f: Frame): seq<(Json, string)> {
    if f.id.Some? && f.methodName.Some? && f.methodName.value.Str? then [(f.id.value, f.methodName.value.s)] else []
  }

  function AskedIn(frames: seq<Frame>): seq<(Json, string)> {
    if frames == [] then [] else AskedIn(frames[..|frames| - 1]) + Asked(frames[|frames| - 1])
  }

  /** The requests among the frames fed to the client that are not replies to a pending call. */
  function Unclaimed(lib: Lib, tr: seq<R.Action>): seq<(Json, string)> {
    if tr == [] then [] else
    var pre, a := tr[..|tr| - 1], tr[|tr| - 1];
    Unclaimed(lib, pre) + if a.Feed? && !R.Accepts(lib, R.Run(lib, pre), a.frame) then Asked(a.frame) else []
  }

  lemma HandledGrows(w: World, s: State, a: Action)
    ensures var t := Step(w, s, a);
      Handled(t.handlers) == Handled(s.handlers) +
        if a.Arrive? && a.v.Object? && s.phase.Running? && !R.Accepts(w.lib, s.rpc, a.v.frame)
        then Asked(a.v.frame) else []
  {
    var t := Step(w, s, a);
    if a.Arrive? {
      ArriveHandles(w, s, a.v, a.env);
    } else {
      NoArrivalKeepsRequests(w, s, a);
      SameRequests(s.handlers, t.handlers);
    }
  }

  lemma ArriveHandles(w: World, s: State, v: Value, env: Env)
    ensures Handled(ArriveStep(w, s, v, env).handlers) == Handled(s.handlers) +
      if v.Object? && s.phase.Running? && !R.Accepts(w.lib, s.rpc, v.frame) then Asked(v.frame) else []
  {
    var t := ArriveStep(w, s, v, env);
    var r := RouteOf(w.lib, s.rpc, v);
    if s.phase.Running? && r.Dispatched? {
      DispatchWrites(w, s.(rpc := FeedValue(w.lib, s.rpc, v)), r.methodName, r.params, env);
      assert t.handlers[..|t.handlers| - 1] == s.handlers;
    }
  }

  lemma NoArrivalKeepsRequests(w: World, s: State, a: Action)
    requires !a.Arrive?
    ensures var t := Step(w, s, a);
      && |t.handlers| == |s.handlers|
      && forall h :: 0 <= h < |s.handlers| ==>
           t.handlers[h].id == s.handlers[h].id && t.handlers[h].methodName == s.handlers[h].methodName
  {
  }

  lemma {:induction false} SameRequests(a: seq<Handler>, b: seq<Handler>)
    requires |a| == |b|
    requires forall h :: 0 <= h < |a| ==> b[h].id == a[h].id && b[h].methodName == a[h].methodName
    ensures Handled(a) == Handled(b)
  {
    if a != [] { SameRequests(a[..|a| - 1], b[..|b| - 1]); }
  }

  lemma {:induction false} HandledIsUnclaimed(w: World, acts: seq<Action>)
    ensures Handled(Run(w, acts).handlers) == Unclaimed(w.lib, RpcTrace(w, acts))
  {
    if acts != [] {
      var pre, a := acts[..|acts| - 1], acts[|acts| - 1];
      HandledIsUnclaimed(w, pre);
      HandledGrows(w, Run(w, pre), a);
      UnclaimedGrows(w, acts);
    }
  }

  lemma UnclaimedGrows(w: World, acts: seq<Action>)
    requires acts != []
    ensures var pre, a := acts[..|acts| - 1], acts[|acts| - 1];
      var s := Run(w, pre);
      Unclaimed(w.lib, RpcTrace(w, acts)) == Unclaimed(w.lib, RpcTrace(w, pre)) +
        if a.Arrive? && a.v.Object? && s.phase.Running? && !R.Accepts(w.lib, s.rpc, a.v.frame)
        then Asked(a.v.frame) else []
  {
    var pre, a := acts[..|acts| - 1], acts[|acts| - 1];
    TraceGrows(w, acts);
    RpcIsARun(w, pre);
    FeedActions(Run(w, pre), a);
    UnclaimedSnoc(w.lib, RpcTrace(w, acts), RpcTrace(w, pre), RpcActions(Run(w, pre), a));
  }

  lemma UnclaimedSnoc(lib: Lib, tr: seq<R.Action>, pre: seq<R.Action>, more: seq<R.Action>)
    requires if more == [] then tr == pre else tr != [] && tr[..|tr| - 1] == pre && tr[|tr| - 1] == more[0]
    ensures Unclaimed(lib, tr) == Unclaimed(lib, pre) +
      if more != [] && more[0].Feed? && !R.Accepts(lib, R.Run(lib, pre), more[0].frame)
      then Asked(more[0].frame) else []
  {
  }

  /** No frame is a request and a reply at once: JSON-RPC 2.0, sections 4 and 5. */
  ghost predicate Unmixed(frames: seq<Frame>) {
    forall f :: f in frames && R.IsReply(f) ==> Asked(f) == []
  }

  lemma {:induction false} UnclaimedIsAsked(lib: Lib, tr: seq<R.Action>)
    requires Unmixed(Fed(tr))
    ensures Unclaimed(lib, tr) == AskedIn(Fed(tr))
  {
    if tr != [] {
      var pre, a := tr[..|tr| - 1], tr[|tr| - 1];
      if a.Feed? {
        assert Fed(tr) == Fed(pre) + [a.frame];
        assert a.frame in Fed(tr) && forall f :: f in Fed(pre) ==> f in Fed(tr);
        UnclaimedIsAsked(lib, pre);
        AskedInConcat(Fed(pre), [a.frame]);
        assert AskedIn([a.frame]) == [] + Asked(a.frame) == Asked(a.frame);
        assert !R.IsReply(a.frame) ==> !R.Accepts(lib, R.Run(lib, pre), a.frame);
      } else {
        assert Fed(tr) == Fed(pre);
        UnclaimedIsAsked(lib, pre);
      }
    }
  }

  lemma {:induction false} AskedInConcat(a: seq<Frame>, b: seq<Frame>)
    ensures AskedIn(a + b) == AskedIn(a) + AskedIn(b)
  {
    if b == [] {
      assert a + b == a;
    } else {
      assert (a + b)[..|a + b| - 1] == a + b[..|b| - 1];
      AskedInConcat(a, b[..|b| - 1]);
    }
  }

  /**
   For input bytes cut into any chunks and every interleaving: one handler is started, in order, for
   each frame that is a request and was not taken as the reply to a pending call; so if the peer mixes
   no request with a reply, the requests handled, with those still in the buffer, are the requests of
   the whole input in order, whatever their ids.
   */
  lemma EveryRequestIsHandled(w: World, inputs: seq<Input>, p: Pipe)
    requires p == RunPipe(w, inputs)
    ensures Handled(Run(w, p.trace).handlers) == Unclaimed(w.lib, RpcTrace(w, p.trace))
    ensures Unmixed(FramesOf(Batch(w.lib, p.received))) ==>
      Handled(Run(w, p.trace).handlers) + AskedIn(FramesOf(Batch(w.lib, p.buffer)))
        == AskedIn(FramesOf(Batch(w.lib, p.received)))
  {
    var tr, rest := RpcTrace(w, p.trace), FramesOf(Batch(w.lib, p.buffer));
    HandledIsUnclaimed(w, p.trace);
    FedWithBuffer(w, inputs);
    AskedInConcat(Fed(tr), rest);
    if Unmixed(FramesOf(Batch(w.lib, p.received))) {
      assert forall f :: f in Fed(tr) ==> f in Fed(tr) + rest;
      UnclaimedIsAsked(w.lib, tr);
    }
  }

  // Shutdown ----------------------------------------------------------------------------------------

  /** Every id issued so far has its one outcome. */
  ghost predicate AllSettled(s: R.State) {
    && (forall id :: 1 <= id < s.nextId ==> id in s.promises && |s.promises[id]| == 1)
    && s.pending == map[] && s.timers == map[]
  }

  lemma DrainSettlesAll(s: R.State, reason: string)
    requires R.Conserved(s) && R.TimersMatch(s)
    ensures AllSettled(R.DrainStep(s, reason))
  {
    R.DrainClosedForm(s, reason);
    var t := R.DrainStep(s, reason);
    forall id | 1 <= id < t.nextId ensures id in t.promises && |t.promises[id]| == 1 {
      assert !R.Lost(s, id);
    }
  }

  /** At process exit every outbound call ever issued has been settled, exactly once. */
  lemma {:induction false} ShutdownConservation(w: World, acts: seq<Action>)
    ensures Run(w, acts).phase.Exited? ==> AllSettled(Run(w, acts).rpc)
  {
    if acts != [] {
      var pre := acts[..|acts| - 1];
      var s := Run(w, pre);
      ShutdownConservation(w, pre);
      StepsTowardsExit(w, s, acts[|acts| - 1]);
      LostOnlyIfFailed(w, pre);
      if Run(w, acts).phase.Exited? && !s.phase.Exited? {
        DrainSettlesAll(s.rpc, REASON);
      }
    }
  }

  /**
   Once the flag is set, at most one more request is dispatched, and then the loop has been left.
   */
  lemma {:induction false} AtMostOneMoreRequest(w: World, acts: seq<Action>, more: seq<Action>)
    requires Run(w, acts).shuttingDown
    ensures var s, t := Run(w, acts), Run(w, acts + more);
      && t.shuttingDown
      && |t.handlers| <= |s.handlers| + 1
      && (|t.handlers| == |s.handlers| + 1 ==> !t.phase.Running?)
  {
    if more == [] {
      assert acts + more == acts;
    } else {
      var m := |more| - 1;
      assert (acts + more)[..|acts + more| - 1] == acts + more[..m];
      AtMostOneMoreRequest(w, acts, more[..m]);
      var t := Run(w, acts + more[..m]);
      StepsTowardsExit(w, t, more[m]);
      DispatchLeavesLoop(w, t, more[m]);
    }
  }

  lemma DispatchLeavesLoop(w: World, s: State, a: Action)
    ensures var t := Step(w, s, a);
      && |s.handlers| <= |t.handlers| <= |s.handlers| + 1
      && (|t.handlers| == |s.handlers| + 1 ==>
            s.phase.Running? && (s.shuttingDown ==> !t.phase.Running?))
  {
    HandlersOnlyByArrive(w, s, a);
  }
}
