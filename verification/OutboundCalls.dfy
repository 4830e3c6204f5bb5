/** rpc.ts on the pipe: which frame a call writes, and whose reply settles it. */
module OutboundCalls {
  import opened Basics
  import opened Protocol
  import opened Framing
  import R = Rpc
  import S = Session
  import opened Sidecar
  import E = EndToEnd

  /** What the peer reads from a frame that calls it: JSON-RPC 2.0, section 4. */
  predicate Calls(f: Frame, id: int, methodName: string, params: Json) {
    && f.id == Some(Num(id)) && f.methodName == Some(Str(methodName)) && f.params == Some(params)
    && f.result.None? && f.error.None?
  }

  /** The calls issued so far, in order: the first has the id 1. */
  function CallsMade(w: World, acts: seq<Action>): seq<(string, Json)> {
    if acts == [] then [] else
    var pre, a := acts[..|acts| - 1], acts[|acts| - 1];
    CallsMade(w, pre) + if a.Outbound? && !Over(Run(w, pre)) then [(a.methodName, a.params)] else []
  }

  /** The frames written for the call with this id. */
  function WrittenFor(log: seq<Record>, id: int): seq<Frame> {
    if log == [] then [] else
    var e := log[|log| - 1];
    WrittenFor(log[..|log| - 1], id) + if e.origin == ByRpc(id) then [e.frame] else []
  }

  /** One frame that calls the peer with this id, method and parameters, unless it cannot be serialised. */
  ghost predicate Written(lib: Lib, written: seq<Frame>, id: int, call: (string, Json)) {
    if written == [] then forall f :: Calls(f, id, call.0, call.1) ==> lib.encode(f).None?
    else |written| == 1 && Calls(written[0], id, call.0, call.1)
  }

  ghost predicate CallsOnPipe(lib: Lib, s: State, calls: seq<(string, Json)>) {
    && s.rpc.nextId == |calls| + 1
    && (forall id :: 1 <= id <= |calls| ==> Written(lib, WrittenFor(s.out.log, id), id, calls[id - 1]))
    && (forall id :: id < 1 || |calls| < id ==> WrittenFor(s.out.log, id) == [])
  }

  /** Nothing is written, or one frame that is not for a call. */
  ghost predicate WritesNoCall(lib: Lib, o: Out, p: Out) {
    p == o || exists origin, f :: p == Write(lib, o, origin, f) && !origin.ByRpc?
  }

  lemma PerformCallsNobody(w: World, s: State, ref: nat, a: S.Action)
    ensures WritesNoCall(w.lib, s.out, Perform(w, s, ref, a).out)
  {
    if ref < |s.sessions| {
      var t := w.perform(s.sessions[ref], a);
      var frames := S.Spoken(s.sessions[ref], t);
      if frames != [] {
        assert Perform(w, s, ref, a).out == Write(w.lib, s.out, BySession(ref), frames[0]);
      }
    }
  }

  lemma DispatchCallsNobody(w: World, s: State, methodName: string, params: Json, env: Env)
    ensures WritesNoCall(w.lib, s.out, Dispatch(w, s, methodName, params, env).0.out)
  {
    var t := Dispatch(w, s, methodName, params, env).0;
    if methodName == SESSION_CREATE {
      assert t.out == s.out || t.out == Write(w.lib, s.out, ByMain, LogFrame("session created"));
    } else if Lookup(s, params).Some? {
      var ref := Lookup(s, params).value.1;
      forall a ensures WritesNoCall(w.lib, s.out, Perform(w, s, ref, a).out) {
        PerformCallsNobody(w, s, ref, a);
      }
    }
  }

  lemma SettleCallsNobody(lib: Lib, s: State, h: nat, err: Thrown)
    ensures WritesNoCall(lib, s.out, SettleStep(lib, s, h, err).out)
  {
    var t := SettleStep(lib, s, h, err);
    if t.out != s.out {
      var f := Answer(lib, s.handlers[h].id, s.handlers[h].stage, err);
      assert t.out == Write(lib, s.out, ByHandler(h), f.value);
    }
  }

  lemma StepCallsNobody(w: World, s: State, a: Action)
    requires !a.Outbound?
    ensures WritesNoCall(w.lib, s.out, Step(w, s, a).out)
  {
    match a
    case Arrive(v, env) =>
      var r := RouteOf(w.lib, s.rpc, v);
      if r.Dispatched? {
        DispatchCallsNobody(w, s.(rpc := FeedValue(w.lib, s.rpc, v)), r.methodName, r.params, env);
      }
    case OnSession(ref, act) => PerformCallsNobody(w, s, ref, act);
    case MainClose(ref) => PerformCallsNobody(w, s, ref, S.CloseBegin);
    case Settle(h, err) => SettleCallsNobody(w.lib, s, h, err);
    case CloseDone(h) =>
      assert Step(w, s, a).out == s.out || Step(w, s, a).out == Write(w.lib, s.out, ByMain, LogFrame("session closed"));
    case _ =>
  }

  lemma WrittenAfterWrite(lib: Lib, o: Out, origin: Origin, f: Frame, id: int)
    ensures WrittenFor(Write(lib, o, origin, f).log, id) ==
      WrittenFor(o.log, id) + if lib.encode(f).Some? && origin == ByRpc(id) then [f] else []
  {
    if lib.encode(f).Some? {
      var log := Write(lib, o, origin, f).log;
      assert log[..|log| - 1] == o.log;
    }
  }

  lemma NoCallKeepsWritten(lib: Lib, o: Out, p: Out, id: int)
    requires WritesNoCall(lib, o, p)
    ensures WrittenFor(p.log, id) == WrittenFor(o.log, id)
  {
    if p != o {
      var origin, f :| p == Write(lib, o, origin, f) && !origin.ByRpc?;
      WrittenAfterWrite(lib, o, origin, f, id);
      assert WrittenFor(o.log, id) + [] == WrittenFor(o.log, id);
    }
  }

  lemma SilentCallsKept(w: World, s: State, a: Action, calls: seq<(string, Json)>)
    requires CallsOnPipe(w.lib, s, calls) && (!a.Outbound? || Over(s))
    ensures CallsOnPipe(w.lib, Step(w, s, a), calls)
  {
    var t := Step(w, s, a);
    if !Over(s) {
      StepCallsNobody(w, s, a);
      E.StepMovesRpc(w, s, a);
      assert t.rpc.nextId == s.rpc.nextId;
      forall id ensures WrittenFor(t.out.log, id) == WrittenFor(s.out.log, id) {
        NoCallKeepsWritten(w.lib, s.out, t.out, id);
      }
    }
  }

  lemma OneMoreCall(lib: Lib, s: State, calls: seq<(string, Json)>, m: string, params: Json, timeoutMs: Option<int>)
    requires CallsOnPipe(lib, s, calls)
    ensures CallsOnPipe(lib, OutboundStep(lib, s, m, params, timeoutMs), calls + [(m, params)])
  {
    var t, n := OutboundStep(lib, s, m, params, timeoutMs), |calls| + 1;
    var f := Request(n, m, params);
    forall id ensures WrittenFor(t.out.log, id) ==
      WrittenFor(s.out.log, id) + if lib.encode(f).Some? && id == n then [f] else []
    {
      WrittenAfterWrite(lib, s.out, ByRpc(n), f, id);
    }
    forall id | 1 <= id <= n ensures Written(lib, WrittenFor(t.out.log, id), id, (calls + [(m, params)])[id - 1]) {
      if id < n {
        assert (calls + [(m, params)])[id - 1] == calls[id - 1];
      }
    }
  }

  lemma NoCallsYet(w: World)
    ensures CallsOnPipe(w.lib, Init(w), [])
  {
    var ready, log := ReadyFrame(w.versions), LogFrame("sidecar ready (sdk " + w.versions.sdk + ")");
    forall id ensures WrittenFor(Init(w).out.log, id) == [] {
      WrittenAfterWrite(w.lib, Out("", []), ByMain, ready, id);
      WrittenAfterWrite(w.lib, Write(w.lib, Out("", []), ByMain, ready), ByMain, log, id);
    }
  }

  /**
   In every run the frame written for a call carries the id under which the call is pending, its
   method and its parameters, and is no reply; it is written once, unless it cannot be serialised.
   */
  lemma {:induction false} EachCallIsWrittenOnce(w: World, acts: seq<Action>)
    ensures CallsOnPipe(w.lib, Run(w, acts), CallsMade(w, acts))
  {
    if acts == [] {
      NoCallsYet(w);
    } else {
      var pre, a := acts[..|acts| - 1], acts[|acts| - 1];
      EachCallIsWrittenOnce(w, pre);
      if a.Outbound? && !Over(Run(w, pre)) {
        OneMoreCall(w.lib, Run(w, pre), CallsMade(w, pre), a.methodName, a.params, a.timeoutMs);
      } else {
        SilentCallsKept(w, Run(w, pre), a, CallsMade(w, pre));
        assert CallsMade(w, acts) == CallsMade(w, pre);
      }
    }
  }

  lemma {:induction false} EntryIsWritten(log: seq<Record>, i: nat, id: int)
    requires i < |log| && log[i].origin == ByRpc(id)
    ensures log[i].frame in WrittenFor(log, id)
  {
    if i < |log| - 1 { EntryIsWritten(log[..|log| - 1], i, id); }
  }

  /** What a reply with these members gives its call. */
  function Settles(result: Option<Json>, error: Option<Json>): R.Outcome
    requires result.Some? || error.Some?
  {
    if error.Some? then R.Failed(error.value) else R.Resolved(result.value)
  }

  lemma FeedSettles(lib: Lib, s: R.State, id: int, result: Option<Json>, error: Option<Json>)
    requires R.Ledger(s) && id in s.pending && lib.number(Num(id)) == Some(id)
    requires (result.Some? || error.Some?) && error != Some(Null)
    ensures var f := Frame(Some(Num(id)), None, None, result, error);
      && R.Accepts(lib, s, f) && !R.Throws(lib, s, f)
      && var t := R.FeedStep(lib, s, f);
         && t.promises == s.promises[id := [Settles(result, error)]]
         && t.pending == s.pending - {id} && t.timers == s.timers - {id} && t.nextId == s.nextId
  {
    var f := Frame(Some(Num(id)), None, None, result, error);
    assert s.promises[id] == [] && [] + R.Gives(f) == R.Gives(f) == [Settles(result, error)];
  }

  /**
   A reply that bears the id of a frame on the pipe settles exactly the call that wrote that frame, if
   it is pending: with the error if there is one, else with the result; every other call, and
   everything else, stays as it was.
   */
  lemma ReplySettlesItsCall(
      w: World, acts: seq<Action>, i: nat, id: int, result: Option<Json>, error: Option<Json>, env: Env)
    requires w.lib.number(Num(id)) == Some(id)
    requires Run(w, acts).phase.Running? && id in Run(w, acts).rpc.pending
    requires i < |Run(w, acts).out.log| && Run(w, acts).out.log[i].origin == ByRpc(id)
    requires (result.Some? || error.Some?) && error != Some(Null)
    ensures var s := Run(w, acts);
      var reply := Frame(s.out.log[i].frame.id, None, None, result, error);
      var t := Step(w, s, Arrive(Object(reply), env));
      && t.rpc.promises == s.rpc.promises[id := [Settles(result, error)]]
      && t.rpc.pending == s.rpc.pending - {id} && t.rpc.timers == s.rpc.timers - {id}
      && t == s.(rpc := t.rpc)
  {
    var s := Run(w, acts);
    EachCallIsWrittenOnce(w, acts);
    EntryIsWritten(s.out.log, i, id);
    assert Written(w.lib, WrittenFor(s.out.log, id), id, CallsMade(w, acts)[id - 1]);
    E.LostOnlyIfFailed(w, acts);
    FeedSettles(w.lib, s.rpc, id, result, error);
  }

  /**
   A call with a delay of 1 to 2^31 - 1 ms is timed out by its timer from that many ms after its issue
   on and not before; without one after 30 s; with any other after 1 ms.
   */
  lemma TimesOutExactlyAfterItsDelay(s: R.State, m: string, timeoutMs: Option<int>, passed: nat, delay: int)
    requires R.Ledger(s) && R.TimersMatch(s)
    requires match timeoutMs
      case None => delay == 30000
      case Some(ms) => if 1 <= ms <= 2147483647 then delay == ms else delay == 1
    ensures var t := R.CallStep(s, m, timeoutMs);
      var u := R.FireStep(t.(clock := t.clock + passed), s.nextId);
      if passed < delay then
        s.nextId in u.pending && u.promises[s.nextId] == []
      else
        && s.nextId !in u.pending
        && u.promises[s.nextId] == [R.TimedOut(m, if timeoutMs.Some? then timeoutMs.value else 30000)]
  {
    var t := R.CallStep(s, m, timeoutMs);
    assert t.timers[s.nextId] == s.clock + delay;
    var u := R.FireStep(t.(clock := t.clock + passed), s.nextId);
    assert t.promises[s.nextId] == [];
    if passed >= delay {
      var o := R.TimedOut(m, if timeoutMs.Some? then timeoutMs.value else 30000);
      assert u.promises[s.nextId] == [] + [o] == [o];
    }
  }
}
