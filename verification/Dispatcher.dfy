/** index.ts: the process, segment by segment between awaits, against the steps of module Sidecar. */
module Dispatcher {
  import opened Basics
  import opened Protocol
  import opened Framing
  import R = Rpc
  import S = Session
  import Q = QuerySessions
  import B = Bridges
  import opened QueryOptions
  import opened Sidecar

  class Process {
    const out: Wire
    const rpc: R.OutboundRpc
    const versions: Versions
    var sessions: map<string, Q.QuerySession>
    // Every session object that was started; its own pumps keep it alive.
    var made: seq<Q.QuerySession>
    // The calls of handleRequest, and where they stand.
    var handlers: seq<Handler>
    var shuttingDown: bool
    var phase: Phase
    ghost var table: map<string, nat>
    ghost var states: seq<S.State>
    ghost var options: seq<seq<B.Options>>

    ghost function Model(): World { RealWorld(out.lib, versions) }

    ghost function View(): State
      reads this, rpc, out
    {
      State(table, states, rpc.View(), handlers, out.View(), shuttingDown, phase)
    }

    /** The objects are what the state says, no two sessions share a channel, and all share the pipe. */
    ghost predicate Valid()
      reads this, rpc, out, made, set i | 0 <= i < |made| :: made[i].input
    {
      && rpc.out == out && rpc.Valid()
      && |made| == |states| == |options|
      && (forall i :: 0 <= i < |made| ==>
            && made[i].out == out && made[i].ref == i && made[i].Valid()
            && made[i].View() == states[i] && made[i].handed == options[i])
      && table.Keys == sessions.Keys
      && (forall sid :: sid in sessions ==> table[sid] < |made| && sessions[sid] == made[table[sid]])
    }

    /** main up to the loop. */
    constructor (lib: Lib, versions: Versions)
      ensures Valid() && View() == Init(Model()) && made == [] && options == []
      ensures out.lib == lib && this.versions == versions
      ensures fresh(out) && fresh(rpc)
    {
      var wire := new Wire(lib);
      var ready := wire.Send(ReadyFrame(versions), ByMain);
      var logged := wire.Send(LogFrame("sidecar ready (sdk " + versions.sdk + ")"), ByMain);
      out := wire;
      rpc := new R.OutboundRpc(wire);
      this.versions := versions;
      sessions, made, handlers, shuttingDown, phase := map[], [], [], false, Running;
      table, states, options := map[], [], [];
    }

    // The loop ------------------------------------------------------------------------------------

    /** The head of the loop's body: where the frame goes, and what the client does with it. */
    method RouteFrame(v: Value) returns (route: Route)
      requires Valid()
      modifies rpc
      ensures route == RouteOf(out.lib, old(rpc.View()), v)
      ensures Valid() && View() == old(View()).(rpc := FeedValue(out.lib, old(rpc.View()), v))
    {
      match v
      case NullValue => route := Throws;
      case Scalar(_) => route := Ignored;
      case Object(frame) =>
        var absorbed, threw := rpc.Feed(frame);
        if threw { return Throws; }
        if absorbed { return Absorbed; }
        if frame.id.None? || frame.methodName.None? || !frame.methodName.value.Str? { return Ignored; }
        route := Dispatched(frame.id.value, frame.methodName.value.s, ParamsOf(frame));
    }

    // Dispatch --------------------------------------------------------------------------------------

    /** One session object has been made, with a channel of its own. */
    twostate predicate Grown(before: seq<Q.QuerySession>)
      reads this, set i | 0 <= i < |made| :: made[i]
    {
      && |made| == |before| + 1 && made[..|before|] == before
      && fresh(made[|before|]) && fresh(made[|before|].input)
    }

    static method NewSession(out: Wire, sid: string, params: Json, ref: nat) returns (x: Q.QuerySession)
      ensures fresh(x) && fresh(x.input) && x.out == out && x.ref == ref
      ensures x.Valid() && x.View() == S.Init(sid)
      ensures x.handed == [B.Enriched(B.OptionsIn(params), B.BridgingIn(params))]
    {
      x := new Q.QuerySession.Create(out, sid, params, true, ref);
    }

    /** A session whose query was started gets the next number. */
    method AddSession(sid: string, params: Json)
      requires Valid()
      modifies this`sessions, this`made, this`table, this`states, this`options
      ensures Valid()
      ensures table == old(table)[sid := |old(states)|] && states == old(states) + [S.Init(sid)]
      ensures options == old(options) + [[B.Enriched(B.OptionsIn(params), B.BridgingIn(params))]]
      ensures Grown(old(made))
    {
      var session := NewSession(out, sid, params, |made|);
      ghost var x, o := session.View(), session.handed;
      table, states, options := table[sid := |made|], states + [x], options + [o];
      made, sessions := made + [session], sessions[sid := session];
      assert session.Valid() && session.View() == x && session.handed == o;
      StillValidGrown(session, sid);
    }

    twostate lemma StillValidGrown(new session: Q.QuerySession, sid: string)
      requires old(Valid()) && unchanged(rpc) && session.Valid() && session.out == out && session.ref == |old(made)|
      requires made == old(made) + [session]
      requires states == old(states) + [session.View()] && options == old(options) + [session.handed]
      requires sessions == old(sessions)[sid := session] && table == old(table)[sid := |old(made)|]
      requires forall i :: 0 <= i < |old(made)| ==> unchanged(old(made)[i]) && unchanged(old(made)[i].input)
      ensures Valid()
    {
      forall i | 0 <= i < |made|
        ensures made[i].out == out && made[i].ref == i && made[i].Valid()
        ensures made[i].View() == states[i] && made[i].handed == options[i]
      {
        if i < |old(made)| {
          assert made[i] == old(made)[i] && states[i] == old(states)[i] && options[i] == old(options)[i];
          Untouched(made[i]);
        } else {
          assert made[i] == session;
        }
      }
    }

    /** session.create: the session is kept only if its query was started. */
    method CreateSession(params: Json, env: Env) returns (stage: Stage)
      requires Valid()
      modifies this`sessions, this`made, this`table, this`states, this`options, out
      ensures Valid() && (View(), stage) == Create(Model(), old(View()), params, env)
      ensures made == old(made) || Grown(old(made))
      ensures options == OptionsAfter(old(View()), SESSION_CREATE, params, env, old(options))
    {
      stage := CreateOutcome(sessions.Keys, params, env);
      if stage.Returning? {
        AddAndLog(params);
        Creates(Model(), old(View()), params, env);
      }
    }

    method AddAndLog(params: Json)
      requires Valid() && Get(params, "sessionId").Some? && Get(params, "sessionId").value.Str?
      modifies this`sessions, this`made, this`table, this`states, this`options, out
      ensures Valid() && Grown(old(made))
      ensures View() == old(View()).(
        table := old(table)[Get(params, "sessionId").value.s := |old(states)|],
        sessions := old(states) + [S.Init(Get(params, "sessionId").value.s)],
        out := Write(out.lib, old(out.View()), ByMain, LogFrame("session created")))
      ensures options == old(options) + [[B.Enriched(B.OptionsIn(params), B.BridgingIn(params))]]
    {
      AddSession(Get(params, "sessionId").value.s, params);
      Log("session created");
    }

    method Log(message: string)
      requires Valid()
      modifies out
      ensures Valid() && View() == old(View()).(out := Write(out.lib, old(out.View()), ByMain, LogFrame(message)))
    {
      var ok := out.Send(LogFrame(message), ByMain);
    }

    /** No two session objects are one, and neither are their channels. */
    lemma Apart(ref: nat)
      requires Valid() && ref < |made|
      ensures forall i :: 0 <= i < |made| && i != ref ==> made[i] != made[ref] && made[i].input != made[ref].input
    {
      forall i | 0 <= i < |made| && i != ref ensures made[i] != made[ref] && made[i].input != made[ref].input {
        assert made[i].ref == i && made[ref].ref == ref;
        assert made[i].input.owner == i && made[ref].input.owner == ref;
      }
    }

    twostate lemma StillValid(ref: nat)
      requires old(Valid()) && ref < |made| && unchanged(rpc)
      requires made == old(made) && sessions == old(sessions) && table == old(table)
      requires |states| == |made| && states == old(states)[ref := made[ref].View()] && made[ref].Valid()
      requires |options| == |made| && options == old(options)[ref := made[ref].handed]
      requires forall i :: 0 <= i < |made| && i != ref ==> unchanged(made[i]) && unchanged(made[i].input)
      ensures Valid()
    {
      forall i | 0 <= i < |made|
        ensures made[i].out == out && made[i].ref == i && made[i].Valid()
        ensures made[i].View() == states[i] && made[i].handed == options[i]
      {
        if i != ref {
          Untouched(made[i]);
          assert states[i] == old(states)[i] && options[i] == old(options)[i];
        }
      }
    }

    // What the session with a given number does: one action of the machine of module Session.

    method TellSend(ref: nat, content: Json, turnId: Option<Json>) returns (turn: Option<S.Turn>)
      requires Valid() && ref < |made|
      modifies this`states, made[ref], made[ref].input
      ensures Valid() && View() == Perform(Model(), old(View()), ref, S.Send(content, turnId))
      ensures turn == TurnSent(old(states)[ref], states[ref])
      ensures made[ref].input == old(made[ref].input)
    {
      Apart(ref);
      turn := made[ref].Send(content, turnId);
      states := states[ref := made[ref].View()];
      StillValid(ref);
      PerformsQuietly(Model(), old(View()), ref, S.Send(content, turnId), states[ref]);
    }

    method TellControl(ref: nat, name: string, args: Option<Json>, known: bool) returns (call: Option<Json>)
      requires Valid() && ref < |made|
      modifies this`states, made[ref]
      ensures Valid() && View() == Perform(Model(), old(View()), ref, S.Control(name, args, known))
      ensures call.Some? == Controls(old(states)[ref], states[ref])
      ensures made[ref].input == old(made[ref].input)
    {
      Apart(ref);
      call := made[ref].Control(name, args, known);
      states := states[ref := made[ref].View()];
      StillValid(ref);
      PerformsQuietly(Model(), old(View()), ref, S.Control(name, args, known), states[ref]);
    }

    static method ResumeSession(x: Q.QuerySession, params: Json, queryStarts: bool)
      requires x.Valid()
      modifies x, x.input
      ensures x.Valid() && x.View() == S.ResumeStep(old(x.View()), queryStarts) && fresh(x.input)
      ensures x.handed == old(x.handed) + [B.WithResume(B.OptionsIn(params), Get(params, "sdkSessionId"))]
    {
      x.Resume(params, queryStarts);
    }

    method Reopen(ref: nat, params: Json, queryStarts: bool)
      requires Valid() && ref < |made|
      modifies this`states, this`options, made[ref], made[ref].input
      ensures Valid() && fresh(made[ref].input)
      ensures states == old(states)[ref := S.ResumeStep(old(states)[ref], queryStarts)]
      ensures options == ResumeOptions(old(options), ref, params)
    {
      Apart(ref);
      ResumeSession(made[ref], params, queryStarts);
      states := states[ref := made[ref].View()];
      options := options[ref := made[ref].handed];
      StillValid(ref);
    }

    method TellResume(ref: nat, params: Json, queryStarts: bool)
      requires Valid() && ref < |made|
      modifies this`states, this`options, made[ref], made[ref].input
      ensures Valid() && View() == Perform(Model(), old(View()), ref, S.Resume(queryStarts))
      ensures options == ResumeOptions(old(options), ref, params)
      ensures fresh(made[ref].input)
    {
      Reopen(ref, params, queryStarts);
      PerformsQuietly(Model(), old(View()), ref, S.Resume(queryStarts), states[ref]);
    }

    method TellClose(ref: nat) returns (k: nat)
      requires Valid() && ref < |made|
      modifies this`states, made[ref], made[ref].input
      ensures Valid() && View() == Perform(Model(), old(View()), ref, S.CloseBegin)
      ensures k == LastCloser(View(), ref)
      ensures made[ref].input == old(made[ref].input)
    {
      Apart(ref);
      k := made[ref].BeginClose();
      states := states[ref := made[ref].View()];
      StillValid(ref);
      PerformsQuietly(Model(), old(View()), ref, S.CloseBegin, states[ref]);
    }

    /** A pump goes on, a query uses its channel, or a close() call resumes. */
    method LetGoOn(ref: nat, a: S.Action)
      requires Valid() && Lawful(out.lib) && ref < |made| && S.Background(a)
      modifies this`states, made[ref], made[ref].input, out
      ensures Valid() && View() == Perform(Model(), old(View()), ref, a)
      ensures made[ref].input == old(made[ref].input)
    {
      Apart(ref);
      made[ref].GoOn(a);
      states := states[ref := made[ref].View()];
      StillValid(ref);
      Performs(Model(), old(View()), ref, a, states[ref]);
    }

    twostate lemma GrownIsRenewed()
      requires made == old(made) || Grown(old(made))
      requires forall i :: 0 <= i < |old(made)| ==> old(made)[i].input == old(made[i].input)
      ensures Renewed(old(made), made)
    {
      if made != old(made) {
        var n := |old(made)|;
        forall i | 0 <= i < n ensures made[i] == old(made)[i] {
          assert made[..n][i] == made[i];
        }
      }
    }

    twostate lemma OneRenewed(ref: nat)
      requires made == old(made) && ref < |made|
      requires forall i :: 0 <= i < |made| && i != ref ==> made[i].input == old(made[i].input)
      requires made[ref].input == old(made[ref].input) || fresh(made[ref].input)
      ensures Renewed(old(made), made)
    {
    }

    /** lookup: the id in the request, and the number of the session it routes to. */
    function LookupSession(params: Json): Option<(string, nat)>
      reads this
    {
      match Get(params, "sessionId")
      case Some(Str(sid)) => if sid in sessions then Some((sid, sessions[sid].ref)) else None
      case _ => None
    }

    lemma LookupFinds(params: Json)
      requires Valid()
      ensures LookupSession(params) == Lookup(View(), params)
      ensures LookupSession(params).Some? ==> LookupSession(params).value.1 < |made|
    {
    }

    method SendRequest(ref: nat, params: Json) returns (stage: Stage)
      requires Valid() && ref < |made|
      modifies this`states, made[ref], made[ref].input
      ensures Valid() && made[ref].input == old(made[ref].input)
      ensures (View(), stage) == Sidecar.Send(Model(), old(View()), ref, params)
    {
      var content := if Get(params, "content").Some? then Get(params, "content").value else Null;
      var turn := TellSend(ref, content, Get(params, "turnId"));
      match turn
      case Some(t) => stage := Returning(Dict(map["turnId" := S.TurnId(t)]));
      case None => stage := Failure(None, "session closed");
    }

    method ControlRequest(ref: nat, params: Json, known: bool) returns (stage: Stage)
      requires Valid() && ref < |made|
      modifies this`states, made[ref]
      ensures Valid() && made[ref].input == old(made[ref].input)
      ensures (View(), stage) == Sidecar.Control(Model(), old(View()), ref, params, known)
    {
      var name := match Get(params, "method") case Some(Str(m)) => m case _ => "";
      var call := TellControl(ref, name, Get(params, "args"), known);
      stage := if call.Some? then AwaitControl else Failure(Some(ERROR_CONTROL_FAILED), "control rejected");
    }

    method ResumeRequest(sid: string, ref: nat, params: Json, env: Env) returns (stage: Stage)
      requires Valid() && ref < |made|
      modifies this`states, this`options, made[ref], made[ref].input
      ensures Valid() && fresh(made[ref].input)
      ensures View() == Perform(Model(), old(View()), ref, S.Resume(env.queryThrows.None?))
      ensures stage == if env.queryThrows.Some? then Throwing(env.queryThrows.value)
        else Returning(Dict(map["resumedAt" := env.now]["sessionId" := Str(sid)]))
      ensures options == ResumeOptions(old(options), ref, params)
    {
      TellResume(ref, params, env.queryThrows.None?);
      stage := if env.queryThrows.Some? then Throwing(env.queryThrows.value)
        else Returning(Dict(map["resumedAt" := env.now]["sessionId" := Str(sid)]));
    }

    method CloseRequest(sid: string, ref: nat) returns (stage: Stage)
      requires Valid() && ref < |made|
      modifies this`states, made[ref], made[ref].input
      ensures Valid() && made[ref].input == old(made[ref].input)
      ensures View() == Perform(Model(), old(View()), ref, S.CloseBegin)
      ensures stage == AwaitClose(sid, ref, LastCloser(View(), ref))
    {
      var k := TellClose(ref);
      stage := AwaitClose(sid, ref, k);
    }

    method DispatchToSession(methodName: string, sid: string, ref: nat, params: Json, env: Env) returns (stage: Stage)
      requires Valid() && ref < |made|
      modifies this`states, this`options, made[ref], made[ref].input
      ensures Valid() && (made[ref].input == old(made[ref].input) || fresh(made[ref].input))
      ensures (View(), stage) == ToSession(Model(), old(View()), methodName, sid, ref, params, env)
      ensures options == if methodName == SESSION_RESUME then ResumeOptions(old(options), ref, params) else old(options)
    {
      if methodName == SESSION_SEND {
        stage := SendRequest(ref, params);
      } else if methodName == SESSION_CONTROL {
        stage := ControlRequest(ref, params, env.known);
      } else if methodName == SESSION_RESUME {
        stage := ResumeRequest(sid, ref, params, env);
      } else {
        stage := CloseRequest(sid, ref);
      }
    }

    method CreateAnew(params: Json, env: Env) returns (stage: Stage)
      requires Valid()
      modifies this`sessions, this`made, this`table, this`states, this`options, out
      ensures Valid() && Renewed(old(made), made)
      ensures (View(), stage) == Create(Model(), old(View()), params, env)
      ensures options == OptionsAfter(old(View()), SESSION_CREATE, params, env, old(options))
    {
      stage := CreateSession(params, env);
      GrownIsRenewed();
    }

    method LookupAndDispatch(methodName: string, params: Json, env: Env) returns (stage: Stage)
      requires Valid() && methodName in {SESSION_SEND, SESSION_CONTROL, SESSION_RESUME, SESSION_CLOSE}
      modifies this`states, this`options, made, set i | 0 <= i < |made| :: made[i].input
      ensures Valid() && Renewed(old(made), made)
      ensures (View(), stage) == Looked(Model(), old(View()), methodName, params, env)
      ensures options == OptionsAfter(old(View()), methodName, params, env, old(options))
    {
      LookupFinds(params);
      match LookupSession(params)
      case None =>
        GrownIsRenewed();
        stage := Failure(Some(ERROR_SESSION_UNKNOWN), "no session");
      case Some((sid, ref)) =>
        stage := AtSession(methodName, sid, ref, params, env);
    }

    method AtSession(methodName: string, sid: string, ref: nat, params: Json, env: Env) returns (stage: Stage)
      requires Valid() && ref < |made|
      modifies this`states, this`options, made[ref], made[ref].input
      ensures Valid() && Renewed(old(made), made)
      ensures (View(), stage) == ToSession(Model(), old(View()), methodName, sid, ref, params, env)
      ensures options == if methodName == SESSION_RESUME then ResumeOptions(old(options), ref, params) else old(options)
    {
      Apart(ref);
      stage := DispatchToSession(methodName, sid, ref, params, env);
      OneRenewed(ref);
    }

    /** dispatch, up to the handler's first suspension. */
    method DispatchRequest(methodName: string, params: Json, env: Env) returns (stage: Stage)
      requires Valid()
      modifies this`sessions, this`made, this`table, this`states, this`options
      modifies out, made, set i | 0 <= i < |made| :: made[i].input
      ensures Valid() && Renewed(old(made), made)
      ensures (View(), stage) == Dispatch(Model(), old(View()), methodName, params, env)
      ensures options == OptionsAfter(old(View()), methodName, params, env, old(options))
    {
      if methodName == PING {
        stage := Returning(Dict(map["pong" := Bool(true)]["serverTime" := env.now]));
      } else if methodName == SHUTDOWN {
        stage := Returning(Dict(map["shuttingDown" := Bool(true)]));
      } else if methodName == SESSION_CREATE {
        stage := CreateAnew(params, env);
      } else if methodName !in {SESSION_SEND, SESSION_CONTROL, SESSION_RESUME, SESSION_CLOSE} {
        stage := Failure(Some(ERROR_METHOD_NOT_FOUND), "unknown method");
      } else {
        stage := LookupAndDispatch(methodName, params, env);
      }
    }

    /** handleRequest is called and runs to its first suspension; then the loop is left if the flag is set. */
    method Accept(id: Json, methodName: string, params: Json, env: Env)
      requires Valid()
      modifies this`sessions, this`made, this`table, this`states, this`options, this`handlers, this`phase
      modifies out, made, set i | 0 <= i < |made| :: made[i].input
      ensures Valid() && Renewed(old(made), made)
      ensures View() == Sidecar.Accept(Model(), old(View()), id, methodName, params, env)
      ensures options == OptionsAfter(old(View()), methodName, params, env, old(options))
    {
      var stage := DispatchRequest(methodName, params, env);
      StartHandler(Handler(id, methodName, stage, None));
    }

    method StartHandler(x: Handler)
      requires Valid()
      modifies this`handlers, this`phase
      ensures Valid()
      ensures View() == old(View()).(
        handlers := old(handlers) + [x], phase := if shuttingDown then Closing({}, None) else old(phase))
    {
      handlers := handlers + [x];
      if shuttingDown { phase := Closing({}, None); }
    }

    /** The loop's body, for one decoded frame. */
    method Arrive(v: Value, env: Env)
      requires Valid() && phase.Running?
      modifies this`sessions, this`made, this`table, this`states, this`options, this`handlers, this`phase
      modifies rpc, out, made, set i | 0 <= i < |made| :: made[i].input
      ensures Valid() && Renewed(old(made), made)
      ensures View() == ArriveStep(Model(), old(View()), v, env)
      ensures options == OptionsStep(Model(), old(View()), Action.Arrive(v, env), old(options))
    {
      ghost var w, was := Model(), View();
      var route := RouteFrame(v);
      ghost var fed := View();
      assert fed == was.(rpc := FeedValue(w.lib, was.rpc, v)) && options == old(options);
      FollowRoute(route, env);
      ArrivesByRoute(w, was, fed, v, env, route, old(options));
    }

    method FollowRoute(route: Route, env: Env)
      requires Valid()
      modifies this`sessions, this`made, this`table, this`states, this`options, this`handlers, this`phase
      modifies out, made, set i | 0 <= i < |made| :: made[i].input
      ensures Valid() && Renewed(old(made), made)
      ensures View() == Follow(Model(), old(View()), route, env)
      ensures options == OptionsFollow(old(View()), route, env, old(options))
    {
      if route.Dispatched? {
        Accept(route.id, route.methodName, route.params, env);
      } else {
        if route.Throws? { phase := Aborted; }
        GrownIsRenewed();
      }
    }

    // Handlers after their suspension ---------------------------------------------------------------

    /** What follows dispatch in handleRequest: one reply, if even an error can be sent. */
    method SendReply(h: nat, id: Json, outcome: Stage, err: Thrown) returns (sent: Option<bool>)
      requires outcome.Returning? || outcome.Throwing?
      modifies out
      ensures match Answer(out.lib, id, outcome, err)
        case Some(f) =>
          && sent == Some(f.result.Some?) && Answers(f, id)
          && out.View() == Write(out.lib, old(out.View()), ByHandler(h), f)
        case None => sent == None && out.View() == old(out.View())
      ensures sent.Some? ==>
        && |out.log| == |old(out.log)| + 1 && out.log[|old(out.log)|].origin == ByHandler(h)
        && TellsOutcome(out.lib, out.log[|old(out.log)|].frame, id, outcome)
    {
      AnswerAnswers(out.lib, id, outcome, err);
      if Answer(out.lib, id, outcome, err).Some? { AnswerTells(out.lib, id, outcome, err); }
      var thrown: Thrown;
      match outcome {
        case Returning(result) =>
          var ok := out.Send(Reply(id, result), ByHandler(h));
          if ok { return Some(true); }
          thrown := err;
        case Throwing(t) => thrown := t;
      }
      var ok := out.Send(ErrorReply(id, ErrorBody(thrown)), ByHandler(h));
      sent := if ok then Some(false) else None;
    }

    method SettleHandler(h: nat, err: Thrown)
      requires Valid()
      modifies this`handlers, out
      ensures Valid() && View() == SettleStep(out.lib, old(View()), h, err)
    {
      if h < |handlers| && (handlers[h].stage.Returning? || handlers[h].stage.Throwing?) {
        var sent := SendReply(h, handlers[h].id, handlers[h].stage, err);
        handlers := handlers[h := handlers[h].(stage := if sent.Some? then Replied(sent.value) else Dead)];
      }
    }

    /** then(shouldShutdown => ...): only the result reply of a shutdown request sets the flag. */
    method AfterReply(h: nat)
      requires Valid()
      modifies this`shuttingDown
      ensures Valid()
      ensures View() == old(View()).(shuttingDown := old(shuttingDown) || FlagReady(old(View()), h))
    {
      if h < |handlers| && handlers[h].methodName == SHUTDOWN && handlers[h].stage == Replied(true) {
        shuttingDown := true;
      }
    }

    /** What follows the await in session.control. */
    method ControlSettled(h: nat, answer: Stage)
      requires Valid()
      modifies this`handlers
      ensures Valid() && View() == ControlDoneStep(old(View()), h, answer)
    {
      if h < |handlers| && handlers[h].stage.AwaitControl? {
        match answer
        case Returning(value) =>
          handlers := handlers[h := handlers[h].(stage := Returning(Dict(map["value" := value])))];
        case Throwing(t) =>
          handlers := handlers[h := handlers[h].(
            stage := Throwing(Thrown(Some(ERROR_CONTROL_FAILED), t.message, None)))];
        case _ =>
      }
    }

    predicate CloseIsOver(ref: nat, k: nat)
      reads this, made
    {
      ref < |made| && k < |made[ref].closers| && made[ref].closers[k].resolved
    }

    /** What follows the await in session.close: whatever the id maps to by now is removed. */
    method CloseSettled(h: nat)
      requires Valid()
      modifies this`sessions, this`table, this`handlers, out
      ensures Valid() && View() == CloseDoneStep(out.lib, old(View()), h)
    {
      if h < |handlers| && handlers[h].stage.AwaitClose? && CloseIsOver(handlers[h].stage.ref, handlers[h].stage.k) {
        var sid, ref := handlers[h].stage.sid, handlers[h].stage.ref;
        RemoveEntry(sid);
        handlers := handlers[h := handlers[h].(
          stage := Returning(Dict(map["closed" := Bool(true)])), removed := Some(ref))];
      }
    }

    method RemoveEntry(sid: string)
      requires Valid()
      modifies this`sessions, this`table, out
      ensures Valid()
      ensures View() == old(View()).(
        table := old(table) - {sid}, out := Write(out.lib, old(out.View()), ByMain, LogFrame("session closed")))
    {
      DropEntry(sid);
      Log("session closed");
    }

    method DropEntry(sid: string)
      requires Valid()
      modifies this`sessions, this`table
      ensures Valid() && View() == old(View()).(table := old(table) - {sid})
    {
      sessions, table := sessions - {sid}, table - {sid};
      forall i | 0 <= i < |made|
        ensures made[i].Valid() && made[i].View() == states[i] && made[i].handed == options[i]
      {
        Untouched(made[i]);
      }
    }

    // Outbound calls and timers ---------------------------------------------------------------------

    method CallPeer(methodName: string, params: Json, timeoutMs: Option<int>)
      requires Valid()
      modifies rpc, out
      ensures Valid() && View() == OutboundStep(out.lib, old(View()), methodName, params, timeoutMs)
    {
      var id, threw := rpc.Call(methodName, params, timeoutMs);
    }

    method FireTimer(id: int)
      requires Valid()
      modifies rpc
      ensures Valid() && View() == old(View()).(rpc := R.FireStep(old(rpc.View()), id))
    {
      rpc.Fire(id);
    }

    method FireStaleTimer(id: int)
      requires Valid()
      modifies rpc
      ensures Valid()
      ensures View() == old(View()).(
        rpc := if id in old(rpc.timers) then old(rpc.View()) else R.Callback(old(rpc.View()), id))
    {
      if id !in rpc.timers { rpc.OnTimeout(id); }
    }

    method PassTime(ms: nat)
      requires Valid()
      modifies rpc
      ensures Valid() && View() == old(View()).(rpc := old(rpc.View()).(clock := old(rpc.clock) + ms))
    {
      rpc.Tick(ms);
    }

    // Shutdown ----------------------------------------------------------------------------------------

    /** The numbers of the sessions in the table. */
    function Entries(): set<nat>
      reads this
    {
      set sid | sid in sessions :: sessions[sid].ref
    }

    lemma EntriesAreValues()
      requires Valid()
      ensures Entries() == table.Values
      ensures forall ref :: ref in Entries() ==> ref < |made|
    {
      forall sid | sid in sessions ensures sessions[sid].ref == table[sid] && table[sid] in table.Values {
      }
    }

    method CloseInTurn(visited: set<nat>, ref: nat)
      requires Valid() && ref < |made|
      modifies this`states, this`phase, made[ref], made[ref].input
      ensures Valid()
      ensures var t := Perform(Model(), old(View()), ref, S.CloseBegin);
        View() == t.(phase := Closing(visited, Some((ref, LastCloser(t, ref)))))
      ensures forall i :: 0 <= i < |made| ==> made[i].input == old(made[i].input)
    {
      Apart(ref);
      var k := TellClose(ref);
      phase := Closing(visited, Some((ref, k)));
    }

    /** The loop over the sessions calls the next close(). */
    method CloseNext(ref: nat)
      requires Valid()
      modifies this`states, this`phase, made, set i | 0 <= i < |made| :: made[i].input
      ensures Valid() && View() == MainCloseStep(Model(), old(View()), ref)
      ensures forall i :: 0 <= i < |made| ==> made[i].input == old(made[i].input)
    {
      EntriesAreValues();
      if phase.Closing? && phase.waiting.None? && ref in Entries() && ref !in phase.visited {
        CloseInTurn(phase.visited, ref);
      }
    }

    method NextIsClosed()
      requires Valid()
      modifies this`phase
      ensures Valid() && View() == MainAwaitedStep(old(View()))
    {
      match phase
      case Closing(visited, Some((ref, k))) =>
        if CloseIsOver(ref, k) { phase := Closing(visited + {ref}, None); }
      case _ =>
    }

    method DrainCalls()
      requires Valid()
      modifies rpc
      ensures Valid() && View() == old(View()).(rpc := R.DrainStep(old(rpc.View()), REASON))
    {
      rpc.Drain(REASON);
    }

    method LeaveLoop()
      requires Valid()
      modifies this`phase
      ensures Valid()
      ensures View() == if old(phase).Running? then old(View()).(phase := Closing({}, None)) else old(View())
    {
      if phase.Running? { phase := Closing({}, None); }
    }

    method Crash()
      requires Valid()
      modifies this`phase
      ensures Valid() && View() == if Doomed(old(View())) then old(View()).(phase := Crashed) else old(View())
    {
      if phase.Aborted? || exists h :: 0 <= h < |handlers| && handlers[h].stage.Dead? { phase := Crashed; }
    }

    /** The end of main: every outbound call is settled, and the process exits if the flag is set. */
    method DrainAndExit()
      requires Valid()
      modifies this`phase, rpc
      ensures Valid() && View() == MainLeaveStep(old(View()))
    {
      EntriesAreValues();
      if phase.Closing? && phase.waiting.None? && Entries() <= phase.visited {
        DrainCalls();
        phase := if shuttingDown then Exited else Finished;
      }
    }

    // Every step ------------------------------------------------------------------------------------

    method AtHandler(a: Action)
      requires Valid() && !Over(View()) && (a.Settle? || a.ControlDone? || a.CloseDone? || a.SetFlag?)
      modifies this`sessions, this`table, this`handlers, this`shuttingDown, out
      ensures Valid() && View() == Step(Model(), old(View()), a)
    {
      match a
      case Settle(h, err) => SettleHandler(h, err);
      case ControlDone(h, answer) => ControlSettled(h, answer);
      case CloseDone(h) => CloseSettled(h);
      case SetFlag(h) => AfterReply(h);
    }

    method AtClient(a: Action)
      requires Valid() && !Over(View()) && (a.Outbound? || a.Timer? || a.StaleTimer? || a.Tick?)
      modifies rpc, out
      ensures Valid() && View() == Step(Model(), old(View()), a)
    {
      match a
      case Outbound(methodName, params, timeoutMs) => CallPeer(methodName, params, timeoutMs);
      case Timer(id) => FireTimer(id);
      case StaleTimer(id) => FireStaleTimer(id);
      case Tick(ms) => PassTime(ms);
    }

    method AtEnd(a: Action)
      requires Valid() && !Over(View()) && (a.Eof? || a.MainAwaited? || a.MainLeave? || a.Die?)
      modifies this`phase, rpc
      ensures Valid() && View() == Step(Model(), old(View()), a)
    {
      match a
      case Eof => LeaveLoop();
      case MainAwaited => NextIsClosed();
      case MainLeave => DrainAndExit();
      case Die => Crash();
    }

    method AtSessions(a: Action)
      requires Valid() && Lawful(out.lib) && !Over(View()) && (a.OnSession? || a.MainClose?)
      modifies this`states, this`phase, made, set i | 0 <= i < |made| :: made[i].input, out
      ensures Valid() && View() == Step(Model(), old(View()), a)
      ensures SameChannels(made)
    {
      match a
      case OnSession(ref, act) =>
        if ref < |made| && S.Background(act) {
          Apart(ref);
          LetGoOn(ref, act);
        }
      case MainClose(ref) => CloseNext(ref);
    }

    method ArriveRunning(a: Action)
      requires Valid() && !Over(View()) && a.Arrive?
      modifies this`sessions, this`made, this`table, this`states, this`options, this`handlers, this`phase
      modifies rpc, out, made, set i | 0 <= i < |made| :: made[i].input
      ensures Valid() && Renewed(old(made), made) && View() == Step(Model(), old(View()), a)
      ensures options == OptionsStep(Model(), old(View()), a, old(options))
    {
      if phase.Running? {
        Arrive(a.v, a.env);
      } else {
        GrownIsRenewed();
      }
    }

    /** Whatever happens next, the process does exactly one step of the machine. */
    method Do(a: Action)
      requires Valid() && Lawful(out.lib)
      modifies this`sessions, this`made, this`table, this`states, this`options, this`handlers, this`phase
      modifies this`shuttingDown
      modifies rpc, out, made, set i | 0 <= i < |made| :: made[i].input
      ensures Valid() && Renewed(old(made), made) && View() == Step(Model(), old(View()), a)
      ensures options == OptionsStep(Model(), old(View()), a, old(options))
    {
      if phase.Exited? || phase.Crashed? {
        GrownIsRenewed();
      } else if a.Arrive? {
        ArriveRunning(a);
      } else {
        GoOn(a);
        GrownIsRenewed();
      }
    }

    /** Anything but a frame. */
    method GoOn(a: Action)
      requires Valid() && Lawful(out.lib) && !Over(View()) && !a.Arrive?
      modifies this`sessions, this`table, this`states, this`handlers, this`phase, this`shuttingDown
      modifies rpc, out, made, set i | 0 <= i < |made| :: made[i].input
      ensures Valid() && View() == Step(Model(), old(View()), a)
      ensures SameChannels(made)
    {
      if a.Settle? || a.ControlDone? || a.CloseDone? || a.SetFlag? {
        AtHandler(a);
      } else if a.Outbound? || a.Timer? || a.StaleTimer? || a.Tick? {
        AtClient(a);
      } else if a.OnSession? || a.MainClose? {
        AtSessions(a);
      } else {
        AtEnd(a);
      }
    }
  }

  /** The objects of a process that its steps may change. */
  ghost function Parts(p: Process): set<object>
    reads p, p.made
  {
    {p, p.rpc, p.out} + (set s | s in p.made) + (set i | 0 <= i < |p.made| :: p.made[i].input)
  }

  twostate lemma PartsRenewed(p: Process)
    requires Renewed(old(p.made), p.made)
    ensures forall o :: o in Parts(p) && o !in old(Parts(p)) ==> fresh(o)
  {
  }

  method Advance(p: Process, a: Action, ghost mine: set<object>) returns (ghost more: set<object>)
    requires p.Valid() && Lawful(p.out.lib) && Parts(p) <= mine
    modifies mine
    ensures p.Valid() && p.View() == Step(p.Model(), old(p.View()), a)
    ensures p.options == OptionsStep(p.Model(), old(p.View()), a, old(p.options))
    ensures fresh(more) && Parts(p) <= mine + more
  {
    p.Do(a);
    PartsRenewed(p);
    more := Parts(p) - mine;
  }

  /**
   For every list of actions, the process, made anew and taken through them, ends in the state of the
   machine's run: so everything proved of the runs of module Sidecar holds of the objects. And each
   session object has started its queries with the options of that run.
   */
  method Execute(lib: Lib, versions: Versions, acts: seq<Action>) returns (p: Process)
    requires Lawful(lib)
    ensures p.Valid() && p.out.lib == lib
    ensures p.View() == Run(RealWorld(lib, versions), acts)
    ensures p.options == OptionsRun(RealWorld(lib, versions), acts)
    ensures |p.made| == |p.options| && forall i :: 0 <= i < |p.made| ==> p.made[i].handed == p.options[i]
  {
    p := new Process(lib, versions);
    ghost var mine := Parts(p);
    for i := 0 to |acts|
      invariant p.Valid() && p.out.lib == lib && p.versions == versions
      invariant p.View() == Run(RealWorld(lib, versions), acts[..i])
      invariant p.options == OptionsRun(RealWorld(lib, versions), acts[..i])
      invariant Parts(p) <= mine && fresh(mine)
    {
      assert acts[..i + 1][..i] == acts[..i];
      ghost var more := Advance(p, acts[i], mine);
      mine := mine + more;
    }
    assert acts[..|acts|] == acts;
  }

  twostate lemma Untouched(x: Q.QuerySession)
    requires old(x.Valid()) && unchanged(x) && unchanged(x.input)
    ensures x.Valid() && x.View() == old(x.View()) && x.handed == old(x.handed)
  {
  }

  twostate predicate SameChannels(made: seq<Q.QuerySession>)
    reads made
  {
    forall i :: 0 <= i < |made| ==> made[i].input == old(made[i].input)
  }

  /** Session objects stay, with their channel or a new one; new ones come with a new one. */
  twostate predicate Renewed(before: seq<Q.QuerySession>, new after: seq<Q.QuerySession>)
    reads after
  {
    && before <= after
    && forall i :: 0 <= i < |after| ==>
         && (i >= |before| ==> fresh(after[i]))
         && (fresh(after[i].input) || (i < |before| && after[i].input == old(before[i].input)))
  }

  /** The turn under which a step has accepted a message, if it has. */
  function TurnSent(x: S.State, y: S.State): Option<S.Turn> {
    match S.NewEvent(x, y)
    case Some(Sent(_, _, turn)) => Some(turn)
    case _ => None
  }

  /** The step has passed a control method to the query. */
  predicate Controls(x: S.State, y: S.State) {
    S.NewEvent(x, y).Some? && S.NewEvent(x, y).value.Controlled?
  }

  lemma Creates(w: World, s: State, params: Json, env: Env)
    requires CreateOutcome(s.table.Keys, params, env).Returning?
    ensures var sid := Get(params, "sessionId").value.s;
      Create(w, s, params, env) == (
        s.(table := s.table[sid := |s.sessions|],
           sessions := s.sessions + [S.Init(sid)],
           out := Write(w.lib, s.out, ByMain, LogFrame("session created"))),
        CreateOutcome(s.table.Keys, params, env))
  {
  }

  lemma ArrivesByRoute(
      w: World, s: State, fed: State, v: Value, env: Env, route: Route, before: seq<seq<B.Options>>)
    requires s.phase.Running? && route == RouteOf(w.lib, s.rpc, v) && fed == s.(rpc := FeedValue(w.lib, s.rpc, v))
    ensures ArriveStep(w, s, v, env) == Follow(w, fed, route, env)
    ensures OptionsStep(w, s, Arrive(v, env), before) == OptionsFollow(fed, route, env, before)
  {
  }

  lemma Performs(w: World, s: State, ref: nat, a: S.Action, x: S.State)
    requires Real(w) && ref < |s.sessions|
    requires x == S.Step(w.lib, s.sessions[ref], a)
    ensures Perform(w, s, ref, a) == s.(
      sessions := s.sessions[ref := x],
      out := Said(w.lib, s.out, BySession(ref), S.Spoken(s.sessions[ref], x)))
  {
    assert w.perform(s.sessions[ref], a) == x;
  }

  /** A request or a query's use of its channel changes the session and writes nothing. */
  lemma PerformsQuietly(w: World, s: State, ref: nat, a: S.Action, x: S.State)
    requires Real(w) && ref < |s.sessions| && !S.PumpAction(a)
    requires x == S.Step(w.lib, s.sessions[ref], a)
    ensures Perform(w, s, ref, a) == s.(sessions := s.sessions[ref := x])
  {
    Q.SilentStep(w.lib, s.sessions[ref], a);
    Performs(w, s, ref, a, x);
  }
}
