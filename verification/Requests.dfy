/** index.ts: what each request does, and what the peer may conclude from its reply. */
module Requests {
  import opened Basics
  import opened Protocol
  import opened Framing
  import P = Pumps
  import S = Session
  import opened Sidecar
  import opened SessionTable
  import opened Shutdown

  /** A request of JSON-RPC 2.0, section 4, with named parameters. */
  function Ask(id: Json, methodName: string, params: map<string, Json>): Frame {
    Frame(Some(id), Some(Str(methodName)), Some(Dict(params)), None, None)
  }

  /** The state right after a request, and the one later in the run. */
  function After(w: World, acts: seq<Action>, f: Frame, env: Env): State {
    Step(w, Run(w, acts), Arrive(Object(f), env))
  }

  function Later(w: World, acts: seq<Action>, f: Frame, env: Env, more: seq<Action>): State {
    Run(w, acts + [Arrive(Object(f), env)] + more)
  }

  /** A request starts a handler with what dispatch came to. */
  lemma RequestStarts(w: World, s: State, id: Json, m: string, params: map<string, Json>, env: Env)
    requires s.phase.Running?
    ensures var t, (d, stage) :=
        Step(w, s, Arrive(Object(Ask(id, m, params)), env)), Dispatch(w, s, m, Dict(params), env);
      && t.handlers == s.handlers + [Handler(id, m, stage, None)]
      && t.sessions == d.sessions && t.table == d.table && t.rpc == s.rpc
  {
    DispatchWrites(w, s, m, Dict(params), env);
  }

  /** A reply of the handler started by the request tells what dispatch came to. */
  lemma ReplyTells(w: World, acts: seq<Action>, f: Frame, env: Env, more: seq<Action>, stage: Stage, r: Frame)
    requires Run(w, acts).phase.Running? && f.id.Some? && f.methodName.Some? && f.methodName.value.Str?
    requires After(w, acts, f, env).handlers
      == Run(w, acts).handlers + [Handler(f.id.value, f.methodName.value.s, stage, None)]
    requires HasOutcome(stage)
    requires r in RepliesBy(Later(w, acts, f, env, more).out.log, |Run(w, acts).handlers|)
    ensures TellsOutcome(w.lib, r, f.id.value, stage)
  {
    var a, h := Arrive(Object(f), env), |Run(w, acts).handlers|;
    Snoc(w, acts, a);
    assert Run(w, acts + [a]).handlers[h] == Handler(f.id.value, f.methodName.value.s, stage, None);
    ReplyTellsOutcome(w, acts + [a], more, h, r);
  }

  /** The session that the parameters route to. */
  predicate RoutedTo(s: State, params: map<string, Json>, sid: string, ref: nat) {
    && "sessionId" in params && params["sessionId"] == Str(sid)
    && sid in s.table && s.table[sid] == ref && ref < |s.sessions|
  }

  /** What a member of the parameters is, if it is there. */
  function Member(params: map<string, Json>, key: string): Option<Json> {
    if key in params then Some(params[key]) else None
  }

  lemma OneSession(w: World, s: State, ref: nat, a: S.Action)
    requires Real(w) && ref < |s.sessions|
    ensures Perform(w, s, ref, a).sessions == s.sessions[ref := S.Step(w.lib, s.sessions[ref], a)]
  {
    assert w.perform(s.sessions[ref], a) == S.Step(w.lib, s.sessions[ref], a);
  }

  lemma {:induction false} LogsOnlyGrow(w: World, acts: seq<Action>, more: seq<Action>, ref: nat)
    requires Real(w) && ref < |Run(w, acts).sessions|
    ensures var s, t := Run(w, acts), Run(w, acts + more);
      ref < |t.sessions| && s.sessions[ref].log <= t.sessions[ref].log
  {
    if more == [] {
      assert acts + more == acts;
    } else {
      var m := |more| - 1;
      assert acts + more == acts + more[..m] + [more[m]];
      LogsOnlyGrow(w, acts, more[..m], ref);
      Snoc(w, acts + more[..m], more[m]);
      SessionsAreRuns(w, acts + more[..m]);
      var s := Run(w, acts + more[..m]);
      StepMovesSessions(w, s, more[m]);
      LogGrows(w, s.sessions[ref], Step(w, s, more[m]).sessions[ref], IsResumeRequest(more[m]));
    }
  }

  lemma LogGrows(w: World, x: S.State, y: S.State, resuming: bool)
    requires Real(w) && SessionMoves(w, x, y, resuming)
    ensures x.log <= y.log
  {
    if y != x {
      var a :| y == w.perform(x, a);
      assert y == S.Step(w.lib, x, a);
      S.StepLogs(w.lib, x, a);
    }
  }

  /** An event that a request has added to a session's log is still there later. */
  lemma EventStays(w: World, acts: seq<Action>, f: Frame, env: Env, more: seq<Action>, ref: nat, n: nat)
    requires Real(w) && ref < |After(w, acts, f, env).sessions| && n < |After(w, acts, f, env).sessions[ref].log|
    ensures var t, u := After(w, acts, f, env), Later(w, acts, f, env, more);
      ref < |u.sessions| && n < |u.sessions[ref].log| && u.sessions[ref].log[n] == t.sessions[ref].log[n]
  {
    Snoc(w, acts, Arrive(Object(f), env));
    LogsOnlyGrow(w, acts + [Arrive(Object(f), env)], more, ref);
  }

  lemma MethodNames()
    ensures SESSION_SEND == "session.send" && SESSION_CONTROL == "session.control"
    ensures SESSION_RESUME == "session.resume" && SESSION_CLOSE == "session.close"
    ensures SESSION_CREATE == "session.create"
    ensures PING !in {SESSION_SEND, SESSION_CONTROL, SESSION_RESUME, SESSION_CLOSE, SESSION_CREATE}
    ensures SHUTDOWN !in {SESSION_SEND, SESSION_CONTROL, SESSION_RESUME, SESSION_CLOSE, SESSION_CREATE}
    ensures SESSION_CREATE !in {SESSION_SEND, SESSION_CONTROL, SESSION_RESUME, SESSION_CLOSE}
    ensures SESSION_SEND !in {SESSION_CONTROL, SESSION_RESUME, SESSION_CLOSE}
    ensures SESSION_CONTROL !in {SESSION_RESUME, SESSION_CLOSE} && SESSION_RESUME != SESSION_CLOSE
  {
    assert |PING| == 4 && |SHUTDOWN| == 8 && |SESSION_SEND| == 12 && |SESSION_CONTROL| == 15;
    assert |SESSION_CREATE| == 14 == |SESSION_RESUME| && SESSION_CREATE[8] == 'c' && SESSION_RESUME[8] == 'r';
    assert |SESSION_CLOSE| == 13;
  }

  // ping and shutdown -------------------------------------------------------------------------------

  /** ping and shutdown are answered at once, whatever the state, and change nothing. */
  lemma PingAndShutdown(
      w: World, acts: seq<Action>, m: string, id: Json, params: map<string, Json>, env: Env,
      more: seq<Action>, r: Frame)
    requires Run(w, acts).phase.Running? && m in {"ping", "shutdown"}
    requires r in RepliesBy(Later(w, acts, Ask(id, m, params), env, more).out.log, |Run(w, acts).handlers|)
    ensures var s, t := Run(w, acts), After(w, acts, Ask(id, m, params), env);
      && t.table == s.table && t.sessions == s.sessions && t.rpc == s.rpc
      && (r.result.Some? && m == "ping" ==>
            Get(r.result.value, "pong") == Some(Bool(true)) && Get(r.result.value, "serverTime") == Some(env.now))
      && (r.result.Some? && m == "shutdown" ==> Get(r.result.value, "shuttingDown") == Some(Bool(true)))
  {
    RequestStarts(w, Run(w, acts), id, m, params, env);
    assert |"ping"| == 4 && |"shutdown"| == 8;
    ReplyTells(w, acts, Ask(id, m, params), env, more, Dispatch(w, Run(w, acts), m, Dict(params), env).1, r);
  }

  // session.send ------------------------------------------------------------------------------------

  /** The turn id as the peer reads it. */
  function TurnText(turn: S.Turn): Json {
    match turn
    case Given(id) => id
    case Auto(n) => Str("turn-" + S.Decimal(n))
  }

  /**
   What a send comes to: it is accepted, with the content sent, for the query in use, under the turn id
   it brings or the next number, if and only if session and channel are open.
   */
  function SendEvent(x: S.State, params: map<string, Json>): S.Event
    requires x.channels != []
  {
    var g, turnId := |x.channels| - 1, Member(params, "turnId");
    if x.closed || x.channels[g].closed then S.SendRejected
    else S.Sent(
      g, S.UserMessage(if "content" in params then params["content"] else Null),
      if turnId.Some? && turnId != Some(Null) then S.Given(turnId.value) else S.Auto(x.turnSeq + 1))
  }

  lemma SendAdds(lib: Lib, x: S.State, params: map<string, Json>)
    requires x.channels != []
    ensures var content := if "content" in params then params["content"] else Null;
      var y := S.Step(lib, x, S.Send(content, Member(params, "turnId")));
      y.log == x.log + [SendEvent(x, params)] && S.NewEvent(x, y) == Some(SendEvent(x, params))
  {
    var content := if "content" in params then params["content"] else Null;
    P.MessageAcceptedAs(lib, x, content, Member(params, "turnId"));
    P.UserMessageIs(content);
    S.StepLogs(lib, x, S.Send(content, Member(params, "turnId")));
  }

  lemma SendDispatched(w: World, s: State, params: map<string, Json>, sid: string, ref: nat, env: Env)
    requires Real(w) && RoutedTo(s, params, sid, ref) && s.sessions[ref].channels != []
    ensures var (t, stage) := Dispatch(w, s, "session.send", Dict(params), env);
      var x := s.sessions[ref];
      && |t.sessions| == |s.sessions| && t.sessions[ref].log == x.log + [SendEvent(x, params)]
      && (match SendEvent(x, params)
          case Sent(_, _, turn) => stage.Returning? && Get(stage.result, "turnId") == Some(TurnText(turn))
          case _ => stage.Throwing? && stage.err.code == None)
  {
    MethodNames();
    var content := if "content" in params then params["content"] else Null;
    OneSession(w, s, ref, S.Send(content, Member(params, "turnId")));
    SendAdds(w.lib, s.sessions[ref], params);
    assert Lookup(s, Dict(params)) == Some((sid, ref));
    assert Get(Dict(params), "turnId") == Member(params, "turnId");
  }

  lemma InUse(w: World, acts: seq<Action>, ref: nat)
    requires Real(w) && ref < |Run(w, acts).sessions|
    ensures Run(w, acts).sessions[ref].channels != []
  {
    SessionsAreRuns(w, acts);
    S.ReachableInvariant(w.lib, Run(w, acts).sessions[ref]);
  }

  /**
   A send is the next event of its session, accepted or rejected. However the run goes on, a reply with
   a result names the turn under which it was accepted; a rejected send is told as an internal error.
   */
  lemma SendIsAcknowledged(
      w: World, acts: seq<Action>, id: Json, params: map<string, Json>, sid: string, ref: nat,
      env: Env, more: seq<Action>, r: Frame)
    requires Real(w) && Run(w, acts).phase.Running? && RoutedTo(Run(w, acts), params, sid, ref)
    ensures var s, u := Run(w, acts), Later(w, acts, Ask(id, "session.send", params), env, more);
      var x := s.sessions[ref];
      && x.channels != [] && ref < |u.sessions| && |x.log| < |u.sessions[ref].log|
      && u.sessions[ref].log[|x.log|] == SendEvent(x, params)
      && (r in RepliesBy(u.out.log, |s.handlers|) ==>
            match SendEvent(x, params)
            case Sent(_, _, turn) => r.result.Some? ==> Get(r.result.value, "turnId") == Some(TurnText(turn))
            case _ => r.error.Some? && Get(r.error.value, "code") == Some(Num(-32603)))
  {
    var s, f := Run(w, acts), Ask(id, "session.send", params);
    InUse(w, acts, ref);
    RequestStarts(w, s, id, "session.send", params, env);
    SendDispatched(w, s, params, sid, ref, env);
    EventStays(w, acts, f, env, more, ref, |s.sessions[ref].log|);
    if r in RepliesBy(Later(w, acts, f, env, more).out.log, |s.handlers|) {
      ReplyTells(w, acts, f, env, more, Dispatch(w, s, "session.send", Dict(params), env).1, r);
    }
  }

  // session.create and session.resume -----------------------------------------------------------------

  lemma CreateDispatched(w: World, s: State, params: map<string, Json>, sid: string, env: Env)
    requires "sessionId" in params && params["sessionId"] == Str(sid) && sid != "" && sid !in s.table
    ensures var (t, stage) := Dispatch(w, s, "session.create", Dict(params), env);
      if env.queryThrows.Some? then
        t.table == s.table && t.sessions == s.sessions && stage == Throwing(env.queryThrows.value)
      else
        && t.table == s.table[sid := |s.sessions|] && t.sessions == s.sessions + [S.Init(sid)]
        && stage.Returning?
        && Get(stage.result, "sessionId") == Some(Str(sid)) && Get(stage.result, "createdAt") == Some(env.now)
  {
    MethodNames();
    assert |"createdAt"| == 9 && |"sessionId"| == 9 && "createdAt"[0] == 'c' && "sessionId"[0] == 's';
  }

  /**
   A create with a new id makes a session under that id if its query starts, and changes nothing but
   the log if it does not; and a reply says which: the session's id, or what was thrown.
   */
  lemma CreateIsAcknowledged(
      w: World, acts: seq<Action>, id: Json, params: map<string, Json>, sid: string, env: Env,
      more: seq<Action>, r: Frame)
    requires Run(w, acts).phase.Running?
    requires "sessionId" in params && params["sessionId"] == Str(sid) && sid != "" && sid !in Run(w, acts).table
    ensures var f := Ask(id, "session.create", params);
      var s, t, u := Run(w, acts), After(w, acts, f, env), Later(w, acts, f, env, more);
      var told := r in RepliesBy(u.out.log, |s.handlers|);
      if env.queryThrows.Some? then
        t.table == s.table && t.sessions == s.sessions && (told ==> TellsError(r, id, env.queryThrows.value))
      else
        && t.table == s.table[sid := |s.sessions|] && t.sessions == s.sessions + [S.Init(sid)]
        && (told && r.result.Some? ==>
              Get(r.result.value, "sessionId") == Some(Str(sid)) && Get(r.result.value, "createdAt") == Some(env.now))
  {
    var s, f := Run(w, acts), Ask(id, "session.create", params);
    RequestStarts(w, s, id, "session.create", params, env);
    CreateDispatched(w, s, params, sid, env);
    if r in RepliesBy(Later(w, acts, f, env, more).out.log, |s.handlers|) {
      ReplyTells(w, acts, f, env, more, Dispatch(w, s, "session.create", Dict(params), env).1, r);
    }
  }

  lemma ResumeDispatched(w: World, s: State, params: map<string, Json>, sid: string, ref: nat, env: Env)
    requires Real(w) && RoutedTo(s, params, sid, ref)
    ensures var (t, stage) := Dispatch(w, s, "session.resume", Dict(params), env);
      && t.sessions == s.sessions[ref := S.Step(w.lib, s.sessions[ref], S.Resume(env.queryThrows.None?))]
      && (env.queryThrows.Some? ==> stage == Throwing(env.queryThrows.value))
      && (env.queryThrows.None? ==>
            && stage.Returning?
            && Get(stage.result, "sessionId") == Some(Str(sid)) && Get(stage.result, "resumedAt") == Some(env.now))
  {
    MethodNames();
    OneSession(w, s, ref, S.Resume(env.queryThrows.None?));
    assert Lookup(s, Dict(params)) == Some((sid, ref));
    assert |"resumedAt"| == 9 && |"sessionId"| == 9 && "resumedAt"[0] == 'r' && "sessionId"[0] == 's';
  }

  lemma ResumeLogs(s: S.State, queryStarts: bool)
    ensures S.ResumeStep(s, queryStarts).log
      == s.log + [if queryStarts then S.Resumed(|s.channels|) else S.ResumeFailed(|s.channels|)]
  {
  }

  /** A resume begins the next generation of its session, if the query starts; and a reply says whether it did. */
  lemma ResumeIsAcknowledged(
      w: World, acts: seq<Action>, id: Json, params: map<string, Json>, sid: string, ref: nat,
      env: Env, more: seq<Action>, r: Frame)
    requires Real(w) && Run(w, acts).phase.Running? && RoutedTo(Run(w, acts), params, sid, ref)
    ensures var s, u := Run(w, acts), Later(w, acts, Ask(id, "session.resume", params), env, more);
      var x := s.sessions[ref];
      var n, g := |x.log|, |x.channels|;
      var told := r in RepliesBy(u.out.log, |s.handlers|);
      && ref < |u.sessions| && n < |u.sessions[ref].log|
      && if env.queryThrows.Some? then
           u.sessions[ref].log[n] == S.ResumeFailed(g) && (told ==> TellsError(r, id, env.queryThrows.value))
         else
           && u.sessions[ref].log[n] == S.Resumed(g)
           && (told && r.result.Some? ==>
                 && Get(r.result.value, "sessionId") == Some(Str(sid))
                 && Get(r.result.value, "resumedAt") == Some(env.now))
  {
    var s, f := Run(w, acts), Ask(id, "session.resume", params);
    var x := s.sessions[ref];
    RequestStarts(w, s, id, "session.resume", params, env);
    ResumeDispatched(w, s, params, sid, ref, env);
    ResumeLogs(x, env.queryThrows.None?);
    EventStays(w, acts, f, env, more, ref, |x.log|);
    if r in RepliesBy(Later(w, acts, f, env, more).out.log, |s.handlers|) {
      ReplyTells(w, acts, f, env, more, Dispatch(w, s, "session.resume", Dict(params), env).1, r);
    }
  }

  // session.control -----------------------------------------------------------------------------------

  lemma ControlDispatched(w: World, s: State, params: map<string, Json>, sid: string, ref: nat, name: string, env: Env)
    requires Real(w) && RoutedTo(s, params, sid, ref) && Member(params, "method") == Some(Str(name))
    ensures var (t, stage) := Dispatch(w, s, "session.control", Dict(params), env);
      var x, y := s.sessions[ref], S.Step(w.lib, s.sessions[ref], S.Control(name, Member(params, "args"), env.known));
      && t.sessions == s.sessions[ref := y]
      && (if S.NewEvent(x, y).Some? && S.NewEvent(x, y).value.Controlled? then stage == AwaitControl
          else stage.Throwing? && stage.err.code == Some(-32003))
  {
    MethodNames();
    OneSession(w, s, ref, S.Control(name, Member(params, "args"), env.known));
    assert Lookup(s, Dict(params)) == Some((sid, ref));
    assert Get(Dict(params), "args") == Member(params, "args");
    assert Get(Dict(params), "method") == Member(params, "method");
  }

  /** What the promise of a control method becomes for the peer: its value, or its message with code -32003. */
  predicate TellsAnswer(f: Frame, answer: Stage) {
    match answer
    case Returning(value) => f.result.Some? ==> Get(f.result.value, "value") == Some(value)
    case Throwing(thrown) =>
      && f.error.Some?
      && Get(f.error.value, "code") == Some(Num(-32003)) && Get(f.error.value, "message") == Some(thrown.message)
    case _ => false
  }

  function Outcome(answer: Stage): Stage
    requires HasOutcome(answer)
  {
    match answer
    case Returning(value) => Returning(Dict(map["value" := value]))
    case Throwing(thrown) => Throwing(Thrown(Some(ERROR_CONTROL_FAILED), thrown.message, None))
  }

  /** The handler still awaits the control method's promise, or has got an answer of it and passes it on. */
  ghost predicate ControlUnderway(lib: Lib, s: State, h: nat, id: Json, more: seq<Action>) {
    || (h < |s.handlers| && s.handlers[h].id == id && s.handlers[h].stage.AwaitControl?
        && RepliesBy(s.out.log, h) == [])
    || exists answer ::
         HasOutcome(answer) && ControlDone(h, answer) in more && Delivered(lib, id, Outcome(answer), s, h)
  }

  lemma AwaitingStep(w: World, s: State, a: Action, h: nat)
    requires h < |s.handlers| && s.handlers[h].stage.AwaitControl?
    ensures var t := Step(w, s, a);
      && h < |t.handlers|
      && t.handlers[h] ==
           if !Over(s) && a.ControlDone? && a.h == h && HasOutcome(a.answer)
           then s.handlers[h].(stage := Outcome(a.answer)) else s.handlers[h]
  {
    match a
    case Arrive(v, env) =>
      var r := RouteOf(w.lib, s.rpc, v);
      if r.Dispatched? {
        DispatchWrites(w, s.(rpc := FeedValue(w.lib, s.rpc, v)), r.methodName, r.params, env);
      }
    case OnSession(ref, act) => PerformWrites(w, s, ref, act);
    case MainClose(ref) => PerformWrites(w, s, ref, S.CloseBegin);
    case _ =>
  }

  lemma NoReplyWhileAwaiting(s: State, h: nat)
    requires OneReplyEach(s) && h < |s.handlers| && !s.handlers[h].stage.Replied?
    ensures RepliesBy(s.out.log, h) == []
  {
    assert RepliesRight(RepliedAt(s.handlers, h), RepliesBy(s.out.log, h));
  }

  lemma {:induction false} ControlStaysUnderway(w: World, acts: seq<Action>, more: seq<Action>, h: nat, id: Json)
    requires h < |Run(w, acts).handlers| && Run(w, acts).handlers[h].stage.AwaitControl?
    requires Run(w, acts).handlers[h].id == id
    ensures ControlUnderway(w.lib, Run(w, acts + more), h, id, more)
  {
    ExactlyOneReply(w, acts + more);
    if more == [] {
      assert acts + more == acts;
      NoReplyWhileAwaiting(Run(w, acts), h);
    } else {
      var m := |more| - 1;
      var pre, a := more[..m], more[m];
      assert acts + more == acts + pre + [a];
      ControlStaysUnderway(w, acts, pre, h, id);
      ExactlyOneReply(w, acts + pre);
      Snoc(w, acts + pre, a);
      ControlUnderwayStep(w, Run(w, acts + pre), a, h, id, pre);
      assert pre + [a] == more;
    }
  }

  lemma ControlUnderwayStep(w: World, s: State, a: Action, h: nat, id: Json, pre: seq<Action>)
    requires ControlUnderway(w.lib, s, h, id, pre) && OneReplyEach(s) && OneReplyEach(Step(w, s, a))
    ensures ControlUnderway(w.lib, Step(w, s, a), h, id, pre + [a])
  {
    var t := Step(w, s, a);
    if h < |s.handlers| && s.handlers[h].stage.AwaitControl? {
      AwaitingStep(w, s, a, h);
      NoReplyWhileAwaiting(t, h);
      if t.handlers[h] != s.handlers[h] {
        assert a == ControlDone(h, a.answer) && ControlDone(h, a.answer) in pre + [a];
        assert Delivered(w.lib, id, Outcome(a.answer), t, h);
      }
    } else {
      var answer :| HasOutcome(answer) && ControlDone(h, answer) in pre && Delivered(w.lib, id, Outcome(answer), s, h);
      DeliveredKept(w, s, a, h, id, Outcome(answer));
      assert ControlDone(h, answer) in pre + [a];
    }
  }

  lemma ControlAnswered(w: World, acts: seq<Action>, more: seq<Action>, h: nat, id: Json, r: Frame)
    requires h < |Run(w, acts).handlers| && Run(w, acts).handlers[h].stage.AwaitControl?
    requires Run(w, acts).handlers[h].id == id
    requires r in RepliesBy(Run(w, acts + more).out.log, h)
    ensures exists answer :: ControlDone(h, answer) in more && TellsAnswer(r, answer)
  {
    ControlStaysUnderway(w, acts, more, h, id);
    var u := Run(w, acts + more);
    var answer :| HasOutcome(answer) && ControlDone(h, answer) in more && Delivered(w.lib, id, Outcome(answer), u, h);
    assert u.handlers[h].stage.Replied?;
    var err :| Answer(w.lib, id, Outcome(answer), err).Some?
      && RepliesBy(u.out.log, h) == [Answer(w.lib, id, Outcome(answer), err).value];
    AnswerTells(w.lib, id, Outcome(answer), err);
    assert TellsAnswer(r, answer);
  }

  /**
   A control request is the next event of its session: the method called on the current query with the
   arguments sent, or a rejection. However the run goes on, a reply tells what the method's promise
   came to: its value, or its error with code -32003, which a rejected request gets at once.
   */
  lemma ControlIsAcknowledged(
      w: World, acts: seq<Action>, id: Json, params: map<string, Json>, sid: string, ref: nat, name: string,
      env: Env, more: seq<Action>, r: Frame)
    requires Real(w) && Run(w, acts).phase.Running? && RoutedTo(Run(w, acts), params, sid, ref)
    requires Member(params, "method") == Some(Str(name))
    ensures var s, u := Run(w, acts), Later(w, acts, Ask(id, "session.control", params), env, more);
      var x, h, args := s.sessions[ref], |s.handlers|, Member(params, "args");
      var given := args.Some? && args != Some(Null);
      var n, told := |x.log|, r in RepliesBy(u.out.log, h);
      && ref < |u.sessions| && n < |u.sessions[ref].log|
      && if x.closed || !env.known || (given && !args.value.Arr? && !args.value.Dict?) then
           && u.sessions[ref].log[n] == S.ControlRejected
           && (told ==> r.error.Some? && Get(r.error.value, "code") == Some(Num(-32003)))
         else
           && u.sessions[ref].log[n] == S.Controlled(x.current, name, if given then args.value else Arr([]))
           && (told ==> exists answer :: ControlDone(h, answer) in more && TellsAnswer(r, answer))
  {
    var s, f := Run(w, acts), Ask(id, "session.control", params);
    var x, h := s.sessions[ref], |s.handlers|;
    RequestStarts(w, s, id, "session.control", params, env);
    ControlDispatched(w, s, params, sid, ref, name, env);
    P.ControlCalledAs(w.lib, x, name, Member(params, "args"), env.known);
    S.StepLogs(w.lib, x, S.Control(name, Member(params, "args"), env.known));
    EventStays(w, acts, f, env, more, ref, |x.log|);
    if r in RepliesBy(Later(w, acts, f, env, more).out.log, h) {
      var stage := Dispatch(w, s, "session.control", Dict(params), env).1;
      if stage.Throwing? {
        ReplyTells(w, acts, f, env, more, stage, r);
      } else {
        Snoc(w, acts, Arrive(Object(f), env));
        ControlAnswered(w, acts + [Arrive(Object(f), env)], more, h, id, r);
      }
    }
  }

  // session.close -------------------------------------------------------------------------------------

  lemma CloseDispatched(w: World, s: State, params: map<string, Json>, sid: string, ref: nat, env: Env)
    requires Real(w) && RoutedTo(s, params, sid, ref)
    ensures var (t, stage) := Dispatch(w, s, "session.close", Dict(params), env);
      && t.sessions == s.sessions[ref := S.Step(w.lib, s.sessions[ref], S.CloseBegin)]
      && stage == AwaitClose(sid, ref, |s.sessions[ref].closers|)
  {
    MethodNames();
    OneSession(w, s, ref, S.CloseBegin);
    S.ClosersGrowBy(w.lib, s.sessions[ref], S.CloseBegin);
    assert Lookup(s, Dict(params)) == Some((sid, ref));
  }

  lemma CloseLogs(s: S.State)
    ensures S.CloseStep(s).log == s.log + [S.CloseCalled(|s.closers|)]
  {
  }

  const CLOSED := Returning(Dict(map["closed" := Bool(true)]))

  /** The handler still awaits the close() call, or has removed the session, after it, and says so. */
  ghost predicate CloseUnderway(lib: Lib, s: State, h: nat, id: Json, sid: string, ref: nat, k: nat) {
    && h < |s.handlers| && s.handlers[h].id == id
    && if s.handlers[h].stage.AwaitClose? then
         s.handlers[h].stage == AwaitClose(sid, ref, k) && RepliesBy(s.out.log, h) == []
       else
         s.handlers[h].removed == Some(ref) && CloserResolved(s, ref, k) && Delivered(lib, id, CLOSED, s, h)
  }

  lemma ClosingStep(w: World, s: State, a: Action, h: nat)
    requires h < |s.handlers| && s.handlers[h].stage.AwaitClose?
    ensures var t, stage := Step(w, s, a), s.handlers[h].stage;
      && h < |t.handlers|
      && if !Over(s) && a == CloseDone(h) && CloserResolved(s, stage.ref, stage.k) then
           t.handlers[h] == s.handlers[h].(stage := CLOSED, removed := Some(stage.ref)) && t.sessions == s.sessions
         else t.handlers[h] == s.handlers[h]
  {
    match a
    case Arrive(v, env) =>
      var r := RouteOf(w.lib, s.rpc, v);
      if r.Dispatched? {
        DispatchWrites(w, s.(rpc := FeedValue(w.lib, s.rpc, v)), r.methodName, r.params, env);
      }
    case OnSession(ref, act) => PerformWrites(w, s, ref, act);
    case MainClose(ref) => PerformWrites(w, s, ref, S.CloseBegin);
    case _ =>
  }

  lemma CloseUnderwayStep(w: World, s: State, a: Action, h: nat, id: Json, sid: string, ref: nat, k: nat)
    requires Real(w) && Sound(w, s) && CloseUnderway(w.lib, s, h, id, sid, ref, k)
    requires OneReplyEach(s) && OneReplyEach(Step(w, s, a))
    ensures CloseUnderway(w.lib, Step(w, s, a), h, id, sid, ref, k)
  {
    var t := Step(w, s, a);
    if s.handlers[h].stage.AwaitClose? {
      ClosingStep(w, s, a, h);
      NoReplyWhileAwaiting(t, h);
    } else {
      DeliveredKept(w, s, a, h, id, CLOSED);
      StepMovesSessions(w, s, a);
      ResolvedKept(w, s, t, IsResumeRequest(a), ref);
      RealKeepsIds(w);
      StepMovesTable(w, s, a);
      OutcomeStep(w, s, a, h);
    }
  }

  lemma {:induction false} CloseStaysUnderway(
      w: World, acts: seq<Action>, more: seq<Action>, h: nat, id: Json, sid: string, ref: nat, k: nat)
    requires Real(w) && CloseUnderway(w.lib, Run(w, acts), h, id, sid, ref, k)
    ensures CloseUnderway(w.lib, Run(w, acts + more), h, id, sid, ref, k)
  {
    if more == [] {
      assert acts + more == acts;
    } else {
      var m := |more| - 1;
      assert acts + more == acts + more[..m] + [more[m]];
      CloseStaysUnderway(w, acts, more[..m], h, id, sid, ref, k);
      Snoc(w, acts + more[..m], more[m]);
      SessionsAreRuns(w, acts + more[..m]);
      ExactlyOneReply(w, acts + more[..m]);
      ExactlyOneReply(w, acts + more);
      CloseUnderwayStep(w, Run(w, acts + more[..m]), more[m], h, id, sid, ref, k);
    }
  }

  lemma CloseStarts(
      w: World, acts: seq<Action>, id: Json, params: map<string, Json>, sid: string, ref: nat, env: Env)
    requires Real(w) && Run(w, acts).phase.Running? && RoutedTo(Run(w, acts), params, sid, ref)
    ensures var s, a := Run(w, acts), Arrive(Object(Ask(id, "session.close", params)), env);
      var t, x := Run(w, acts + [a]), s.sessions[ref];
      && t == Step(w, s, a) && |t.sessions| == |s.sessions|
      && t.sessions[ref].log == x.log + [S.CloseCalled(|x.closers|)]
      && CloseUnderway(w.lib, t, |s.handlers|, id, sid, ref, |x.closers|)
  {
    var s, a := Run(w, acts), Arrive(Object(Ask(id, "session.close", params)), env);
    RequestStarts(w, s, id, "session.close", params, env);
    CloseDispatched(w, s, params, sid, ref, env);
    CloseLogs(s.sessions[ref]);
    Snoc(w, acts, a);
    ExactlyOneReply(w, acts + [a]);
    NoReplyWhileAwaiting(Run(w, acts + [a]), |s.handlers|);
  }

  lemma ClosedReply(lib: Lib, s: State, h: nat, id: Json, sid: string, ref: nat, k: nat, r: Frame)
    requires CloseUnderway(lib, s, h, id, sid, ref, k) && r in RepliesBy(s.out.log, h)
    ensures CloserResolved(s, ref, k) && s.handlers[h].removed == Some(ref)
    ensures r.result.Some? ==> Get(r.result.value, "closed") == Some(Bool(true))
  {
    var err :| Answer(lib, id, CLOSED, err).Some? && RepliesBy(s.out.log, h) == [Answer(lib, id, CLOSED, err).value];
    AnswerTells(lib, id, CLOSED, err);
  }

  /**
   A close request calls close() on its session. However the run goes on, a reply comes only after
   that call has resolved and the handler has taken the id off the table, and says so.
   */
  lemma CloseIsAcknowledged(
      w: World, acts: seq<Action>, id: Json, params: map<string, Json>, sid: string, ref: nat,
      env: Env, more: seq<Action>, r: Frame)
    requires Real(w) && Run(w, acts).phase.Running? && RoutedTo(Run(w, acts), params, sid, ref)
    ensures var s, u := Run(w, acts), Later(w, acts, Ask(id, "session.close", params), env, more);
      var x, h := s.sessions[ref], |s.handlers|;
      var n, k := |x.log|, |x.closers|;
      && ref < |u.sessions| && n < |u.sessions[ref].log| && u.sessions[ref].log[n] == S.CloseCalled(k)
      && (r in RepliesBy(u.out.log, h) ==>
            && CloserResolved(u, ref, k) && h < |u.handlers| && u.handlers[h].removed == Some(ref)
            && (r.result.Some? ==> Get(r.result.value, "closed") == Some(Bool(true))))
  {
    var s, f := Run(w, acts), Ask(id, "session.close", params);
    var x, h := s.sessions[ref], |s.handlers|;
    CloseStarts(w, acts, id, params, sid, ref, env);
    EventStays(w, acts, f, env, more, ref, |x.log|);
    CloseStaysUnderway(w, acts + [Arrive(Object(f), env)], more, h, id, sid, ref, |x.closers|);
    var u := Later(w, acts, f, env, more);
    if r in RepliesBy(u.out.log, h) {
      ClosedReply(w.lib, u, h, id, sid, ref, |x.closers|, r);
    }
  }
}
