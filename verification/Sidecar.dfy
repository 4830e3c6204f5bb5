/**
 index.ts: one pipe, many sessions. The main loop routes each inbound frame, request handlers run
 concurrently between their awaits, and shutdown closes every session and drains the client.
 */
module Sidecar {
  import opened Basics
  import opened Protocol
  import opened Framing
  import R = Rpc
  import S = Session

  /**
   The library functions, and the sessions' implementation: what a session does on an action.
   The results that do not depend on it hold for any implementation.
   */
  datatype World = World(lib: Lib, perform: (S.State, S.Action) -> S.State, versions: Versions)

  datatype Versions = Versions(sdk: string, node: string)

  /** The sidecar's own sessions. */
  ghost predicate Real(w: World) {
    forall s, a :: w.perform(s, a) == S.Step(w.lib, s, a)
  }

  function RealWorld(lib: Lib, versions: Versions): (w: World)
    ensures Real(w) && w.lib == lib && w.versions == versions
  {
    World(lib, (s, a) => S.Step(lib, s, a), versions)
  }

  /** A thrown value: its code when that is a number, its message, its data. */
  datatype Thrown = Thrown(code: Option<int>, message: Json, data: Option<Json>)

  /** What the SDK and the clock contribute while a request is dispatched. */
  datatype Env = Env(queryThrows: Option<Thrown>, known: bool, now: Json)

  /** Where the handler of a request stands. Dead: its error reply could not be serialised, so it threw. */
  datatype Stage =
    | Returning(result: Json)
    | Throwing(err: Thrown)
    | AwaitControl
    | AwaitClose(sid: string, ref: nat, k: nat)
    | Replied(ok: bool)
    | Dead

  /** removed: the session this handler, of a session.close, had looked up, once it has deleted the entry. */
  datatype Handler = Handler(id: Json, methodName: string, stage: Stage, removed: Option<nat>)

  /**
   Closing: the loop has been left and the sessions are being closed, one at a time. Aborted: the
   loop's body threw; handlers and sessions go on until the reader's generator has returned, and
   then the process exits.
   */
  datatype Phase =
    | Running
    | Closing(visited: set<nat>, waiting: Option<(nat, nat)>)
    | Finished
    | Exited
    | Aborted
    | Crashed

  datatype State = State(
    table: map<string, nat>,
    sessions: seq<S.State>,
    rpc: R.State,
    handlers: seq<Handler>,
    out: Out,
    shuttingDown: bool,
    phase: Phase)

  datatype Action =
    | Arrive(v: Value, env: Env)
    | Eof
    | Settle(h: nat, err: Thrown)
    | ControlDone(h: nat, answer: Stage)
    | CloseDone(h: nat)
    | SetFlag(h: nat)
    | OnSession(ref: nat, a: S.Action)
    | Outbound(methodName: string, params: Json, timeoutMs: Option<int>)
    | Timer(id: int)
    | StaleTimer(id: int)
    | Tick(ms: nat)
    | MainClose(ref: nat)
    | MainAwaited
    | MainLeave
    | Die

  const PROTOCOL_VERSION := "2.0"
  const SIDECAR_VERSION := "0.2.0"

  // Writing -------------------------------------------------------------------------------------

  function ReadyFrame(v: Versions): Frame {
    Notification("sidecar.ready", Dict(map[
      "protocolVersion" := Str(PROTOCOL_VERSION), "sidecarVersion" := Str(SIDECAR_VERSION),
      "sdkVersion" := Str(v.sdk), "nodeVersion" := Str(v.node)]))
  }

  function LogFrame(message: string): Frame {
    Notification("log", Dict(map["level" := Str("info"), "message" := Str(message)]))
  }

  function ErrorBody(t: Thrown): Json {
    Dict((if t.data.Some? then map["data" := t.data.value] else map[])["message" := t.message][
      "code" := Num(if t.code.Some? then t.code.value else ERROR_INTERNAL)])
  }

  /** What main has written when the loop starts. */
  function Init(w: World): State {
    var out := Write(w.lib, Out("", []), ByMain, ReadyFrame(w.versions));
    State(map[], [], R.INIT, [],
      Write(w.lib, out, ByMain, LogFrame("sidecar ready (sdk " + w.versions.sdk + ")")), false, Running)
  }

  // Sessions ------------------------------------------------------------------------------------

  /** One action of one session, with the notice it writes. */
  function Perform(w: World, s: State, ref: nat, a: S.Action): State {
    if ref < |s.sessions| then
      var t := w.perform(s.sessions[ref], a);
      var frames := S.Spoken(s.sessions[ref], t);
      s.(sessions := s.sessions[ref := t],
         out := Said(w.lib, s.out, BySession(ref), frames))
    else s
  }

  predicate CloserResolved(s: State, ref: nat, k: nat) {
    ref < |s.sessions| && k < |s.sessions[ref].closers| && s.sessions[ref].closers[k].resolved
  }

  function LastCloser(s: State, ref: nat): nat {
    if ref < |s.sessions| && s.sessions[ref].closers != [] then |s.sessions[ref].closers| - 1 else 0
  }

  // Dispatch, up to the handler's first real suspension --------------------------------------------

  function Failure(code: Option<int>, message: string): Stage {
    Throwing(Thrown(code, Str(message), None))
  }

  /** The session id and the session it routes to. */
  function Lookup(s: State, params: Json): Option<(string, nat)> {
    match Get(params, "sessionId")
    case Some(Str(sid)) => if sid in s.table then Some((sid, s.table[sid])) else None
    case _ => None
  }

  /** What session.create comes to, given the ids in the table. */
  function CreateOutcome(ids: set<string>, params: Json, env: Env): Stage {
    match Get(params, "sessionId")
    case Some(Str(sid)) =>
      if sid == "" then Failure(Some(ERROR_INVALID_PARAMS), "sessionId required")
      else if sid in ids then Failure(Some(ERROR_INVALID_PARAMS), "sessionId already exists")
      else if env.queryThrows.Some? then Throwing(env.queryThrows.value)
      else Returning(Dict(map["createdAt" := env.now]["sessionId" := Str(sid)]))
    case _ => Failure(Some(ERROR_INVALID_PARAMS), "sessionId required")
  }

  function Create(w: World, s: State, params: Json, env: Env): (State, Stage) {
    var outcome := CreateOutcome(s.table.Keys, params, env);
    if outcome.Returning? then
      var sid := Get(params, "sessionId").value.s;
      (s.(sessions := s.sessions + [S.Init(sid)],
          table := s.table[sid := |s.sessions|],
          out := Write(w.lib, s.out, ByMain, LogFrame("session created"))),
       outcome)
    else (s, outcome)
  }

  function Send(w: World, s: State, ref: nat, params: Json): (State, Stage) {
    var content := if Get(params, "content").Some? then Get(params, "content").value else Null;
    var t := Perform(w, s, ref, S.Send(content, Get(params, "turnId")));
    (t, if ref < |s.sessions| && S.NewEvent(s.sessions[ref], t.sessions[ref]).Some?
            && S.NewEvent(s.sessions[ref], t.sessions[ref]).value.Sent?
        then Returning(Dict(map["turnId" := S.TurnId(S.NewEvent(s.sessions[ref], t.sessions[ref]).value.turn)]))
        else Failure(None, "session closed"))
  }

  function Control(w: World, s: State, ref: nat, params: Json, known: bool): (State, Stage) {
    var name := match Get(params, "method") case Some(Str(m)) => m case _ => "";
    var t := Perform(w, s, ref, S.Control(name, Get(params, "args"), known));
    (t, if ref < |s.sessions| && S.NewEvent(s.sessions[ref], t.sessions[ref]).Some?
            && S.NewEvent(s.sessions[ref], t.sessions[ref]).value.Controlled?
        then AwaitControl
        else Failure(Some(ERROR_CONTROL_FAILED), "control rejected"))
  }

  /** The methods that go to the session they name. */
  function ToSession(w: World, s: State, methodName: string, sid: string, ref: nat, params: Json, env: Env):
    (State, Stage)
  {
    if methodName == SESSION_SEND then Send(w, s, ref, params)
    else if methodName == SESSION_CONTROL then Control(w, s, ref, params, env.known)
    else if methodName == SESSION_RESUME then
      (Perform(w, s, ref, S.Resume(env.queryThrows.None?)),
       if env.queryThrows.Some? then Throwing(env.queryThrows.value)
       else Returning(Dict(map["resumedAt" := env.now]["sessionId" := Str(sid)])))
    else
      var t := Perform(w, s, ref, S.CloseBegin);
      (t, AwaitClose(sid, ref, LastCloser(t, ref)))
  }

  function Looked(w: World, s: State, methodName: string, params: Json, env: Env): (State, Stage) {
    match Lookup(s, params)
    case None => (s, Failure(Some(ERROR_SESSION_UNKNOWN), "no session"))
    case Some((sid, ref)) => ToSession(w, s, methodName, sid, ref, params, env)
  }

  function Dispatch(w: World, s: State, methodName: string, params: Json, env: Env): (State, Stage) {
    if methodName == PING then (s, Returning(Dict(map["pong" := Bool(true)]["serverTime" := env.now])))
    else if methodName == SHUTDOWN then (s, Returning(Dict(map["shuttingDown" := Bool(true)])))
    else if methodName == SESSION_CREATE then Create(w, s, params, env)
    else if methodName !in {SESSION_SEND, SESSION_CONTROL, SESSION_RESUME, SESSION_CLOSE} then
      (s, Failure(Some(ERROR_METHOD_NOT_FOUND), "unknown method"))
    else Looked(w, s, methodName, params, env)
  }

  // The main loop -------------------------------------------------------------------------------

  datatype Route = Absorbed | Dispatched(id: Json, methodName: string, params: Json) | Ignored | Throws

  /** v.params ?? {}. */
  function ParamsOf(f: Frame): Json {
    if f.params.Some? && f.params.value != Null then f.params.value else Dict(map[])
  }

  /** Where one decoded frame goes. Reading a member of null, or an error: null reply, throws. */
  function RouteOf(lib: Lib, rpc: R.State, v: Value): Route {
    match v
    case NullValue => Throws
    case Scalar(_) => Ignored
    case Object(f) =>
      if R.Throws(lib, rpc, f) then Throws
      else if R.Accepts(lib, rpc, f) then Absorbed
      else match (f.id, f.methodName)
           case (Some(id), Some(Str(m))) => Dispatched(id, m, ParamsOf(f))
           case _ => Ignored
  }

  function FeedValue(lib: Lib, rpc: R.State, v: Value): R.State {
    if v.Object? then R.FeedStep(lib, rpc, v.frame) else rpc
  }

  /** handleRequest up to its first suspension; then, if the flag was set before, the loop is left. */
  function Accept(w: World, s: State, id: Json, methodName: string, params: Json, env: Env): State {
    var (t, stage) := Dispatch(w, s, methodName, params, env);
    t.(handlers := s.handlers + [Handler(id, methodName, stage, None)],
       phase := if s.shuttingDown then Closing({}, None) else s.phase)
  }

  function Follow(w: World, s: State, route: Route, env: Env): State {
    match route
    case Throws => s.(phase := Aborted)
    case Absorbed => s
    case Ignored => s
    case Dispatched(id, methodName, params) => Accept(w, s, id, methodName, params, env)
  }

  function ArriveStep(w: World, s: State, v: Value, env: Env): State {
    if s.phase.Running? then Follow(w, s.(rpc := FeedValue(w.lib, s.rpc, v)), RouteOf(w.lib, s.rpc, v), env) else s
  }

  // Handlers after their suspension ---------------------------------------------------------------

  function SetStage(s: State, h: nat, stage: Stage): State {
    if h < |s.handlers| then s.(handlers := s.handlers[h := s.handlers[h].(stage := stage)]) else s
  }

  /** The error frame of the catch clause, if it can be serialised. */
  function ErrorAnswer(lib: Lib, id: Json, t: Thrown): Option<Frame> {
    var f := ErrorReply(id, ErrorBody(t));
    if lib.encode(f).Some? then Some(f) else None
  }

  /** The frame handleRequest writes; err is what JSON.stringify throws if it refuses the result. */
  function Answer(lib: Lib, id: Json, outcome: Stage, err: Thrown): Option<Frame> {
    match outcome
    case Returning(result) =>
      if lib.encode(Reply(id, result)).Some? then Some(Reply(id, result)) else ErrorAnswer(lib, id, err)
    case Throwing(t) => ErrorAnswer(lib, id, t)
    case _ => None
  }

  /** The tail of handleRequest. */
  function SettleStep(lib: Lib, s: State, h: nat, err: Thrown): State {
    if h < |s.handlers| && (s.handlers[h].stage.Returning? || s.handlers[h].stage.Throwing?) then
      match Answer(lib, s.handlers[h].id, s.handlers[h].stage, err)
      case Some(f) =>
        SetStage(s.(out := Write(lib, s.out, ByHandler(h), f)), h, Replied(f.result.Some?))
      case None => SetStage(s, h, Dead)
    else s
  }

  function ControlDoneStep(s: State, h: nat, answer: Stage): State {
    if h < |s.handlers| && s.handlers[h].stage.AwaitControl? then
      match answer
      case Returning(value) => SetStage(s, h, Returning(Dict(map["value" := value])))
      case Throwing(t) => SetStage(s, h, Throwing(Thrown(Some(ERROR_CONTROL_FAILED), t.message, None)))
      case _ => s
    else s
  }

  /** What follows the await of env.close(). */
  function CloseDoneStep(lib: Lib, s: State, h: nat): State {
    if h < |s.handlers| then
      match s.handlers[h].stage
      case AwaitClose(sid, ref, k) =>
        if CloserResolved(s, ref, k) then
          s.(table := s.table - {sid},
             out := Write(lib, s.out, ByMain, LogFrame("session closed")),
             handlers := s.handlers[h := s.handlers[h].(
               stage := Returning(Dict(map["closed" := Bool(true)])), removed := Some(ref))])
        else s
      case _ => s
    else s
  }

  predicate FlagReady(s: State, h: nat) {
    h < |s.handlers| && s.handlers[h].methodName == SHUTDOWN && s.handlers[h].stage == Replied(true)
  }

  // Shutdown ------------------------------------------------------------------------------------

  function MainCloseStep(w: World, s: State, ref: nat): State {
    match s.phase
    case Closing(visited, None) =>
      if ref in s.table.Values && ref !in visited then
        var t := Perform(w, s, ref, S.CloseBegin);
        t.(phase := Closing(visited, Some((ref, LastCloser(t, ref)))))
      else s
    case _ => s
  }

  function MainAwaitedStep(s: State): State {
    match s.phase
    case Closing(visited, Some((ref, k))) =>
      if CloserResolved(s, ref, k) then s.(phase := Closing(visited + {ref}, None)) else s
    case _ => s
  }

  const REASON := "sidecar shutting down"

  predicate CanLeave(s: State) {
    s.phase.Closing? && s.phase.waiting.None? && s.table.Values <= s.phase.visited
  }

  function MainLeaveStep(s: State): State {
    if CanLeave(s) then
      s.(rpc := R.DrainStep(s.rpc, REASON), phase := if s.shuttingDown then Exited else Finished)
    else s
  }

  function OutboundStep(lib: Lib, s: State, methodName: string, params: Json, timeoutMs: Option<int>): State {
    s.(rpc := R.CallStep(s.rpc, methodName, timeoutMs),
       out := Write(lib, s.out, ByRpc(s.rpc.nextId), Request(s.rpc.nextId, methodName, params)))
  }

  /** Something was thrown that nobody catches: out of main, or out of a handler's catch clause. */
  predicate Doomed(s: State) {
    s.phase.Aborted? || exists h :: 0 <= h < |s.handlers| && s.handlers[h].stage.Dead?
  }

  predicate Over(s: State) { s.phase.Exited? || s.phase.Crashed? }

  function Step(w: World, s: State, a: Action): State {
    if Over(s) then s else
    match a
    case Arrive(v, env) => ArriveStep(w, s, v, env)
    case Eof => if s.phase.Running? then s.(phase := Closing({}, None)) else s
    case Settle(h, err) => SettleStep(w.lib, s, h, err)
    case ControlDone(h, answer) => ControlDoneStep(s, h, answer)
    case CloseDone(h) => CloseDoneStep(w.lib, s, h)
    case SetFlag(h) => if FlagReady(s, h) then s.(shuttingDown := true) else s
    case OnSession(ref, act) => if S.Background(act) then Perform(w, s, ref, act) else s
    case Outbound(methodName, params, timeoutMs) => OutboundStep(w.lib, s, methodName, params, timeoutMs)
    case Timer(id) => s.(rpc := R.FireStep(s.rpc, id))
    case StaleTimer(id) => s.(rpc := if id in s.rpc.timers then s.rpc else R.Callback(s.rpc, id))
    case Tick(ms) => s.(rpc := s.rpc.(clock := s.rpc.clock + ms))
    case MainClose(ref) => MainCloseStep(w, s, ref)
    case MainAwaited => MainAwaitedStep(s)
    case MainLeave => MainLeaveStep(s)
    case Die => if Doomed(s) then s.(phase := Crashed) else s
  }

  function Run(w: World, acts: seq<Action>): State {
    if acts == [] then Init(w) else Step(w, Run(w, acts[..|acts| - 1]), acts[|acts| - 1])
  }

  lemma StepsTowardsExit(w: World, s: State, a: Action)
    ensures var t := Step(w, s, a);
      && (t.phase.Exited? && !s.phase.Exited? ==> CanLeave(s) && t.rpc == R.DrainStep(s.rpc, REASON) && !Over(s))
      && (t.phase.Running? ==> s.phase.Running?)
      && (s.shuttingDown ==> t.shuttingDown)
  {
    if a.Arrive? {
      var r := RouteOf(w.lib, s.rpc, a.v);
      if r.Dispatched? {
        DispatchKeepsFlags(w, s.(rpc := FeedValue(w.lib, s.rpc, a.v)), r.methodName, r.params, a.env);
      }
    }
  }

  lemma DispatchKeepsFlags(w: World, s: State, methodName: string, params: Json, env: Env)
    ensures Dispatch(w, s, methodName, params, env).0.phase == s.phase
    ensures Dispatch(w, s, methodName, params, env).0.shuttingDown == s.shuttingDown
  {
  }

  lemma RunningBefore(w: World, s: State, a: Action)
    ensures Step(w, s, a).phase.Running? ==> s.phase.Running?
  {
    StepsTowardsExit(w, s, a);
  }

  // ---------------------------------------------------------------------------------------------
  // The two directions never interfere
  // ---------------------------------------------------------------------------------------------

  /** JSON-RPC 2.0, section 4: an id and a method, neither result nor error. */
  predicate IsRequest(f: Frame) {
    f.id.Some? && f.methodName.Some? && f.methodName.value.Str? && f.result.None? && f.error.None?
  }

  /** JSON-RPC 2.0, section 5: an id, no method, exactly one of result and an error object. */
  predicate IsResponse(f: Frame) {
    f.id.Some? && f.methodName.None? && f.result.Some? != f.error.Some? && f.error != Some(Null)
  }

  /**
   A request is dispatched and settles nothing, even when its id is that of a pending outbound call;
   a response is never dispatched, and is absorbed exactly when its call is pending.
   */
  lemma DirectionsDoNotInterfere(w: World, s: State, f: Frame, env: Env)
    requires s.phase.Running?
    ensures var t := Step(w, s, Arrive(Object(f), env));
      && (IsRequest(f) ==>
            && t.rpc == s.rpc
            && |t.handlers| == |s.handlers| + 1
            && t.handlers[|s.handlers|].id == f.id.value
            && t.handlers[|s.handlers|].methodName == f.methodName.value.s)
      && (IsResponse(f) ==>
            && t.handlers == s.handlers && t.table == s.table && t.sessions == s.sessions && t.phase == s.phase
            && (RouteOf(w.lib, s.rpc, Object(f)).Absorbed? <==>
                  w.lib.number(f.id.value).Some? && w.lib.number(f.id.value).value in s.rpc.pending)
            && (!RouteOf(w.lib, s.rpc, Object(f)).Absorbed? ==> t == s))
  {
  }

  // ---------------------------------------------------------------------------------------------
  // Replies
  // ---------------------------------------------------------------------------------------------

  /** The frames the handler h has written. */
  function RepliesBy(log: seq<Record>, h: nat): seq<Frame> {
    if log == [] then [] else
    var e := log[|log| - 1];
    RepliesBy(log[..|log| - 1], h) + if e.origin == ByHandler(h) then [e.frame] else []
  }

  /** A reply to this request: its id, exactly one of result and error, and a numeric error code. */
  ghost predicate Answers(f: Frame, id: Json) {
    && f.id == Some(id) && f.methodName.None?
    && f.result.Some? != f.error.Some?
    && (f.error.Some? ==> Get(f.error.value, "code").Some? && Get(f.error.value, "code").value.Num?)
  }

  /** The stage a handler stands at when it has replied. */
  function RepliedAt(handlers: seq<Handler>, h: nat): Option<(Json, bool)> {
    if h < |handlers| && handlers[h].stage.Replied? then Some((handlers[h].id, handlers[h].stage.ok)) else None
  }

  /** One reply, which answers the request, once the handler has replied; none before, or without handler. */
  ghost predicate RepliesRight(replied: Option<(Json, bool)>, replies: seq<Frame>) {
    match replied
    case None => replies == []
    case Some((id, ok)) => |replies| == 1 && Answers(replies[0], id) && (ok <==> replies[0].result.Some?)
  }

  ghost predicate OnlyHandlersReply(log: seq<Record>) {
    forall i :: 0 <= i < |log| && !log[i].origin.ByHandler? ==> log[i].frame.result.None? && log[i].frame.error.None?
  }

  ghost predicate OneReplyEach(s: State) {
    && (forall h: nat :: RepliesRight(RepliedAt(s.handlers, h), RepliesBy(s.out.log, h)))
    && OnlyHandlersReply(s.out.log)
  }

  /** Nothing is written, or one frame that is not a reply. */
  ghost predicate WritesNoReply(lib: Lib, o: Out, p: Out) {
    p == o || exists origin, f ::
      p == Write(lib, o, origin, f) && !origin.ByHandler? && f.result.None? && f.error.None?
  }

  /** A step adds a handler, moves one on, has one reply, or leaves them alone. */
  ghost predicate HandlersMove(lib: Lib, s: State, t: State) {
    || (t.handlers == s.handlers && WritesNoReply(lib, s.out, t.out))
    || (exists x :: t.handlers == s.handlers + [x] && !x.stage.Replied? && WritesNoReply(lib, s.out, t.out))
    || (exists h: nat, x :: h < |s.handlers| && t.handlers == s.handlers[h := x]
          && !s.handlers[h].stage.Replied? && !x.stage.Replied? && x.id == s.handlers[h].id
          && WritesNoReply(lib, s.out, t.out))
    || (exists h: nat, x, f :: ReplyMove(lib, s, t, h, x, f))
  }

  ghost predicate ReplyMove(lib: Lib, s: State, t: State, h: nat, x: Handler, f: Frame) {
    && h < |s.handlers| && t.handlers == s.handlers[h := x]
    && !s.handlers[h].stage.Replied? && x.id == s.handlers[h].id
    && lib.encode(f).Some? && t.out == Write(lib, s.out, ByHandler(h), f)
    && Answers(f, x.id) && x.stage == Replied(f.result.Some?)
  }

  lemma NoticeIsNoReply(sid: string, n: S.Notice)
    ensures S.NoticeFrame(sid, n).result.None? && S.NoticeFrame(sid, n).error.None?
  {
  }

  lemma PerformWrites(w: World, s: State, ref: nat, a: S.Action)
    ensures WritesNoReply(w.lib, s.out, Perform(w, s, ref, a).out)
    ensures Perform(w, s, ref, a).handlers == s.handlers
  {
    if ref < |s.sessions| {
      var t := w.perform(s.sessions[ref], a);
      var frames := S.Spoken(s.sessions[ref], t);
      if frames != [] {
        NoticeIsNoReply(s.sessions[ref].sid, S.NewEvent(s.sessions[ref], t).value.notice);
        assert Perform(w, s, ref, a).out == Write(w.lib, s.out, BySession(ref), frames[0]);
      }
    }
  }

  lemma DispatchWrites(w: World, s: State, methodName: string, params: Json, env: Env)
    ensures var (t, stage) := Dispatch(w, s, methodName, params, env);
      && WritesNoReply(w.lib, s.out, t.out) && t.handlers == s.handlers && !stage.Replied?
  {
    var (t, stage) := Dispatch(w, s, methodName, params, env);
    if methodName == SESSION_CREATE {
      assert t.out == s.out || t.out == Write(w.lib, s.out, ByMain, LogFrame("session created"));
    } else if t != s {
      var (sid, ref) := Lookup(s, params).value;
      forall a ensures WritesNoReply(w.lib, s.out, Perform(w, s, ref, a).out)
      ensures Perform(w, s, ref, a).handlers == s.handlers {
        PerformWrites(w, s, ref, a);
      }
    }
  }

  lemma ArriveMoves(w: World, s: State, v: Value, env: Env)
    ensures HandlersMove(w.lib, s, ArriveStep(w, s, v, env))
  {
    var t := ArriveStep(w, s, v, env);
    if s.phase.Running? {
      var fed := s.(rpc := FeedValue(w.lib, s.rpc, v));
      match RouteOf(w.lib, s.rpc, v)
      case Dispatched(id, methodName, params) =>
        DispatchWrites(w, fed, methodName, params, env);
        var x := Handler(id, methodName, Dispatch(w, fed, methodName, params, env).1, None);
        assert t.handlers == s.handlers + [x];
      case _ =>
    }
  }

  lemma AnswerAnswers(lib: Lib, id: Json, outcome: Stage, err: Thrown)
    ensures var f := Answer(lib, id, outcome, err);
      f.Some? ==> Answers(f.value, id) && lib.encode(f.value).Some?
  {
  }

  lemma SettleMoves(lib: Lib, s: State, h: nat, err: Thrown)
    ensures HandlersMove(lib, s, SettleStep(lib, s, h, err))
  {
    var t := SettleStep(lib, s, h, err);
    if t != s {
      AnswerAnswers(lib, s.handlers[h].id, s.handlers[h].stage, err);
      assert t.handlers == s.handlers[h := t.handlers[h]];
      var f := Answer(lib, s.handlers[h].id, s.handlers[h].stage, err);
      assert f.Some? ==> ReplyMove(lib, s, t, h, t.handlers[h], f.value);
    }
  }

  lemma CloseDoneMoves(lib: Lib, s: State, h: nat)
    ensures HandlersMove(lib, s, CloseDoneStep(lib, s, h))
  {
    var t := CloseDoneStep(lib, s, h);
    if t != s {
      assert t.handlers == s.handlers[h := t.handlers[h]];
      assert t.out == Write(lib, s.out, ByMain, LogFrame("session closed"));
    }
  }

  lemma ControlDoneMoves(lib: Lib, s: State, h: nat, answer: Stage)
    ensures HandlersMove(lib, s, ControlDoneStep(s, h, answer))
  {
    var t := ControlDoneStep(s, h, answer);
    if t != s {
      assert t.handlers == s.handlers[h := t.handlers[h]];
    }
  }

  lemma StepMovesHandlers(w: World, s: State, a: Action)
    ensures HandlersMove(w.lib, s, Step(w, s, a))
  {
    match a
    case Arrive(v, env) => ArriveMoves(w, s, v, env);
    case Settle(h, err) => SettleMoves(w.lib, s, h, err);
    case ControlDone(h, answer) => ControlDoneMoves(w.lib, s, h, answer);
    case CloseDone(h) => CloseDoneMoves(w.lib, s, h);
    case OnSession(ref, act) => PerformWrites(w, s, ref, act);
    case MainClose(ref) => PerformWrites(w, s, ref, S.CloseBegin);
    case Outbound(methodName, params, _) =>
      assert OutboundStep(w.lib, s, methodName, params, a.timeoutMs).out
          == Write(w.lib, s.out, ByRpc(s.rpc.nextId), Request(s.rpc.nextId, methodName, params));
    case _ =>
  }

  lemma RepliesAfterWrite(lib: Lib, o: Out, origin: Origin, f: Frame, h: nat)
    ensures RepliesBy(Write(lib, o, origin, f).log, h) ==
      RepliesBy(o.log, h) + if lib.encode(f).Some? && origin == ByHandler(h) then [f] else []
  {
    if lib.encode(f).Some? {
      var log := Write(lib, o, origin, f).log;
      assert log[..|log| - 1] == o.log;
    }
  }

  lemma OnlyHandlersKept(lib: Lib, o: Out, origin: Origin, f: Frame)
    requires OnlyHandlersReply(o.log)
    requires !origin.ByHandler? ==> f.result.None? && f.error.None?
    ensures OnlyHandlersReply(Write(lib, o, origin, f).log)
  {
  }

  lemma SilentlyKept(lib: Lib, s: State, t: State)
    requires OneReplyEach(s) && WritesNoReply(lib, s.out, t.out)
    requires forall h: nat :: RepliedAt(t.handlers, h) == RepliedAt(s.handlers, h)
    ensures OneReplyEach(t)
  {
    if t.out != s.out {
      var origin, f :| t.out == Write(lib, s.out, origin, f) && !origin.ByHandler? && f.result.None? && f.error.None?;
      OnlyHandlersKept(lib, s.out, origin, f);
      forall h: nat ensures RepliesRight(RepliedAt(t.handlers, h), RepliesBy(t.out.log, h)) {
        RepliesAfterWrite(lib, s.out, origin, f, h);
        assert RepliesRight(RepliedAt(s.handlers, h), RepliesBy(s.out.log, h));
        assert RepliesBy(s.out.log, h) + [] == RepliesBy(s.out.log, h);
      }
    }
  }

  lemma ReplyKeptAt(lib: Lib, s: State, t: State, h: nat, x: Handler, f: Frame, i: nat)
    requires RepliesRight(RepliedAt(s.handlers, i), RepliesBy(s.out.log, i)) && ReplyMove(lib, s, t, h, x, f)
    ensures RepliesRight(RepliedAt(t.handlers, i), RepliesBy(t.out.log, i))
  {
    RepliesAfterWrite(lib, s.out, ByHandler(h), f, i);
    if i == h {
      assert RepliesBy(s.out.log, i) == [];
      assert RepliesBy(t.out.log, i) == [f];
      assert t.handlers[h] == x;
    } else {
      assert RepliesBy(t.out.log, i) == RepliesBy(s.out.log, i) + [] == RepliesBy(s.out.log, i);
      assert RepliedAt(t.handlers, i) == RepliedAt(s.handlers, i);
    }
  }

  lemma ReplyKept(lib: Lib, s: State, t: State, h: nat, x: Handler, f: Frame)
    requires OneReplyEach(s) && ReplyMove(lib, s, t, h, x, f)
    ensures OneReplyEach(t)
  {
    OnlyHandlersKept(lib, s.out, ByHandler(h), f);
    forall i: nat ensures RepliesRight(RepliedAt(t.handlers, i), RepliesBy(t.out.log, i)) {
      ReplyKeptAt(lib, s, t, h, x, f, i);
    }
  }

  lemma RepliesKept(lib: Lib, s: State, t: State)
    requires OneReplyEach(s) && HandlersMove(lib, s, t)
    ensures OneReplyEach(t)
  {
    if exists h: nat, x, f :: ReplyMove(lib, s, t, h, x, f) {
      var h: nat, x, f :| ReplyMove(lib, s, t, h, x, f);
      ReplyKept(lib, s, t, h, x, f);
    } else {
      SilentlyKept(lib, s, t);
    }
  }

  lemma NothingSaidYet(w: World)
    ensures OneReplyEach(Init(w))
  {
    var ready, log := ReadyFrame(w.versions), LogFrame("sidecar ready (sdk " + w.versions.sdk + ")");
    var o := Out("", []);
    var p := Write(w.lib, o, ByMain, ready);
    OnlyHandlersKept(w.lib, o, ByMain, ready);
    OnlyHandlersKept(w.lib, p, ByMain, log);
    forall h: nat ensures RepliesBy(Write(w.lib, p, ByMain, log).log, h) == [] {
      RepliesAfterWrite(w.lib, o, ByMain, ready, h);
      RepliesAfterWrite(w.lib, p, ByMain, log, h);
    }
  }

  predicate HasOutcome(stage: Stage) { stage.Returning? || stage.Throwing? }

  /** A handler died only because even an error frame for its request could not be serialised. */
  ghost predicate DeathsHaveReasons(lib: Lib, handlers: seq<Handler>) {
    forall h :: 0 <= h < |handlers| && handlers[h].stage.Dead? ==>
      exists thrown :: ErrorAnswer(lib, handlers[h].id, thrown).None?
  }

  lemma NobodyDies(lib: Lib, s: State, t: State)
    requires DeathsHaveReasons(lib, s.handlers)
    requires |s.handlers| <= |t.handlers|
    requires forall h :: 0 <= h < |t.handlers| && t.handlers[h].stage.Dead? ==>
      h < |s.handlers| && t.handlers[h] == s.handlers[h]
    ensures DeathsHaveReasons(lib, t.handlers)
  {
  }

  lemma DispatchKillsNobody(w: World, s: State, methodName: string, params: Json, env: Env)
    ensures !Dispatch(w, s, methodName, params, env).1.Dead?
  {
  }

  lemma ArriveDeaths(w: World, s: State, v: Value, env: Env)
    requires DeathsHaveReasons(w.lib, s.handlers)
    ensures DeathsHaveReasons(w.lib, ArriveStep(w, s, v, env).handlers)
  {
    var r := RouteOf(w.lib, s.rpc, v);
    if s.phase.Running? && r.Dispatched? {
      var fed := s.(rpc := FeedValue(w.lib, s.rpc, v));
      DispatchKillsNobody(w, fed, r.methodName, r.params, env);
      NobodyDies(w.lib, s, ArriveStep(w, s, v, env));
    }
  }

  lemma SettleDeaths(lib: Lib, s: State, h: nat, err: Thrown)
    requires DeathsHaveReasons(lib, s.handlers)
    ensures DeathsHaveReasons(lib, SettleStep(lib, s, h, err).handlers)
  {
    if h < |s.handlers| && HasOutcome(s.handlers[h].stage) {
      var thrown := if s.handlers[h].stage.Throwing? then s.handlers[h].stage.err else err;
      var t := SettleStep(lib, s, h, err);
      assert t.handlers[h].stage.Dead? ==> ErrorAnswer(lib, t.handlers[h].id, thrown).None?;
      assert forall i :: 0 <= i < |s.handlers| && i != h ==> t.handlers[i] == s.handlers[i];
    }
  }

  lemma StepDeaths(w: World, s: State, a: Action)
    requires DeathsHaveReasons(w.lib, s.handlers)
    ensures DeathsHaveReasons(w.lib, Step(w, s, a).handlers)
  {
    match a
    case Arrive(v, env) => ArriveDeaths(w, s, v, env);
    case Settle(h, err) => SettleDeaths(w.lib, s, h, err);
    case _ => NobodyDies(w.lib, s, Step(w, s, a));
  }

  /**
   Over all interleavings, each dispatched request has at most one reply at any time, and exactly
   one when its handler has finished: with the request's id, one of result and error, and a numeric
   code in the error; a result reply exactly when the handler got as far as sending one. Only a
   handler whose error frame cannot be serialised finishes without one (ReplyIsCertainIff says when
   that can be). And nothing but handlers writes replies.
   */
  lemma {:induction false} ExactlyOneReply(w: World, acts: seq<Action>)
    ensures OneReplyEach(Run(w, acts))
    ensures DeathsHaveReasons(w.lib, Run(w, acts).handlers)
  {
    if acts == [] {
      NothingSaidYet(w);
    } else {
      var pre := acts[..|acts| - 1];
      ExactlyOneReply(w, pre);
      StepMovesHandlers(w, Run(w, pre), acts[|acts| - 1]);
      RepliesKept(w.lib, Run(w, pre), Run(w, acts));
      StepDeaths(w, Run(w, pre), acts[|acts| - 1]);
    }
  }

  /** A handler that has an outcome is one step from its reply, if its error frame can be serialised. */
  lemma SettlingReplies(w: World, s: State, h: nat, err: Thrown)
    requires !Over(s) && h < |s.handlers| && HasOutcome(s.handlers[h].stage)
    requires ErrorAnswer(w.lib, s.handlers[h].id,
      if s.handlers[h].stage.Throwing? then s.handlers[h].stage.err else err).Some?
    ensures var t := Step(w, s, Settle(h, err));
      && t.handlers[h].stage.Replied?
      && RepliesBy(t.out.log, h) != []
  {
    var f := Answer(w.lib, s.handlers[h].id, s.handlers[h].stage, err);
    AnswerAnswers(w.lib, s.handlers[h].id, s.handlers[h].stage, err);
    RepliesAfterWrite(w.lib, s.out, ByHandler(h), f.value, h);
    Settled(w.lib, s, h, err, f.value);
  }

  lemma Settled(lib: Lib, s: State, h: nat, err: Thrown, f: Frame)
    requires h < |s.handlers| && HasOutcome(s.handlers[h].stage)
    requires Answer(lib, s.handlers[h].id, s.handlers[h].stage, err) == Some(f)
    ensures var t := SettleStep(lib, s, h, err);
      t.handlers == s.handlers[h := t.handlers[h]] && t.handlers[h].stage == Replied(f.result.Some?)
      && t.out == Write(lib, s.out, ByHandler(h), f)
  {
  }

  // ---------------------------------------------------------------------------------------------
  // What dispatch decided is what the peer is told
  // ---------------------------------------------------------------------------------------------

  /**
   A handler had this outcome. It still has it and has not replied; or it has replied, once, with the
   answer for this outcome; or it has died without a reply, for no answer could be serialised.
   */
  ghost predicate Delivered(lib: Lib, id: Json, outcome: Stage, s: State, h: nat) {
    h < |s.handlers| && s.handlers[h].id == id &&
    match s.handlers[h].stage
    case Replied(_) =>
      exists err ::
        Answer(lib, id, outcome, err).Some? && RepliesBy(s.out.log, h) == [Answer(lib, id, outcome, err).value]
    case Dead => RepliesBy(s.out.log, h) == [] && exists err :: Answer(lib, id, outcome, err).None?
    case stage => stage == outcome && RepliesBy(s.out.log, h) == []
  }

  /** From its outcome on, a handler only moves by settling. */
  lemma OutcomeStep(w: World, s: State, a: Action, h: nat)
    requires h < |s.handlers|
    requires HasOutcome(s.handlers[h].stage) || s.handlers[h].stage.Replied? || s.handlers[h].stage.Dead?
    ensures var t := Step(w, s, a);
      && h < |t.handlers|
      && (t.handlers[h] == s.handlers[h] ||
          (!Over(s) && HasOutcome(s.handlers[h].stage) && a.Settle? && a.h == h && t == SettleStep(w.lib, s, h, a.err)))
  {
    match a
    case Arrive(v, env) =>
      var r := RouteOf(w.lib, s.rpc, v);
      if r.Dispatched? {
        DispatchWrites(w, s.(rpc := FeedValue(w.lib, s.rpc, v)), r.methodName, r.params, env);
      }
    case OnSession(ref, act) => PerformWrites(w, s, ref, act);
    case MainClose(ref) => PerformWrites(w, s, ref, S.CloseBegin);
    case _ =>
  }

  lemma RepliesGrow(w: World, s: State, a: Action, h: nat)
    ensures RepliesBy(s.out.log, h) <= RepliesBy(Step(w, s, a).out.log, h)
  {
    StepMovesHandlers(w, s, a);
    var t := Step(w, s, a);
    if t.out != s.out {
      var origin, f :| t.out == Write(w.lib, s.out, origin, f);
      RepliesAfterWrite(w.lib, s.out, origin, f, h);
    }
  }

  lemma SettleDelivers(lib: Lib, s: State, h: nat, err: Thrown, id: Json, outcome: Stage)
    requires Delivered(lib, id, outcome, s, h) && HasOutcome(s.handlers[h].stage)
    ensures Delivered(lib, id, outcome, SettleStep(lib, s, h, err), h)
  {
    var f := Answer(lib, id, outcome, err);
    AnswerAnswers(lib, id, outcome, err);
    if f.Some? {
      RepliesAfterWrite(lib, s.out, ByHandler(h), f.value, h);
      assert RepliesBy(SettleStep(lib, s, h, err).out.log, h) == [f.value];
    }
  }

  lemma DeliveredKept(w: World, s: State, a: Action, h: nat, id: Json, outcome: Stage)
    requires HasOutcome(outcome) && Delivered(w.lib, id, outcome, s, h)
    requires OneReplyEach(s) && OneReplyEach(Step(w, s, a))
    ensures Delivered(w.lib, id, outcome, Step(w, s, a), h)
  {
    var t := Step(w, s, a);
    OutcomeStep(w, s, a, h);
    if t.handlers[h] == s.handlers[h] {
      RepliesGrow(w, s, a, h);
      assert RepliesRight(RepliedAt(s.handlers, h), RepliesBy(s.out.log, h));
      assert RepliesRight(RepliedAt(t.handlers, h), RepliesBy(t.out.log, h));
      assert RepliesBy(t.out.log, h) == RepliesBy(s.out.log, h);
    } else {
      SettleDelivers(w.lib, s, h, a.err, id, outcome);
    }
  }

  lemma Snoc(w: World, acts: seq<Action>, a: Action)
    ensures Run(w, acts + [a]) == Step(w, Run(w, acts), a)
  {
    assert (acts + [a])[..|acts + [a]| - 1] == acts;
  }

  /**
   However the run goes on, a handler that has an outcome tells the peer that outcome: a result is
   replied as it is, or as an error if it cannot be serialised; a thrown error as it is. It tells the
   peer nothing only if no answer for the outcome could be serialised.
   */
  lemma {:induction false} OutcomeIsDelivered(w: World, acts: seq<Action>, more: seq<Action>, h: nat)
    requires h < |Run(w, acts).handlers| && HasOutcome(Run(w, acts).handlers[h].stage)
    ensures var x := Run(w, acts).handlers[h];
      Delivered(w.lib, x.id, x.stage, Run(w, acts + more), h)
  {
    if more == [] {
      assert acts + more == acts;
      ExactlyOneReply(w, acts);
      assert RepliesRight(RepliedAt(Run(w, acts).handlers, h), RepliesBy(Run(w, acts).out.log, h));
    } else {
      var m := |more| - 1;
      assert acts + more == acts + more[..m] + [more[m]];
      OutcomeIsDelivered(w, acts, more[..m], h);
      ExactlyOneReply(w, acts + more[..m]);
      ExactlyOneReply(w, acts + more);
      Snoc(w, acts + more[..m], more[m]);
      var x := Run(w, acts).handlers[h];
      DeliveredKept(w, Run(w, acts + more[..m]), more[m], h, x.id, x.stage);
    }
  }

  /** What the peer reads from a reply with a result: JSON-RPC 2.0, section 5. */
  predicate TellsResult(f: Frame, id: Json, result: Json) {
    f.id == Some(id) && f.methodName.None? && f.params.None? && f.result == Some(result) && f.error.None?
  }

  /** And with an error: the code thrown, or else -32603, the message and the data. */
  predicate TellsError(f: Frame, id: Json, thrown: Thrown) {
    && f.id == Some(id) && f.methodName.None? && f.params.None? && f.result.None? && f.error.Some?
    && Get(f.error.value, "code") == Some(Num(if thrown.code.Some? then thrown.code.value else -32603))
    && Get(f.error.value, "message") == Some(thrown.message)
    && Get(f.error.value, "data") == thrown.data
  }

  ghost predicate TellsOutcome(lib: Lib, f: Frame, id: Json, outcome: Stage) {
    match outcome
    case Returning(result) =>
      && (f.result.Some? ==> TellsResult(f, id, result))
      && (f.result.None? ==> exists err :: TellsError(f, id, err))
      && (forall g :: TellsResult(g, id, result) && lib.encode(g).Some? ==> f == g)
    case Throwing(thrown) => TellsError(f, id, thrown)
    case _ => true
  }

  lemma ErrorIsTold(id: Json, thrown: Thrown)
    ensures TellsError(ErrorReply(id, ErrorBody(thrown)), id, thrown)
  {
    assert "code" != "data" && "data" != "message" && |"message"| == 7 && |"code"| == 4;
  }

  lemma AnswerTells(lib: Lib, id: Json, outcome: Stage, err: Thrown)
    requires HasOutcome(outcome) && Answer(lib, id, outcome, err).Some?
    ensures TellsOutcome(lib, Answer(lib, id, outcome, err).value, id, outcome)
  {
    ErrorIsTold(id, if outcome.Throwing? then outcome.err else err);
    if outcome.Returning? {
      assert forall g :: TellsResult(g, id, outcome.result) ==>
        g == Frame(Some(id), None, None, Some(outcome.result), None);
    }
  }

  /**
   However the run goes on, every reply of a handler that has an outcome tells the peer that outcome:
   the very result, or an error only if a reply with that result cannot be serialised; the very code,
   message and data thrown.
   */
  lemma ReplyTellsOutcome(w: World, acts: seq<Action>, more: seq<Action>, h: nat, f: Frame)
    requires h < |Run(w, acts).handlers| && HasOutcome(Run(w, acts).handlers[h].stage)
    requires f in RepliesBy(Run(w, acts + more).out.log, h)
    ensures var x := Run(w, acts).handlers[h]; TellsOutcome(w.lib, f, x.id, x.stage)
  {
    var x, t := Run(w, acts).handlers[h], Run(w, acts + more);
    OutcomeIsDelivered(w, acts, more, h);
    assert t.handlers[h].stage.Replied?;
    var err :| Answer(w.lib, x.id, x.stage, err).Some?
      && RepliesBy(t.out.log, h) == [Answer(w.lib, x.id, x.stage, err).value];
    AnswerTells(w.lib, x.id, x.stage, err);
  }

  predicate DeadAt(s: State, h: nat) { h < |s.handlers| && s.handlers[h].stage.Dead? }

  /**
   A handler that has an outcome is sure not to die without a reply, however the run goes on, if and
   only if this outcome has an answer that can be serialised, whatever serialising the result throws.
   */
  lemma ReplyIsCertainIff(w: World, acts: seq<Action>, h: nat)
    requires !Over(Run(w, acts))
    requires h < |Run(w, acts).handlers| && HasOutcome(Run(w, acts).handlers[h].stage)
    ensures var x := Run(w, acts).handlers[h];
      (forall err :: Answer(w.lib, x.id, x.stage, err).Some?) <==>
        forall more: seq<Action> :: !DeadAt(Run(w, acts + more), h)
  {
    var x := Run(w, acts).handlers[h];
    if err :| Answer(w.lib, x.id, x.stage, err).None? {
      Snoc(w, acts, Settle(h, err));
      assert DeadAt(Run(w, acts + [Settle(h, err)]), h);
    } else {
      forall more: seq<Action> ensures !DeadAt(Run(w, acts + more), h) {
        OutcomeIsDelivered(w, acts, more, h);
      }
    }
  }

  /** A session.create for the id "s". */
  function CreateFrame(): Frame {
    Frame(Some(Num(0)), Some(Str(SESSION_CREATE)), Some(Dict(map["sessionId" := Str("s")])), None, None)
  }

  lemma CreateThrows(w: World, thrown: Thrown)
    ensures IsRequest(CreateFrame())
    ensures var t := Step(w, Init(w), Arrive(Object(CreateFrame()), Env(Some(thrown), false, Null)));
      t.handlers == [Handler(Num(0), SESSION_CREATE, Throwing(thrown), None)] && !Over(t)
  {
  }

  lemma DiesOnSettling(w: World, s: State, thrown: Thrown)
    requires s.handlers == [Handler(Num(0), SESSION_CREATE, Throwing(thrown), None)] && !Over(s)
    requires w.lib.encode(ErrorReply(Num(0), ErrorBody(thrown))).None?
    ensures DeadAt(Step(w, s, Settle(0, thrown)), 0) && Doomed(Step(w, s, Settle(0, thrown)))
  {
    assert ErrorAnswer(w.lib, Num(0), thrown).None?;
  }

  lemma TwoSteps(w: World, a: Action, b: Action)
    ensures Run(w, [a, b]) == Step(w, Step(w, Init(w), a), b)
  {
    assert [] + [a] == [a] && [a] + [b] == [a, b];
    Snoc(w, [], a);
    Snoc(w, [a], b);
  }

  /** A session.create whose query throws an error that JSON.stringify refuses is never answered. */
  lemma UnserialisableErrorGetsNoReply(w: World, thrown: Thrown, more: seq<Action>)
    requires w.lib.encode(ErrorReply(Num(0), ErrorBody(thrown))).None?
    ensures var acts := [Arrive(Object(CreateFrame()), Env(Some(thrown), false, Null)), Settle(0, thrown)];
      && IsRequest(CreateFrame()) && DeadAt(Run(w, acts), 0) && Doomed(Run(w, acts))
      && RepliesBy(Run(w, acts + more).out.log, 0) == []
  {
    var a, b := Arrive(Object(CreateFrame()), Env(Some(thrown), false, Null)), Settle(0, thrown);
    TwoSteps(w, a, b);
    CreateThrows(w, thrown);
    DiesOnSettling(w, Step(w, Init(w), a), thrown);
    DeadStaysSilent(w, [a, b], more, 0);
  }

  lemma {:induction false} DeadStaysSilent(w: World, acts: seq<Action>, more: seq<Action>, h: nat)
    requires DeadAt(Run(w, acts), h)
    ensures DeadAt(Run(w, acts + more), h) && RepliesBy(Run(w, acts + more).out.log, h) == []
  {
    ExactlyOneReply(w, acts + more);
    if more == [] {
      assert acts + more == acts;
    } else {
      var m := |more| - 1;
      assert acts + more == acts + more[..m] + [more[m]];
      DeadStaysSilent(w, acts, more[..m], h);
      Snoc(w, acts + more[..m], more[m]);
      OutcomeStep(w, Run(w, acts + more[..m]), more[m], h);
    }
    var t := Run(w, acts + more);
    assert RepliesRight(RepliedAt(t.handlers, h), RepliesBy(t.out.log, h));
  }

  predicate NeedsSession(methodName: string) {
    methodName in {SESSION_SEND, SESSION_CONTROL, SESSION_RESUME, SESSION_CLOSE}
  }

  const METHODS: set<string> :=
    {PING, SHUTDOWN, SESSION_CREATE, SESSION_SEND, SESSION_CONTROL, SESSION_RESUME, SESSION_CLOSE}

  predicate CanBeCreated(s: State, params: Json) {
    match Get(params, "sessionId") case Some(Str(sid)) => sid != "" && sid !in s.table case _ => false
  }

  /** The code with which the dispatcher itself refuses a request, if it does. */
  function RefusalCode(s: State, methodName: string, params: Json): Option<int> {
    if methodName !in METHODS then Some(-32601)
    else if NeedsSession(methodName) && Lookup(s, params).None? then Some(-32001)
    else if methodName == SESSION_CREATE && !CanBeCreated(s, params) then Some(-32602)
    else None
  }

  lemma RefusedAtOnce(w: World, s: State, methodName: string, params: Json, env: Env)
    requires RefusalCode(s, methodName, params).Some?
    ensures var (t, stage) := Dispatch(w, s, methodName, params, env);
      t == s && stage.Throwing? && stage.err.code == RefusalCode(s, methodName, params)
  {
    assert |PING| == 4 && |SHUTDOWN| == 8 && |SESSION_SEND| == 12 && |SESSION_CONTROL| == 15;
    assert |SESSION_CREATE| == 14 == |SESSION_RESUME| && SESSION_CREATE[8] == 'c' && SESSION_RESUME[8] == 'r';
    assert |SESSION_CLOSE| == 13;
  }

  /**
   A request with an unknown method, an id that routes to no session, or an id that cannot be created
   changes nothing, and every reply it ever gets is the error with that code, whatever is thrown
   meanwhile.
   */
  lemma RefusalsReachThePeer(w: World, acts: seq<Action>, f: Frame, env: Env, more: seq<Action>)
    requires Run(w, acts).phase.Running? && IsRequest(f)
    requires RefusalCode(Run(w, acts), f.methodName.value.s, ParamsOf(f)).Some?
    ensures var s := Run(w, acts);
      var t, u := Step(w, s, Arrive(Object(f), env)), Run(w, acts + [Arrive(Object(f), env)] + more);
      && t.table == s.table && t.sessions == s.sessions && t.rpc == s.rpc && t.out == s.out
      && forall r :: r in RepliesBy(u.out.log, |s.handlers|) ==>
           r.id == f.id && r.error.Some? &&
           Get(r.error.value, "code") == Some(Num(RefusalCode(s, f.methodName.value.s, ParamsOf(f)).value))
  {
    var s, a, h := Run(w, acts), Arrive(Object(f), env), |Run(w, acts).handlers|;
    var t := Step(w, s, a);
    RefusedAtOnce(w, s, f.methodName.value.s, ParamsOf(f), env);
    var stage := Dispatch(w, s, f.methodName.value.s, ParamsOf(f), env).1;
    assert t.handlers == s.handlers + [Handler(f.id.value, f.methodName.value.s, stage, None)];
    Snoc(w, acts, a);
    OutcomeIsDelivered(w, acts + [a], more, h);
  }

  // ---------------------------------------------------------------------------------------------
  // The pipe
  // ---------------------------------------------------------------------------------------------

  /** At every reachable state the bytes on the pipe are whole frames, each ended by LF. */
  lemma {:induction false} PipeHoldsWholeFrames(w: World, acts: seq<Action>)
    ensures WholeFrames(w.lib, Run(w, acts).out)
  {
    if acts == [] {
      var p := Write(w.lib, Out("", []), ByMain, ReadyFrame(w.versions));
      WriteKeepsFrames(w.lib, Out("", []), ByMain, ReadyFrame(w.versions));
      WriteKeepsFrames(w.lib, p, ByMain, LogFrame("sidecar ready (sdk " + w.versions.sdk + ")"));
    } else {
      var pre := acts[..|acts| - 1];
      var s, t := Run(w, pre), Run(w, acts);
      PipeHoldsWholeFrames(w, pre);
      StepMovesHandlers(w, s, acts[|acts| - 1]);
      assert t.out == s.out || exists origin, f :: t.out == Write(w.lib, s.out, origin, f);
      if t.out != s.out {
        var origin, f :| t.out == Write(w.lib, s.out, origin, f);
        WriteKeepsFrames(w.lib, s.out, origin, f);
      }
    }
  }

  /**
   At every reachable state the bytes written by all writers, cut into any chunks, leave the reader
   with exactly the log of frames sent and an empty buffer; and so does the same log with CRLF after
   any of its frames.
   */
  lemma RoundTripUnderConcurrency(w: World, acts: seq<Action>, chunks: seq<string>, ends: seq<string>)
    requires Lawful(w.lib)
    requires |ends| == |Frames(Run(w, acts).out.log)|
    requires forall i :: 0 <= i < |ends| ==> ends[i] == "\n" || ends[i] == "\r\n"
    requires forall f :: f in Frames(Run(w, acts).out.log) ==> w.lib.encode(f).Some?
    requires Concat(chunks) in {Run(w, acts).out.bytes, Text(w.lib, Frames(Run(w, acts).out.log), ends)}
    ensures Streamed(w.lib, chunks) == (Objects(Frames(Run(w, acts).out.log)), "")
  {
    PipeHoldsWholeFrames(w, acts);
    var frames := Frames(Run(w, acts).out.log);
    RoundTrip(w.lib, frames, ends);
    RoundTrip(w.lib, frames, LFs(|frames|));
    StreamedIsBatch(w.lib, chunks);
    TailAtBoundary(Concat(chunks));
  }
}
