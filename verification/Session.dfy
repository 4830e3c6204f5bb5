/**
 session.ts, QuerySession: one logical session over a succession of SDK queries. The SDK is the
 environment: a query reads its own input channel, yields messages, ends, or throws.
 */
module Session {
  import opened Basics
  import opened Protocol
  import C = Channel

  /**
   Where the background pump of a generation stands. Breaking: it saw closed and awaits the
   iterator's return; Failing: forwarding threw and the iterator is being returned; NoQuery: starting
   the generation's query threw.
   */
  datatype Pump = NoQuery | Iterating | Breaking | Failing | Ended

  datatype Notice = Message(m: Json) | ClosedNotice | ErrorNotice(text: string)

  datatype Turn = Given(id: Json) | Auto(n: nat)

  /** What happened, in order; the generation says which channel, query or pump it concerned. */
  datatype Event =
    | Created
    | Resumed(g: int)
    | ResumeFailed(g: int)
    | Sent(g: int, m: Json, turn: Turn)
    | SendRejected
    | Controlled(g: int, methodName: string, args: Json)
    | ControlRejected
    | CloseCalled(k: nat)
    | CloseResolved(k: nat)
    | Emitted(g: int, notice: Notice)

  /** A close() call; waitsFor is the pump it awaits, none when the session was closed already. */
  datatype Closer = Closer(waitsFor: Option<nat>, resolved: bool)

  /**
   create and each resume begin a generation: its input channel, what its query has yielded, and its
   pump, at the same position of three lists. The input in use is the last one; current is the
   generation of this.query and this.pumpDone.
   */
  datatype State = State(
    sid: string,
    closed: bool,
    turnSeq: nat,
    channels: seq<C.State>,
    yielded: seq<seq<Json>>,
    pumps: seq<Pump>,
    current: nat,
    closers: seq<Closer>,
    log: seq<Event>)

  datatype Action =
    | Send(content: Json, turnId: Option<Json>)
    | Control(methodName: string, args: Option<Json>, known: bool)
    | Resume(queryStarts: bool)
    | CloseBegin
    | CloseFinish(k: nat)
    | ReadInput(g: nat)
    | ReturnInput(g: nat)
    | Yield(g: nat, m: Json)
    | Finish(g: nat)
    | Returned(g: nat, text: string)
    | Throw(g: nat, text: string)

  predicate Live(p: Pump) { p.Iterating? || p.Breaking? || p.Failing? }

  function UserMessage(content: Json): Json {
    Dict(map[
      "type" := Str("user"),
      "message" := Dict(map["role" := Str("user"), "content" := content]),
      "parent_tool_use_id" := Null])
  }

  function NoticeFrame(sid: string, n: Notice): Frame {
    match n
    case Message(m) =>
      Notification("session.message", Dict(map["sessionId" := Str(sid), "message" := m]))
    case ClosedNotice =>
      Notification("session.closed", Dict(map["sessionId" := Str(sid), "reason" := Str("iterator_done")]))
    case ErrorNotice(text) =>
      Notification("session.error", Dict(map["sessionId" := Str(sid),
        "error" := Dict(map["code" := Num(ERROR_PUMP), "message" := Str(text)])]))
  }

  function Init(sid: string): State {
    State(sid, false, 0, [C.EMPTY], [[]], [Iterating], 0, [], [Created])
  }

  /** A session object whose create() threw: it has no query, and nobody keeps it. */
  function Unstarted(sid: string): State {
    State(sid, false, 0, [C.EMPTY], [[]], [NoQuery], 0, [], [])
  }

  function Log(s: State, e: Event): State { s.(log := s.log + [e]) }

  function SetPump(s: State, g: int, p: Pump): State {
    if 0 <= g < |s.pumps| then s.(pumps := s.pumps[g := p]) else s
  }

  function OnChannel(s: State, g: int, op: C.Op): State {
    if 0 <= g < |s.channels| then s.(channels := s.channels[g := C.Step(s.channels[g], op)]) else s
  }

  /** The generation whose channel is this.input. */
  function Input(s: State): int { |s.channels| - 1 }

  predicate InputClosed(s: State) { s.channels != [] && s.channels[Input(s)].closed }

  function Decimal(n: nat): (s: string)
    ensures s != []
  {
    if n < 10 then [('0' as int + n) as char] else Decimal(n / 10) + [('0' as int + n % 10) as char]
  }

  function TurnId(t: Turn): Json {
    match t
    case Given(id) => id
    case Auto(n) => Str("turn-" + Decimal(n))
  }

  function NextTurn(s: State): (State, Turn) { (s.(turnSeq := s.turnSeq + 1), Auto(s.turnSeq + 1)) }

  /** turnId ?? nextTurnId(), which happens before the push can throw. */
  function AssignTurn(s: State, turnId: Option<Json>): (State, Turn) {
    match turnId
    case Some(id) => if id == Null then NextTurn(s) else (s, Given(id))
    case None => NextTurn(s)
  }

  function SendStep(s: State, content: Json, turnId: Option<Json>): State {
    if s.closed then Log(s, SendRejected) else
    var (t, turn) := AssignTurn(s, turnId);
    PushStep(t, UserMessage(content), turn)
  }

  function PushStep(s: State, m: Json, turn: Turn): State {
    if InputClosed(s) then Log(s, SendRejected)
    else Log(OnChannel(s, Input(s), C.Push(m)), Sent(Input(s), m, turn))
  }

  /** args ?? []. */
  function Arguments(args: Option<Json>): Json {
    if args.None? || args.value == Null then Arr([]) else args.value
  }

  /** Function.prototype.apply takes an object, read as a list, and throws on anything else. */
  predicate Applicable(args: Json) { args.Arr? || args.Dict? }

  /** known: the method is on the list of control methods and the query has it. */
  function ControlStep(s: State, methodName: string, args: Option<Json>, known: bool): State {
    if s.closed || !known || !Applicable(Arguments(args)) then Log(s, ControlRejected)
    else Log(s, Controlled(s.current, methodName, Arguments(args)))
  }

  function ResumeStep(s: State, queryStarts: bool): State {
    var shut := OnChannel(s, Input(s), C.Close);
    var g := |s.channels|;
    var next := shut.(channels := shut.channels + [C.EMPTY], yielded := shut.yielded + [[]]);
    if queryStarts then
      Log(next.(pumps := next.pumps + [Iterating], current := g, closed := false), Resumed(g))
    else
      Log(next.(pumps := next.pumps + [NoQuery]), ResumeFailed(g))
  }

  function CloseStep(s: State): State {
    if s.closed then
      Log(s.(closers := s.closers + [Closer(None, false)]), CloseCalled(|s.closers|))
    else
      Log(OnChannel(s, Input(s), C.Close).(
            closed := true,
            closers := s.closers + [Closer(Some(s.current), false)]), CloseCalled(|s.closers|))
  }

  predicate CanFinish(s: State, k: nat) {
    && k < |s.closers| && !s.closers[k].resolved
    && match s.closers[k].waitsFor
       case None => true
       case Some(g) => g < |s.pumps| && s.pumps[g].Ended?
  }

  /** The statements after the for-await loop. */
  function AfterLoop(s: State, g: nat): State {
    if s.closed then SetPump(s, g, Ended)
    else Log(SetPump(s, g, Ended).(closed := true), Emitted(g, ClosedNotice))
  }

  function Caught(s: State, g: nat, text: string): State {
    Log(SetPump(s, g, Ended), Emitted(g, ErrorNotice(text)))
  }

  function YieldStep(lib: Lib, s: State, g: nat, m: Json): State {
    var t := if g < |s.yielded| then s.(yielded := s.yielded[g := s.yielded[g] + [m]]) else s;
    if s.closed then SetPump(t, g, Breaking)
    else if lib.encode(NoticeFrame(s.sid, Message(m))).Some? then Log(t, Emitted(g, Message(m)))
    else SetPump(t, g, Failing)
  }

  predicate At(s: State, g: nat, p: Pump) { g < |s.pumps| && s.pumps[g] == p }

  predicate HasQuery(s: State, g: int) { 0 <= g < |s.pumps| && !s.pumps[g].NoQuery? }

  function Step(lib: Lib, s: State, a: Action): State {
    match a
    case Send(content, turnId) => SendStep(s, content, turnId)
    case Control(methodName, args, known) => ControlStep(s, methodName, args, known)
    case Resume(queryStarts) => ResumeStep(s, queryStarts)
    case CloseBegin => CloseStep(s)
    case CloseFinish(k) =>
      if CanFinish(s, k) then
        Log(s.(closers := s.closers[k := s.closers[k].(resolved := true)]), CloseResolved(k))
      else s
    case ReadInput(g) => if HasQuery(s, g) then OnChannel(s, g, C.Next) else s
    case ReturnInput(g) => if HasQuery(s, g) then OnChannel(s, g, C.Return) else s
    case Yield(g, m) => if At(s, g, Iterating) then YieldStep(lib, s, g, m) else s
    case Finish(g) => if At(s, g, Iterating) then AfterLoop(s, g) else s
    case Returned(g, text) =>
      if At(s, g, Breaking) then AfterLoop(s, g)
      else if At(s, g, Failing) then Caught(s, g, text)
      else s
    case Throw(g, text) => if g < |s.pumps| && Live(s.pumps[g]) then Caught(s, g, text) else s
  }

  /** What the environment and the pumps do to a session by themselves. */
  predicate Background(a: Action) {
    !(a.Send? || a.Control? || a.Resume? || a.CloseBegin?)
  }

  /** Every interleaving is a list of actions; an action that is not enabled changes nothing. */
  function Run(lib: Lib, sid: string, acts: seq<Action>): State {
    if acts == [] then Init(sid) else Step(lib, Run(lib, sid, acts[..|acts| - 1]), acts[|acts| - 1])
  }

  // ---------------------------------------------------------------------------------------------
  // What one step can do, concern by concern
  // ---------------------------------------------------------------------------------------------

  /** The events that need an open session: accepted requests, forwarded messages, closed notices. */
  predicate NeedsOpen(e: Event) {
    e.Sent? || e.Controlled? || (e.Emitted? && !e.notice.ErrorNotice?)
  }

  /** The events after which the session is closed. */
  predicate Shuts(e: Event) {
    e.CloseCalled? || (e.Emitted? && e.notice.ClosedNotice?)
  }

  function NewEvent(s: State, t: State): Option<Event> {
    if |t.log| == |s.log| + 1 then Some(t.log[|s.log|]) else None
  }

  /** The frames a step writes. */
  function Spoken(s: State, t: State): seq<Frame> {
    match NewEvent(s, t)
    case Some(Emitted(_, notice)) => [NoticeFrame(s.sid, notice)]
    case _ => []
  }

  ghost predicate LogMoves(s: State, t: State) {
    var e := NewEvent(s, t);
    if e.Some? then t.log == s.log + [e.value] else t.log == s.log
  }

  ghost predicate FlagMoves(s: State, t: State) {
    match NewEvent(s, t)
    case None => t.closed == s.closed
    case Some(e) =>
      && (NeedsOpen(e) ==> !s.closed)
      && t.closed == if e.Resumed? then false else if Shuts(e) then true else s.closed
  }

  /** Iterating to Breaking or Failing, and from any live phase to Ended. */
  predicate PumpMove(closed: bool, p: Pump, q: Pump) {
    || p == q
    || (p.Iterating? && (if closed then q.Breaking? else q.Failing?))
    || (Live(p) && q.Ended?)
  }

  ghost predicate PumpsMove(s: State, t: State) {
    var e := NewEvent(s, t);
    if e.Some? && (e.value.Resumed? || e.value.ResumeFailed?) then
      && e.value.g == |s.pumps|
      && t.pumps == s.pumps + [if e.value.Resumed? then Iterating else NoQuery]
      && t.current == if e.value.Resumed? then |s.pumps| else s.current
    else
      && |t.pumps| == |s.pumps| && t.current == s.current
      && (forall g :: 0 <= g < |s.pumps| ==> PumpMove(s.closed, s.pumps[g], t.pumps[g]))
      && (e.Some? && e.value.Emitted? ==>
            var g := e.value.g;
            && 0 <= g < |s.pumps|
            && (if e.value.notice.Message? then s.pumps[g].Iterating? && t.pumps[g].Iterating?
                else Live(s.pumps[g]) && t.pumps[g].Ended?)
            && (e.value.notice.ClosedNotice? ==> !s.pumps[g].Failing?))
  }

  /** A query's output grows by one message, which is forwarded exactly when its pump goes on iterating. */
  ghost predicate OutputMoves(s: State, t: State, g: int)
    requires 0 <= g < |s.yielded| <= |t.yielded| && |s.pumps| == |s.yielded| && |t.pumps| == |t.yielded|
  {
    var e := NewEvent(s, t);
    var before, after := s.yielded[g], t.yielded[g];
    if after == before then !(e.Some? && e.value.Emitted? && e.value.g == g && e.value.notice.Message?)
    else
      && s.pumps[g].Iterating?
      && |after| == |before| + 1 && after[..|before|] == before
      && e == if t.pumps[g].Iterating? then Some(Emitted(g, Message(after[|before|]))) else None
  }

  ghost predicate OutputsMove(s: State, t: State) {
    && |s.pumps| == |s.yielded| && |t.pumps| == |t.yielded|
    && |s.yielded| <= |t.yielded|
    && (forall g :: 0 <= g < |s.yielded| ==> OutputMoves(s, t, g))
    && (forall g :: |s.yielded| <= g < |t.yielded| ==> t.yielded[g] == [])
  }

  ghost predicate ChannelMoves(s: State, t: State, g: int)
    requires 0 <= g < |s.channels| <= |t.channels|
  {
    var e := NewEvent(s, t);
    var before, after := s.channels[g], t.channels[g];
    if e.Some? && e.value.Sent? && e.value.g == g then
      g == Input(s) && !before.closed && after == C.Step(before, C.Push(e.value.m))
    else after == before || after == C.Step(before, C.Next) || after == C.Step(before, C.Close)
  }

  ghost predicate ChannelsMove(s: State, t: State) {
    && |s.channels| <= |t.channels|
    && (forall g :: 0 <= g < |s.channels| ==> ChannelMoves(s, t, g))
    && (forall g :: |s.channels| <= g < |t.channels| ==> t.channels[g] == C.EMPTY)
    && (|s.channels| < |t.channels| ==> s.channels != [] ==> t.channels[Input(s)].closed)
    && (NewEvent(s, t).Some? && NewEvent(s, t).value.Sent? ==> NewEvent(s, t).value.g == Input(s))
  }

  ghost predicate ClosersMove(s: State, t: State) {
    match NewEvent(s, t)
    case Some(CloseCalled(k)) =>
      k == |s.closers| && t.closers == s.closers + [Closer(if s.closed then None else Some(s.current), false)]
    case Some(CloseResolved(k)) =>
      CanFinish(s, k) && t.closers == s.closers[k := s.closers[k].(resolved := true)]
    case _ => t.closers == s.closers
  }

  predicate PumpAction(a: Action) { a.Yield? || a.Finish? || a.Returned? || a.Throw? }

  lemma RequestLogs(lib: Lib, s: State, a: Action)
    requires !PumpAction(a)
    ensures LogMoves(s, Step(lib, s, a)) && FlagMoves(s, Step(lib, s, a))
  {
  }

  lemma PumpLogs(lib: Lib, s: State, a: Action)
    requires PumpAction(a)
    ensures LogMoves(s, Step(lib, s, a)) && FlagMoves(s, Step(lib, s, a))
  {
  }

  lemma StepLogs(lib: Lib, s: State, a: Action)
    ensures LogMoves(s, Step(lib, s, a)) && FlagMoves(s, Step(lib, s, a))
  {
    if PumpAction(a) { PumpLogs(lib, s, a); } else { RequestLogs(lib, s, a); }
  }

  lemma RequestPumps(lib: Lib, s: State, a: Action)
    requires !PumpAction(a) && |s.channels| == |s.pumps|
    ensures PumpsMove(s, Step(lib, s, a))
  {
  }

  lemma PumpPumps(lib: Lib, s: State, a: Action)
    requires PumpAction(a) && |s.channels| == |s.pumps|
    ensures PumpsMove(s, Step(lib, s, a))
  {
  }

  lemma StepPumps(lib: Lib, s: State, a: Action)
    requires |s.channels| == |s.pumps|
    ensures PumpsMove(s, Step(lib, s, a))
  {
    if PumpAction(a) { PumpPumps(lib, s, a); } else { RequestPumps(lib, s, a); }
  }

  lemma RequestOutputs(lib: Lib, s: State, a: Action)
    requires !PumpAction(a) && |s.channels| == |s.pumps| == |s.yielded|
    ensures OutputsMove(s, Step(lib, s, a))
  {
  }

  lemma PumpOutputs(lib: Lib, s: State, a: Action)
    requires PumpAction(a) && |s.channels| == |s.pumps| == |s.yielded|
    ensures OutputsMove(s, Step(lib, s, a))
  {
  }

  lemma StepOutputs(lib: Lib, s: State, a: Action)
    requires |s.channels| == |s.pumps| == |s.yielded|
    ensures OutputsMove(s, Step(lib, s, a))
  {
    if PumpAction(a) { PumpOutputs(lib, s, a); } else { RequestOutputs(lib, s, a); }
  }

  lemma SendChannels(s: State, content: Json, turnId: Option<Json>)
    ensures ChannelsMove(s, SendStep(s, content, turnId))
  {
  }

  lemma ResumeChannels(s: State, queryStarts: bool)
    ensures ChannelsMove(s, ResumeStep(s, queryStarts))
  {
  }

  lemma RequestChannels(lib: Lib, s: State, a: Action)
    requires !PumpAction(a)
    ensures ChannelsMove(s, Step(lib, s, a))
  {
    match a
    case Send(content, turnId) => SendChannels(s, content, turnId);
    case Resume(queryStarts) => ResumeChannels(s, queryStarts);
    case _ =>
  }

  lemma PumpChannels(lib: Lib, s: State, a: Action)
    requires PumpAction(a)
    ensures ChannelsMove(s, Step(lib, s, a))
  {
  }

  lemma StepChannels(lib: Lib, s: State, a: Action)
    ensures ChannelsMove(s, Step(lib, s, a))
  {
    if PumpAction(a) { PumpChannels(lib, s, a); } else { RequestChannels(lib, s, a); }
  }

  lemma StepClosers(lib: Lib, s: State, a: Action)
    ensures ClosersMove(s, Step(lib, s, a))
  {
  }

  // ---------------------------------------------------------------------------------------------
  // Only a resume reopens a session
  // ---------------------------------------------------------------------------------------------

  ghost predicate ResumedBetween(log: seq<Event>, i: int, j: int) {
    exists k :: i < k < j && 0 <= k < |log| && log[k].Resumed?
  }

  ghost predicate ReopenedOnlyByResume(log: seq<Event>) {
    forall i, j :: 0 <= i < j < |log| && Shuts(log[i]) && NeedsOpen(log[j]) ==> ResumedBetween(log, i, j)
  }

  /** While the session is open, every shutting event has a resume after it. */
  ghost predicate FlagMatchesLog(s: State) {
    forall i :: 0 <= i < |s.log| && Shuts(s.log[i]) && !s.closed ==> ResumedBetween(s.log, i, |s.log|)
  }

  lemma ResumedBetweenGrows(log: seq<Event>, e: Event, i: int, j: int)
    requires ResumedBetween(log, i, j)
    ensures ResumedBetween(log + [e], i, j)
    ensures j <= |log| ==> ResumedBetween(log + [e], i, |log| + 1)
  {
    var k :| i < k < j && 0 <= k < |log| && log[k].Resumed?;
    assert (log + [e])[k].Resumed?;
  }

  lemma FlagKept(s: State, t: State)
    requires FlagMatchesLog(s) && ReopenedOnlyByResume(s.log)
    requires LogMoves(s, t) && FlagMoves(s, t)
    ensures FlagMatchesLog(t) && ReopenedOnlyByResume(t.log)
  {
    if NewEvent(s, t).Some? {
      var n, e := |s.log|, NewEvent(s, t).value;
      forall i, j | 0 <= i < j < |t.log| && Shuts(t.log[i]) && NeedsOpen(t.log[j])
        ensures ResumedBetween(t.log, i, j)
      {
        assert ResumedBetween(s.log, i, j);
        ResumedBetweenGrows(s.log, e, i, j);
      }
      forall i | 0 <= i < |t.log| && Shuts(t.log[i]) && !t.closed
        ensures ResumedBetween(t.log, i, |t.log|)
      {
        if e.Resumed? {
          assert t.log[n].Resumed?;
        } else {
          ResumedBetweenGrows(s.log, e, i, n);
        }
      }
    }
  }

  // ---------------------------------------------------------------------------------------------
  // What each pump says, and when it stops
  // ---------------------------------------------------------------------------------------------

  /** Of one pump's notices, only the last can be session.closed or session.error. */
  ghost predicate LastWordIsLast(log: seq<Event>) {
    forall i, j :: 0 <= i < j < |log| && log[i].Emitted? && log[j].Emitted? && log[i].g == log[j].g ==>
      log[i].notice.Message?
  }

  /** A pump that has said its last word has ended; only pumps speak. */
  ghost predicate PumpsMatchLog(s: State) {
    && HasQuery(s, s.current)
    && (forall g :: s.current < g < |s.pumps| ==> s.pumps[g].NoQuery?)
    && (forall i :: 0 <= i < |s.log| && s.log[i].Emitted? ==>
          && HasQuery(s, s.log[i].g)
          && (!s.log[i].notice.Message? ==> s.pumps[s.log[i].g].Ended?))
  }

  lemma PumpsKept(s: State, t: State)
    requires LastWordIsLast(s.log) && PumpsMatchLog(s)
    requires LogMoves(s, t) && PumpsMove(s, t)
    ensures LastWordIsLast(t.log) && PumpsMatchLog(t)
  {
  }

  // ---------------------------------------------------------------------------------------------
  // Generations are isolated
  // ---------------------------------------------------------------------------------------------

  /** The messages accepted for generation g, in order. */
  function SentTo(log: seq<Event>, g: int): seq<Json> {
    if log == [] then [] else
    var e := log[|log| - 1];
    SentTo(log[..|log| - 1], g) + if e.Sent? && e.g == g then [e.m] else []
  }

  /** The messages forwarded by the pump of generation g, in order. */
  function Forwarded(log: seq<Event>, g: int): seq<Json> {
    if log == [] then [] else
    var e := log[|log| - 1];
    Forwarded(log[..|log| - 1], g) + if e.Emitted? && e.g == g && e.notice.Message? then [e.notice.m] else []
  }

  /** Each channel is the closed form of what was accepted for its own generation; all but the last are closed. */
  ghost predicate Isolated(s: State) {
    && s.channels != []
    && (forall g :: 0 <= g < |s.channels| - 1 ==> s.channels[g].closed)
    && (forall g :: 0 <= g < |s.channels| ==>
          C.Holds(s.channels[g], SentTo(s.log, g)))
    && (forall g :: |s.channels| <= g ==> SentTo(s.log, g) == [])
  }

  /** Each pump forwards its own query's output in order, and loses at most the message it stopped at. */
  ghost predicate ForwardsPrefix(s: State) {
    && |s.pumps| == |s.yielded|
    && (forall g :: 0 <= g < |s.yielded| ==>
          && Forwarded(s.log, g) <= s.yielded[g]
          && |s.yielded[g]| <= |Forwarded(s.log, g)| + 1
          && (s.pumps[g].Iterating? ==> Forwarded(s.log, g) == s.yielded[g]))
    && (forall g :: g < 0 || |s.yielded| <= g ==> Forwarded(s.log, g) == [])
  }

  lemma OneEvent(s: State, t: State, g: int)
    requires LogMoves(s, t)
    ensures var e := NewEvent(s, t);
      && SentTo(t.log, g) == SentTo(s.log, g) + (if e.Some? && e.value.Sent? && e.value.g == g then [e.value.m] else [])
      && Forwarded(t.log, g) == Forwarded(s.log, g) +
           (if e.Some? && e.value.Emitted? && e.value.g == g && e.value.notice.Message? then [e.value.notice.m] else [])
  {
    if NewEvent(s, t).Some? {
      assert t.log[..|t.log| - 1] == s.log;
    }
  }

  lemma ChannelKept(s: State, t: State, g: int)
    requires Isolated(s) && LogMoves(s, t) && ChannelsMove(s, t)
    requires 0 <= g < |s.channels|
    ensures C.Holds(t.channels[g], SentTo(t.log, g))
    ensures s.channels[g].closed ==> t.channels[g].closed
  {
    var c, pushed := s.channels[g], SentTo(s.log, g);
    OneEvent(s, t, g);
    assert ChannelMoves(s, t, g);
    var e := NewEvent(s, t);
    if e.Some? && e.value.Sent? && e.value.g == g {
      C.HoldsKept(c, pushed, C.Push(e.value.m));
    } else {
      assert SentTo(t.log, g) == pushed;
      C.HoldsKept(c, pushed, C.Next);
      C.HoldsKept(c, pushed, C.Close);
    }
  }

  lemma IsolationKept(s: State, t: State)
    requires Isolated(s) && LogMoves(s, t) && ChannelsMove(s, t)
    requires |t.channels| <= |s.channels| + 1
    ensures Isolated(t)
  {
    forall g: int ensures |s.channels| <= g ==> SentTo(t.log, g) == [] {
      OneEvent(s, t, g);
      if |s.channels| <= g && NewEvent(s, t).Some? && NewEvent(s, t).value.Sent? {
        assert ChannelMoves(s, t, Input(s));
      }
    }
    forall g | 0 <= g < |s.channels|
      ensures C.Holds(t.channels[g], SentTo(t.log, g))
      ensures s.channels[g].closed ==> t.channels[g].closed
    {
      ChannelKept(s, t, g);
    }
    assert C.Holds(C.EMPTY, []);
  }

  lemma OutputsKept(s: State, t: State)
    requires ForwardsPrefix(s) && LogMoves(s, t) && PumpsMove(s, t) && OutputsMove(s, t)
    ensures ForwardsPrefix(t)
  {
    forall g ensures
      if 0 <= g < |t.yielded| then
        && Forwarded(t.log, g) <= t.yielded[g]
        && |t.yielded[g]| <= |Forwarded(t.log, g)| + 1
        && (t.pumps[g].Iterating? ==> Forwarded(t.log, g) == t.yielded[g])
      else Forwarded(t.log, g) == []
    {
      OneEvent(s, t, g);
      if 0 <= g < |s.yielded| {
        assert OutputMoves(s, t, g);
      }
    }
  }

  /** A close() call waits for a pump there is, and resolves after it has ended. */
  ghost predicate ClosersWait(s: State) {
    forall k :: 0 <= k < |s.closers| && s.closers[k].waitsFor.Some? ==>
      && HasQuery(s, s.closers[k].waitsFor.value)
      && (s.closers[k].resolved ==> s.pumps[s.closers[k].waitsFor.value].Ended?)
  }

  lemma ClosersKept(s: State, t: State)
    requires ClosersWait(s) && PumpsMatchLog(s)
    requires PumpsMove(s, t) && ClosersMove(s, t)
    ensures ClosersWait(t)
  {
    forall k | 0 <= k < |t.closers| && t.closers[k].waitsFor.Some?
      ensures HasQuery(t, t.closers[k].waitsFor.value)
      ensures t.closers[k].resolved ==> t.pumps[t.closers[k].waitsFor.value].Ended?
    {
      assert HasQuery(s, t.closers[k].waitsFor.value);
    }
  }

  // ---------------------------------------------------------------------------------------------
  // All of it, in every run
  // ---------------------------------------------------------------------------------------------

  ghost predicate Invariant(s: State) {
    && FlagMatchesLog(s) && ReopenedOnlyByResume(s.log)
    && LastWordIsLast(s.log) && PumpsMatchLog(s)
    && |s.channels| == |s.pumps|
    && Isolated(s) && ForwardsPrefix(s) && ClosersWait(s)
  }

  ghost predicate Moves(s: State, t: State) {
    && LogMoves(s, t) && FlagMoves(s, t) && PumpsMove(s, t)
    && OutputsMove(s, t) && ChannelsMove(s, t) && ClosersMove(s, t)
    && |t.channels| == |t.pumps| <= |s.channels| + 1
  }

  lemma StepMoves(lib: Lib, s: State, a: Action)
    requires |s.channels| == |s.pumps| == |s.yielded|
    ensures Moves(s, Step(lib, s, a))
  {
    StepLogs(lib, s, a);
    StepPumps(lib, s, a);
    StepOutputs(lib, s, a);
    StepChannels(lib, s, a);
    StepClosers(lib, s, a);
    StepLengths(lib, s, a);
  }

  lemma StepLengths(lib: Lib, s: State, a: Action)
    requires |s.channels| == |s.pumps|
    ensures var t := Step(lib, s, a); |t.channels| == |t.pumps| <= |s.channels| + 1
  {
  }

  lemma MovesKeepInvariant(s: State, t: State)
    requires Invariant(s) && Moves(s, t)
    ensures Invariant(t)
  {
    FlagKept(s, t);
    PumpsKept(s, t);
    OutputsKept(s, t);
    IsolationKept(s, t);
    ClosersKept(s, t);
  }

  lemma StepKeepsInvariant(lib: Lib, s: State, a: Action)
    requires Invariant(s)
    ensures Invariant(Step(lib, s, a))
  {
    StepMoves(lib, s, a);
    MovesKeepInvariant(s, Step(lib, s, a));
  }

  lemma {:induction false} EveryRun(lib: Lib, sid: string, acts: seq<Action>)
    ensures Invariant(Run(lib, sid, acts))
  {
    if acts == [] {
      assert C.Holds(C.EMPTY, []);
    } else {
      EveryRun(lib, sid, acts[..|acts| - 1]);
      StepKeepsInvariant(lib, Run(lib, sid, acts[..|acts| - 1]), acts[|acts| - 1]);
    }
  }

  lemma PairOfEvents(log: seq<Event>, i: nat, j: nat)
    requires ReopenedOnlyByResume(log) && LastWordIsLast(log) && i < j < |log|
    ensures Shuts(log[i]) && NeedsOpen(log[j]) ==> exists k :: i < k < j && log[k].Resumed?
    ensures log[i].Emitted? && log[j].Emitted? && log[i].g == log[j].g ==> log[i].notice.Message?
  {
    if Shuts(log[i]) && NeedsOpen(log[j]) {
      assert ResumedBetween(log, i, j);
    }
  }

  /**
   In every run, overlapping pumps included: after a close() call or a session.closed notice, no
   message is accepted or forwarded, no control succeeds and no session.closed is emitted until a
   resume; so between two session.closed notices there is a resume. And each pump emits messages,
   then at most one of session.closed or session.error, then nothing.
   */
  lemma NotificationDiscipline(lib: Lib, sid: string, acts: seq<Action>, log: seq<Event>, i: nat, j: nat)
    requires log == Run(lib, sid, acts).log
    requires i < j < |log|
    ensures Shuts(log[i]) && NeedsOpen(log[j]) ==> exists k :: i < k < j && log[k].Resumed?
    ensures log[i].Emitted? && log[j].Emitted? && log[i].g == log[j].g ==> log[i].notice.Message?
  {
    EveryRun(lib, sid, acts);
    PairOfEvents(log, i, j);
  }

  /**
   In every run, overlapping pumps included: the i-th read of a generation's query holds the i-th
   message accepted for that generation, and what its pump has forwarded is a prefix of that
   query's output, short of it by at most one message.
   */
  lemma GenerationIsolation(lib: Lib, sid: string, acts: seq<Action>, g: nat, i: nat)
    ensures var s := Run(lib, sid, acts);
      g < |s.channels| ==>
        && (i < |s.channels[g].results| ==>
              s.channels[g].results[i] == C.Held(SentTo(s.log, g), s.channels[g].closed, i))
        && (g < |s.channels| - 1 ==> s.channels[g].closed)
        && g < |s.yielded|
        && Forwarded(s.log, g) <= s.yielded[g]
        && |s.yielded[g]| <= |Forwarded(s.log, g)| + 1
  {
    EveryRun(lib, sid, acts);
  }

  // ---------------------------------------------------------------------------------------------
  // A session that is never resumed
  // ---------------------------------------------------------------------------------------------

  ghost predicate NeverResumed(log: seq<Event>) {
    forall i :: 0 <= i < |log| ==> !log[i].Resumed?
  }

  /** With one pump only, the first close() is the one that waits for it. */
  ghost predicate FirstCloseWaits(s: State) {
    NeverResumed(s.log) ==>
      && s.current == 0 && s.pumps != []
      && (s.closed && s.closers == [] ==> s.pumps[0].Ended?)
      && (s.closers != [] ==> s.closers[0].waitsFor == Some(0) || s.pumps[0].Ended?)
      && (s.closers != [] && s.closers[0].resolved ==> s.pumps[0].Ended?)
      && (forall i :: 0 <= i < |s.log| && s.log[i] == CloseResolved(0) ==> s.pumps[0].Ended?)
      && (forall i, j :: 0 <= i < j < |s.log| && s.log[i] == CloseResolved(0) ==> !s.log[j].Emitted?)
  }

  lemma FirstCloseKept(s: State, t: State)
    requires Invariant(s) && FirstCloseWaits(s) && Moves(s, t)
    ensures FirstCloseWaits(t)
  {
    if NeverResumed(t.log) {
      assert NeverResumed(s.log) by {
        forall i | 0 <= i < |s.log| ensures !s.log[i].Resumed? {
          assert t.log[i] == s.log[i];
        }
      }
      assert NewEvent(s, t).Some? ==> t.log[|s.log|] == NewEvent(s, t).value;
    }
  }

  lemma {:induction false} FirstCloseWaitsInRuns(lib: Lib, sid: string, acts: seq<Action>)
    ensures FirstCloseWaits(Run(lib, sid, acts))
  {
    if acts != [] {
      var pre := acts[..|acts| - 1];
      var s := Run(lib, sid, pre);
      FirstCloseWaitsInRuns(lib, sid, pre);
      EveryRun(lib, sid, pre);
      StepMoves(lib, s, acts[|acts| - 1]);
      FirstCloseKept(s, Step(lib, s, acts[|acts| - 1]));
    }
  }

  /**
   For a session never resumed: once close() is called no message is accepted or forwarded, no
   control succeeds and no session.closed is emitted; and once the first close() resolves nothing
   is emitted at all.
   */
  lemma FirstCloseIsFinal(lib: Lib, sid: string, acts: seq<Action>)
    ensures var log := Run(lib, sid, acts).log;
      NeverResumed(log) ==> forall i, j :: 0 <= i < j < |log| ==>
        && (log[i].CloseCalled? ==> !NeedsOpen(log[j]))
        && (log[i] == CloseResolved(0) ==> !log[j].Emitted?)
  {
    FirstCloseWaitsInRuns(lib, sid, acts);
    EveryRun(lib, sid, acts);
    var s := Run(lib, sid, acts);
    forall i, j | 0 <= i < j < |s.log| && NeverResumed(s.log)
      ensures s.log[i].CloseCalled? ==> !NeedsOpen(s.log[j])
      ensures s.log[i] == CloseResolved(0) ==> !s.log[j].Emitted?
    {
      PairAfterClose(s, i, j);
    }
  }

  lemma PairAfterClose(s: State, i: nat, j: nat)
    requires FirstCloseWaits(s) && ReopenedOnlyByResume(s.log) && NeverResumed(s.log) && i < j < |s.log|
    ensures s.log[i].CloseCalled? ==> !NeedsOpen(s.log[j])
    ensures s.log[i] == CloseResolved(0) ==> !s.log[j].Emitted?
  {
    assert !ResumedBetween(s.log, i, j);
  }

  // ---------------------------------------------------------------------------------------------
  // Runs where every resume finds all earlier pumps finished
  // ---------------------------------------------------------------------------------------------

  ghost predicate NoneLive(s: State) {
    forall g :: 0 <= g < |s.pumps| ==> !Live(s.pumps[g])
  }

  ghost predicate Serial(lib: Lib, sid: string, acts: seq<Action>) {
    forall j :: 0 <= j < |acts| && acts[j].Resume? ==> NoneLive(Run(lib, sid, acts[..j]))
  }

  /** close() has been called since the current pump started. */
  ghost predicate CloseSinceStart(log: seq<Event>) {
    exists i :: 0 <= i < |log| && log[i].CloseCalled? && !ResumedBetween(log, i, |log|)
  }

  ghost predicate OnePump(s: State) {
    && 0 <= s.current < |s.pumps|
    && (forall g :: 0 <= g < |s.pumps| && Live(s.pumps[g]) ==> g == s.current)
    && (Live(s.pumps[s.current]) ==> (s.closed <==> CloseSinceStart(s.log)))
    && (s.pumps[s.current].Breaking? ==> s.closed)
  }

  lemma CloseSinceStartMoves(s: State, t: State)
    requires LogMoves(s, t)
    ensures CloseSinceStart(t.log) <==>
      match NewEvent(s, t)
      case Some(Resumed(_)) => false
      case Some(CloseCalled(_)) => true
      case _ => CloseSinceStart(s.log)
  {
    if NewEvent(s, t).Some? {
      var n, e := |s.log|, NewEvent(s, t).value;
      assert t.log[n] == e;
      assert forall i :: 0 <= i < n ==> t.log[i] == s.log[i];
      forall i | 0 <= i < n
        ensures ResumedBetween(t.log, i, n + 1) <==> ResumedBetween(s.log, i, n) || e.Resumed?
      {
        if ResumedBetween(s.log, i, n) { ResumedBetweenGrows(s.log, e, i, n); }
      }
      if CloseSinceStart(s.log) && !e.Resumed? {
        var i :| 0 <= i < n && s.log[i].CloseCalled? && !ResumedBetween(s.log, i, n);
        assert t.log[i].CloseCalled? && !ResumedBetween(t.log, i, n + 1);
      }
      if e.CloseCalled? {
        assert !ResumedBetween(t.log, n, n + 1);
      }
    }
  }

  lemma OnePumpKept(s: State, t: State)
    requires OnePump(s) && Moves(s, t)
    requires NewEvent(s, t).Some? && NewEvent(s, t).value.Resumed? ==> NoneLive(s)
    ensures OnePump(t)
  {
    CloseSinceStartMoves(s, t);
  }

  lemma {:induction false} SerialRuns(lib: Lib, sid: string, acts: seq<Action>)
    requires Serial(lib, sid, acts)
    ensures OnePump(Run(lib, sid, acts))
  {
    if acts == [] {
      assert !CloseSinceStart([Created]);
    } else {
      var n := |acts| - 1;
      var pre, a := acts[..n], acts[n];
      assert forall j :: 0 <= j < n ==> pre[..j] == acts[..j];
      SerialRuns(lib, sid, pre);
      EveryRun(lib, sid, pre);
      var s := Run(lib, sid, pre);
      StepMoves(lib, s, a);
      ResumedByResume(lib, s, a);
      OnePumpKept(s, Step(lib, s, a));
    }
  }

  lemma ResumedByResume(lib: Lib, s: State, a: Action)
    ensures NewEvent(s, Step(lib, s, a)).Some? && NewEvent(s, Step(lib, s, a)).value.Resumed? ==> a == Resume(true)
  {
  }

  lemma ClosedNoticeBy(lib: Lib, s: State, a: Action, g: int)
    ensures NewEvent(s, Step(lib, s, a)) == Some(Emitted(g, ClosedNotice)) <==>
      && !s.closed && 0 <= g < |s.pumps|
      && ((a == Finish(g) && s.pumps[g].Iterating?) || (a.Returned? && a.g == g && s.pumps[g].Breaking?))
  {
  }

  /**
   In such runs at most one pump is live, the current one; and session.closed is emitted exactly
   when the current query ends normally with no close() called since its pump started.
   */
  lemma ClosedNoticeExactlyWhen(lib: Lib, sid: string, acts: seq<Action>, a: Action, g: nat)
    requires Serial(lib, sid, acts)
    ensures var s := Run(lib, sid, acts);
      && (g < |s.pumps| && Live(s.pumps[g]) ==> g == s.current)
      && (NewEvent(s, Step(lib, s, a)) == Some(Emitted(g, ClosedNotice)) <==>
            && g < |s.pumps| && g == s.current
            && a == Finish(g) && s.pumps[g].Iterating?
            && !CloseSinceStart(s.log))
  {
    SerialRuns(lib, sid, acts);
    ClosedNoticeBy(lib, Run(lib, sid, acts), a, g);
  }

  // ---------------------------------------------------------------------------------------------
  // When does an open session stay open?
  // ---------------------------------------------------------------------------------------------

  /** Nobody closes or resumes the session, and its current query does not end normally. */
  predicate Undisturbed(a: Action, current: int) {
    match a
    case CloseBegin => false
    case Resume(_) => false
    case Finish(g) => g != current
    case Returned(g, _) => g != current
    case _ => true
  }

  /** A pump other than the current one that can still get to the end of its loop. */
  predicate OlderPumpAtLarge(s: State) {
    exists g :: 0 <= g < |s.pumps| && g != s.current && (s.pumps[g].Iterating? || s.pumps[g].Breaking?)
  }

  lemma UndisturbedStep(lib: Lib, s: State, a: Action)
    requires !s.closed && !OlderPumpAtLarge(s) && Undisturbed(a, s.current)
    requires |s.channels| == |s.pumps| == |s.yielded|
    ensures var t := Step(lib, s, a);
      !t.closed && !OlderPumpAtLarge(t) && t.current == s.current
  {
    StepLogs(lib, s, a);
    StepPumps(lib, s, a);
    var t := Step(lib, s, a);
    if NewEvent(s, t).Some? && NewEvent(s, t).value.Emitted? {
      ClosedNoticeBy(lib, s, a, NewEvent(s, t).value.g);
    }
    ShutsBy(lib, s, a);
    ResumedByResume(lib, s, a);
  }

  lemma ShutsBy(lib: Lib, s: State, a: Action)
    ensures var e := NewEvent(s, Step(lib, s, a)); e.Some? && e.value.CloseCalled? ==> a.CloseBegin?
    ensures var e := NewEvent(s, Step(lib, s, a)); e.Some? && e.value.ResumeFailed? ==> a.Resume?
  {
  }

  lemma {:induction false} UndisturbedRun(lib: Lib, sid: string, acts: seq<Action>, more: seq<Action>)
    requires !Run(lib, sid, acts).closed && !OlderPumpAtLarge(Run(lib, sid, acts))
    requires forall i :: 0 <= i < |more| ==> Undisturbed(more[i], Run(lib, sid, acts).current)
    ensures var t := Run(lib, sid, acts + more);
      !t.closed && !OlderPumpAtLarge(t) && t.current == Run(lib, sid, acts).current
  {
    if more == [] {
      assert acts + more == acts;
    } else {
      var m := |more| - 1;
      UndisturbedRun(lib, sid, acts, more[..m]);
      assert (acts + more)[..|acts + more| - 1] == acts + more[..m];
      EveryRun(lib, sid, acts + more[..m]);
      UndisturbedStep(lib, Run(lib, sid, acts + more[..m]), more[m]);
    }
  }

  /** An older pump at large can close the session by itself. */
  lemma OlderPumpCanClose(lib: Lib, sid: string, acts: seq<Action>) returns (a: Action)
    requires !Run(lib, sid, acts).closed && OlderPumpAtLarge(Run(lib, sid, acts))
    ensures Undisturbed(a, Run(lib, sid, acts).current)
    ensures Run(lib, sid, acts + [a]).closed
  {
    var s := Run(lib, sid, acts);
    var g :| 0 <= g < |s.pumps| && g != s.current && (s.pumps[g].Iterating? || s.pumps[g].Breaking?);
    a := if s.pumps[g].Iterating? then Finish(g) else Returned(g, "");
    assert (acts + [a])[..|acts + [a]| - 1] == acts;
    ClosedNoticeBy(lib, s, a, g);
    StepLogs(lib, s, a);
  }

  /**
   An open session stays open through every undisturbed continuation if and only if no pump other
   than the current one is iterating or breaking off: resume must wait for those.
   */
  lemma StaysOpenIffNoOlderPump(lib: Lib, sid: string, acts: seq<Action>)
    requires !Run(lib, sid, acts).closed
    ensures !OlderPumpAtLarge(Run(lib, sid, acts)) <==>
      forall more: seq<Action> ::
        (forall i :: 0 <= i < |more| ==> Undisturbed(more[i], Run(lib, sid, acts).current))
        ==> !Run(lib, sid, acts + more).closed
  {
    var s := Run(lib, sid, acts);
    if OlderPumpAtLarge(s) {
      var a := OlderPumpCanClose(lib, sid, acts);
      assert forall i :: 0 <= i < |[a]| ==> Undisturbed([a][i], s.current);
    } else {
      forall more: seq<Action> | forall i :: 0 <= i < |more| ==> Undisturbed(more[i], s.current)
        ensures !Run(lib, sid, acts + more).closed
      {
        UndisturbedRun(lib, sid, acts, more);
      }
    }
  }

  /** A resume that does not wait: the old pump's end closes the resumed session under a live query. */
  lemma OldPumpClosesResumedSession(lib: Lib, sid: string)
    ensures var s := Run(lib, sid, [Resume(true), Finish(0)]);
      && s.closed && s.current == 1 && s.pumps == [Ended, Iterating]
      && s.log == [Created, Resumed(1), Emitted(0, ClosedNotice)]
  {
    var a := [Resume(true), Finish(0)];
    assert a[..1] == [Resume(true)] && a[..1][..0] == [];
    assert Run(lib, sid, []) == Init(sid);
    assert Run(lib, sid, a[..1]) == Step(lib, Init(sid), Resume(true));
  }

  // ---------------------------------------------------------------------------------------------
  // What does a close() leave behind?
  // ---------------------------------------------------------------------------------------------

  predicate Resolved(s: State, k: nat) { k < |s.closers| && s.closers[k].resolved }

  /** Shut, with no pump left to say anything. */
  ghost predicate Quiet(s: State) { s.closed && NoneLive(s) }

  /** The session is shut, and no pump runs but the one that this close() call waits for. */
  ghost predicate OnlyAwaited(s: State, k: nat)
    requires k < |s.closers|
  {
    s.closed && forall g: nat :: g < |s.pumps| && Live(s.pumps[g]) ==> s.closers[k].waitsFor == Some(g)
  }

  lemma OnlyAwaitedKept(s: State, t: State, k: nat)
    requires Moves(s, t) && k < |s.closers| && OnlyAwaited(s, k)
    requires NewEvent(s, t).Some? ==> !NewEvent(s, t).value.Resumed?
    ensures k < |t.closers| && OnlyAwaited(t, k)
  {
    assert t.closers[k].waitsFor == s.closers[k].waitsFor;
    forall g: nat | g < |t.pumps| && Live(t.pumps[g]) ensures g < |s.pumps| && Live(s.pumps[g]) {
    }
  }

  lemma QuietOnceResolved(s: State, k: nat)
    requires Invariant(s) && k < |s.closers| && OnlyAwaited(s, k)
    ensures Resolved(s, k) ==> Quiet(s)
  {
  }

  /** The pump a close() call awaits, or one there is not. */
  function PumpOf(s: State, k: nat): nat {
    if k < |s.closers| && s.closers[k].waitsFor.Some? then s.closers[k].waitsFor.value else |s.pumps|
  }

  /** The environment can always let a close() call resolve: its pump may throw. */
  lemma CloseCanResolve(lib: Lib, s: State, k: nat)
    requires ClosersWait(s) && k < |s.closers|
    ensures var t := Step(lib, s, Throw(PumpOf(s, k), ""));
      var u := Step(lib, t, CloseFinish(k));
      && Resolved(u, k) && u.closed == s.closed && |u.pumps| == |s.pumps|
      && forall g :: 0 <= g < |s.pumps| && g != PumpOf(s, k) ==> u.pumps[g] == s.pumps[g]
  {
    var c := s.closers[k];
    var t := Step(lib, s, Throw(PumpOf(s, k), ""));
    if c.waitsFor.Some? {
      assert HasQuery(s, c.waitsFor.value);
      assert t.pumps[c.waitsFor.value].Ended?;
    }
    assert t.closers == s.closers && t.closed == s.closed;
  }

  lemma {:induction false} OnlyAwaitedRun(lib: Lib, sid: string, acts: seq<Action>, more: seq<Action>, k: nat)
    requires k < |Run(lib, sid, acts).closers| && OnlyAwaited(Run(lib, sid, acts), k)
    requires forall i :: 0 <= i < |more| ==> more[i] != Resume(true)
    ensures var t := Run(lib, sid, acts + more); k < |t.closers| && OnlyAwaited(t, k)
  {
    if more == [] {
      assert acts + more == acts;
    } else {
      var m := |more| - 1;
      OnlyAwaitedRun(lib, sid, acts, more[..m], k);
      assert (acts + more)[..|acts + more| - 1] == acts + more[..m];
      var s := Run(lib, sid, acts + more[..m]);
      EveryRun(lib, sid, acts + more[..m]);
      StepMoves(lib, s, more[m]);
      ResumedByResume(lib, s, more[m]);
      OnlyAwaitedKept(s, Step(lib, s, more[m]), k);
    }
  }

  /** Letting the close() call resolve at once shows what it did not wait for. */
  lemma EarlyResolution(lib: Lib, sid: string, acts: seq<Action>, k: nat) returns (more: seq<Action>)
    requires k < |Run(lib, sid, acts).closers| && !OnlyAwaited(Run(lib, sid, acts), k)
    ensures forall i :: 0 <= i < |more| ==> more[i] != Resume(true)
    ensures Resolved(Run(lib, sid, acts + more), k) && !Quiet(Run(lib, sid, acts + more))
  {
    var s := Run(lib, sid, acts);
    EveryRun(lib, sid, acts);
    more := Releasing(s, k);
    TwoMore(lib, sid, acts, more);
    CloseCanResolve(lib, s, k);
    StillLoud(s, Run(lib, sid, acts + more), k);
  }

  function Releasing(s: State, k: nat): (r: seq<Action>)
    ensures |r| == 2 && r[0] != Resume(true) && r[1] != Resume(true)
  {
    [Throw(PumpOf(s, k), ""), CloseFinish(k)]
  }

  lemma TwoMore(lib: Lib, sid: string, acts: seq<Action>, more: seq<Action>)
    requires |more| == 2
    ensures Run(lib, sid, acts + more) == Step(lib, Step(lib, Run(lib, sid, acts), more[0]), more[1])
  {
    assert acts + more == acts + [more[0]] + [more[1]];
    Snoc(lib, sid, acts, more[0]);
    Snoc(lib, sid, acts + [more[0]], more[1]);
  }

  lemma Snoc(lib: Lib, sid: string, acts: seq<Action>, a: Action)
    ensures Run(lib, sid, acts + [a]) == Step(lib, Run(lib, sid, acts), a)
  {
    assert (acts + [a])[..|acts + [a]| - 1] == acts;
  }

  lemma StillLoud(s: State, u: State, k: nat)
    requires k < |s.closers| && !OnlyAwaited(s, k)
    requires u.closed == s.closed && |u.pumps| == |s.pumps|
    requires forall g :: 0 <= g < |s.pumps| && g != PumpOf(s, k) ==> u.pumps[g] == s.pumps[g]
    ensures !Quiet(u)
  {
    if s.closed {
      var g: nat :| g < |s.pumps| && Live(s.pumps[g]) && s.closers[k].waitsFor != Some(g);
      assert Live(u.pumps[g]);
    }
  }

  /**
   A close() call is sure to leave the session shut with no pump running, whatever happens until it
   resolves short of a resume, if and only if the session is shut and no pump runs but the one the
   call waits for: a resume in between, or a pump from before an earlier resume, defeats it.
   */
  lemma CloseLeavesQuietIff(lib: Lib, sid: string, acts: seq<Action>, k: nat)
    requires k < |Run(lib, sid, acts).closers|
    ensures OnlyAwaited(Run(lib, sid, acts), k) <==>
      forall more: seq<Action> :: (forall i :: 0 <= i < |more| ==> more[i] != Resume(true)) ==>
        (Resolved(Run(lib, sid, acts + more), k) ==> Quiet(Run(lib, sid, acts + more)))
  {
    if OnlyAwaited(Run(lib, sid, acts), k) {
      forall more: seq<Action> |
          (forall i :: 0 <= i < |more| ==> more[i] != Resume(true)) && Resolved(Run(lib, sid, acts + more), k)
        ensures Quiet(Run(lib, sid, acts + more))
      {
        OnlyAwaitedRun(lib, sid, acts, more, k);
        EveryRun(lib, sid, acts + more);
        QuietOnceResolved(Run(lib, sid, acts + more), k);
      }
    } else {
      var more := EarlyResolution(lib, sid, acts, k);
    }
  }

  /** A resume while close() waits: the old pump fails, close() resolves, and the session is open. */
  lemma ResumedWhileClosing(lib: Lib, sid: string)
    ensures var a := Step(lib, Init(sid), CloseBegin);
      var b := Step(lib, a, Resume(true));
      var c := Step(lib, b, Throw(0, ""));
      var d := Step(lib, c, CloseFinish(0));
      && |a.closers| == 1
      && !d.closed && d.pumps == [Ended, Iterating] && Resolved(d, 0)
  {
  }

  // ---------------------------------------------------------------------------------------------
  // For the dispatcher
  // ---------------------------------------------------------------------------------------------

  lemma ResolvedStays(lib: Lib, s: State, a: Action)
    ensures var t := Step(lib, s, a);
      && |s.closers| <= |t.closers|
      && forall k :: 0 <= k < |s.closers| ==>
           t.closers[k].waitsFor == s.closers[k].waitsFor && (s.closers[k].resolved ==> t.closers[k].resolved)
  {
    StepClosers(lib, s, a);
  }

  lemma StepKeepsId(lib: Lib, s: State, a: Action)
    ensures Step(lib, s, a).sid == s.sid
  {
  }

  lemma CloseBeginAddsCloser(lib: Lib, s: State)
    ensures |Step(lib, s, CloseBegin).closers| == |s.closers| + 1
  {
  }

  /** A state that some run of the session leads to. */
  ghost predicate Reachable(lib: Lib, s: State) {
    exists acts :: s == Run(lib, s.sid, acts)
  }

  lemma ReachableInvariant(lib: Lib, s: State)
    requires Reachable(lib, s)
    ensures Invariant(s)
  {
    var acts :| s == Run(lib, s.sid, acts);
    EveryRun(lib, s.sid, acts);
  }

  lemma ReachableStep(lib: Lib, s: State, a: Action)
    requires Reachable(lib, s)
    ensures Reachable(lib, Step(lib, s, a))
  {
    var acts :| s == Run(lib, s.sid, acts);
    StepKeepsId(lib, s, a);
    assert (acts + [a])[..|acts + [a]| - 1] == acts;
    assert Step(lib, s, a) == Run(lib, s.sid, acts + [a]);
  }

  lemma ReachableInit(lib: Lib, sid: string)
    ensures Reachable(lib, Init(sid))
  {
    assert Init(sid) == Run(lib, sid, []);
  }

  /** A session whose first close() has resolved, never resumed, has no pump left. */
  lemma FirstCloseLeavesNone(lib: Lib, s: State)
    requires Reachable(lib, s) && NeverResumed(s.log) && Resolved(s, 0)
    ensures NoneLive(s)
  {
    var acts :| s == Run(lib, s.sid, acts);
    FirstCloseWaitsInRuns(lib, s.sid, acts);
    EveryRun(lib, s.sid, acts);
  }

  /** A session with no pump left says nothing, and gets a pump only by a resume. */
  lemma NoneLiveStep(lib: Lib, s: State, a: Action)
    requires Invariant(s) && NoneLive(s)
    ensures Spoken(s, Step(lib, s, a)) == []
    ensures NeverResumed(Step(lib, s, a).log) || !a.Resume? ==> NoneLive(Step(lib, s, a))
  {
    StepMoves(lib, s, a);
    ResumedByResume(lib, s, a);
    var t := Step(lib, s, a);
    assert NewEvent(s, t).Some? ==> t.log[|s.log|] == NewEvent(s, t).value;
  }

  /** A live pump can speak once more: it may fail. */
  lemma LivePumpSpeaks(lib: Lib, s: State, g: nat)
    requires g < |s.pumps| && Live(s.pumps[g])
    ensures Spoken(s, Step(lib, s, Throw(g, ""))) != []
  {
    var t := Step(lib, s, Throw(g, ""));
    assert t.log == s.log + [Emitted(g, ErrorNotice(""))];
  }

  lemma NeverResumedBefore(lib: Lib, s: State, a: Action)
    requires NeverResumed(Step(lib, s, a).log)
    ensures NeverResumed(s.log)
  {
    StepLogs(lib, s, a);
    var t := Step(lib, s, a);
    forall i | 0 <= i < |s.log| ensures !s.log[i].Resumed? {
      assert t.log[i] == s.log[i];
    }
  }

  lemma ClosersGrowBy(lib: Lib, s: State, a: Action)
    ensures |Step(lib, s, a).closers| == |s.closers| + if a.CloseBegin? then 1 else 0
  {
  }

  /** What a step says can be serialised: messages are tried first, the other notices are plain. */
  lemma SpokenEncodes(lib: Lib, s: State, a: Action)
    requires Lawful(lib)
    ensures forall f :: f in Spoken(s, Step(lib, s, a)) ==> lib.encode(f).Some?
  {
    var e := NewEvent(s, Step(lib, s, a));
    if e.Some? && e.value.Emitted? {
      MessagesAreTried(lib, s, a);
      PlainNotices(s.sid, e.value.notice);
    }
  }

  lemma MessagesAreTried(lib: Lib, s: State, a: Action)
    ensures var e := NewEvent(s, Step(lib, s, a));
      e.Some? && e.value.Emitted? && e.value.notice.Message? ==> lib.encode(NoticeFrame(s.sid, e.value.notice)).Some?
  {
  }

  lemma PlainNotices(sid: string, n: Notice)
    ensures !n.Message? ==> PlainFrame(NoticeFrame(sid, n))
  {
  }

  // ---------------------------------------------------------------------------------------------
  // Turn ids
  // ---------------------------------------------------------------------------------------------

  predicate AssignsTurn(e: Event) { e.Sent? && e.turn.Auto? }

  /** The numbers handed out increase along the log. */
  ghost predicate TurnsIncrease(s: State) {
    && (forall i :: 0 <= i < |s.log| && AssignsTurn(s.log[i]) ==> s.log[i].turn.n <= s.turnSeq)
    && (forall i, j :: 0 <= i < j < |s.log| && AssignsTurn(s.log[i]) && AssignsTurn(s.log[j]) ==>
          s.log[i].turn.n < s.log[j].turn.n)
  }

  ghost predicate TurnMoves(s: State, t: State) {
    && s.turnSeq <= t.turnSeq
    && match NewEvent(s, t)
       case Some(Sent(_, _, Auto(n))) => s.turnSeq < n <= t.turnSeq
       case _ => true
  }

  lemma StepTurns(lib: Lib, s: State, a: Action)
    ensures TurnMoves(s, Step(lib, s, a))
  {
  }

  lemma TurnsKept(s: State, t: State)
    requires TurnsIncrease(s) && LogMoves(s, t) && TurnMoves(s, t)
    ensures TurnsIncrease(t)
  {
  }

  lemma {:induction false} TurnsOfRun(lib: Lib, sid: string, acts: seq<Action>)
    ensures TurnsIncrease(Run(lib, sid, acts))
  {
    if acts != [] {
      var s := Run(lib, sid, acts[..|acts| - 1]);
      TurnsOfRun(lib, sid, acts[..|acts| - 1]);
      StepLogs(lib, s, acts[|acts| - 1]);
      StepTurns(lib, s, acts[|acts| - 1]);
      TurnsKept(s, Step(lib, s, acts[|acts| - 1]));
    }
  }

  /** What a numeral stands for, if each character is a digit. */
  function NumberOf(digits: string): Option<nat> {
    if digits == [] then Some(0) else
    var c, rest := digits[|digits| - 1], NumberOf(digits[..|digits| - 1]);
    if '0' <= c <= '9' && rest.Some? then Some(10 * rest.value + (c as int - '0' as int)) else None
  }

  lemma {:induction false} DecimalReads(n: nat)
    ensures NumberOf(Decimal(n)) == Some(n)
    ensures Decimal(n)[0] == '0' ==> n == 0 && Decimal(n) == "0"
  {
    if n >= 10 {
      DecimalReads(n / 10);
      assert Decimal(n)[..|Decimal(n)| - 1] == Decimal(n / 10);
    } else {
      assert NumberOf([]) == Some(0) && Decimal(n)[..0] == [];
    }
  }

  /** No turn id the session assigns is ever assigned again, not even after sends that failed. */
  lemma AssignedTurnIdsAreFresh(lib: Lib, sid: string, acts: seq<Action>, log: seq<Event>, i: nat, j: nat)
    requires log == Run(lib, sid, acts).log && i < j < |log|
    requires AssignsTurn(log[i]) && AssignsTurn(log[j])
    ensures TurnId(log[i].turn) != TurnId(log[j].turn)
    ensures TurnNumber(TurnId(log[j].turn)) == Some(log[j].turn.n)
  {
    TurnsOfRun(lib, sid, acts);
    TurnIdReads(log[i].turn.n);
    TurnIdReads(log[j].turn.n);
  }

  /** The number in "turn-<number>". */
  function TurnNumber(id: Json): Option<nat> {
    if id.Str? && |id.s| > 5 && id.s[..5] == "turn-" then NumberOf(id.s[5..]) else None
  }

  lemma TurnIdReads(n: nat)
    ensures TurnNumber(TurnId(Auto(n))) == Some(n)
  {
    DecimalReads(n);
    var s := "turn-" + Decimal(n);
    assert s[..5] == "turn-" && s[5..] == Decimal(n);
  }
}
