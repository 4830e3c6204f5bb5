/**
 session.ts: what reaches the other side. Which messages a query gets to read, which of its messages
 are forwarded, and what a pump, a channel and a request do at each of their steps.
 */
module Pumps {
  import opened Basics
  import opened Protocol
  import C = Channel
  import opened Session

  // The pump --------------------------------------------------------------------------------------

  /** The query of generation g has yielded m. */
  function Yielded(s: State, g: nat, m: Json): State
    requires g < |s.yielded|
  {
    s.(yielded := s.yielded[g := s.yielded[g] + [m]])
  }

  /**
   A message yielded to the pump of an open session is forwarded, and the pump goes on iterating, if
   and only if its frame can be serialised; the pump fails if and only if it cannot. On a closed
   session the pump breaks off and says nothing.
   */
  lemma MessageForwardedIff(lib: Lib, s: State, g: nat, m: Json)
    requires At(s, g, Iterating) && |s.yielded| == |s.pumps|
    ensures var t, sent := Step(lib, s, Yield(g, m)), Emitted(g, Message(m));
      var encodes := lib.encode(NoticeFrame(s.sid, Message(m))).Some?;
      && (!s.closed && encodes <==> t == Yielded(s, g, m).(log := s.log + [sent]))
      && (!s.closed && !encodes <==> t == Yielded(s, g, m).(pumps := s.pumps[g := Failing]))
      && (s.closed <==> t == Yielded(s, g, m).(pumps := s.pumps[g := Breaking]))
  {
    assert s.pumps[g := Failing][g].Failing? && s.pumps[g := Breaking][g].Breaking?;
    assert s.log != s.log + [Emitted(g, Message(m))];
  }

  /**
   How a pump ends: the end of its loop closes an open session with a notice and a closed one
   silently; an error, or the return of an iterator after an error, is announced with its text and
   leaves the flag alone. A pump that is not there, or not at that point, does nothing.
   */
  lemma PumpEndsAs(lib: Lib, s: State, g: nat, text: string)
    ensures
      var ended := s.(pumps := if g < |s.pumps| then s.pumps[g := Ended] else s.pumps);
      var loopOver := if s.closed then ended
        else ended.(closed := true, log := s.log + [Emitted(g, ClosedNotice)]);
      var caught := ended.(log := s.log + [Emitted(g, ErrorNotice(text))]);
      && Step(lib, s, Finish(g)) == (if At(s, g, Iterating) then loopOver else s)
      && Step(lib, s, Returned(g, text)) ==
           (if At(s, g, Breaking) then loopOver else if At(s, g, Failing) then caught else s)
      && Step(lib, s, Throw(g, text)) ==
           (if At(s, g, Iterating) || At(s, g, Breaking) || At(s, g, Failing) then caught else s)
  {
  }

  /** A query yields only to an iterating pump. */
  predicate Yields(s: State, a: Action, g: nat) { a.Yield? && a.g == g && At(s, g, Iterating) }

  /** The messages the query of generation g has yielded. */
  function YieldsOf(lib: Lib, sid: string, acts: seq<Action>, g: nat): seq<Json> {
    if acts == [] then [] else
    var pre, a := acts[..|acts| - 1], acts[|acts| - 1];
    YieldsOf(lib, sid, pre, g) + if Yields(Run(lib, sid, pre), a, g) then [a.m] else []
  }

  /** Each of them came while the session was open and could be serialised. */
  ghost predicate AllGetThrough(lib: Lib, sid: string, acts: seq<Action>, g: nat) {
    acts == [] ||
    var pre, a := acts[..|acts| - 1], acts[|acts| - 1];
    var s := Run(lib, sid, pre);
    && AllGetThrough(lib, sid, pre, g)
    && (Yields(s, a, g) ==> !s.closed && lib.encode(NoticeFrame(s.sid, Message(a.m))).Some?)
  }

  lemma OutputStep(lib: Lib, s: State, a: Action, g: nat)
    requires Invariant(s) && g < |s.yielded|
    ensures var t := Step(lib, s, a);
      && g < |t.yielded|
      && t.yielded[g] == s.yielded[g] + (if Yields(s, a, g) then [a.m] else [])
      && Forwarded(t.log, g) == Forwarded(s.log, g) +
           if Yields(s, a, g) && !s.closed && lib.encode(NoticeFrame(s.sid, Message(a.m))).Some? then [a.m] else []
  {
    var t := Step(lib, s, a);
    StepMoves(lib, s, a);
    OneEvent(s, t, g);
    assert OutputMoves(s, t, g);
    if Yields(s, a, g) {
      MessageForwardedIff(lib, s, g, a.m);
    } else {
      OthersYieldNothing(lib, s, a, g);
    }
  }

  lemma OthersYieldNothing(lib: Lib, s: State, a: Action, g: nat)
    requires g < |s.yielded| && !Yields(s, a, g)
    ensures var t := Step(lib, s, a); g < |t.yielded| && t.yielded[g] == s.yielded[g]
  {
  }

  lemma OutputOfNew(lib: Lib, s: State, a: Action, g: nat)
    requires Invariant(s) && |s.yielded| <= g
    ensures var t := Step(lib, s, a);
      && !Yields(s, a, g) && (g < |t.yielded| ==> t.yielded[g] == [])
      && Forwarded(t.log, g) == Forwarded(s.log, g) == []
  {
    var t := Step(lib, s, a);
    StepMoves(lib, s, a);
    OneEvent(s, t, g);
  }

  /**
   In every run, overlapping pumps included: what a pump has forwarded is what its query has yielded,
   all of it, if and only if each message came while the session was open and could be serialised.
   */
  lemma {:induction false} ForwardsAllIff(lib: Lib, sid: string, acts: seq<Action>, g: nat)
    ensures var s := Run(lib, sid, acts);
      if g < |s.yielded| then
        && s.yielded[g] == YieldsOf(lib, sid, acts, g)
        && (Forwarded(s.log, g) == s.yielded[g] <==> AllGetThrough(lib, sid, acts, g))
      else YieldsOf(lib, sid, acts, g) == [] && AllGetThrough(lib, sid, acts, g)
  {
    EveryRun(lib, sid, acts);
    if acts != [] {
      var pre, a := acts[..|acts| - 1], acts[|acts| - 1];
      var s := Run(lib, sid, pre);
      ForwardsAllIff(lib, sid, pre, g);
      EveryRun(lib, sid, pre);
      if g < |s.yielded| {
        OutputStep(lib, s, a, g);
      } else {
        OutputOfNew(lib, s, a, g);
      }
    }
  }

  // The channels ----------------------------------------------------------------------------------

  predicate Reads(s: State, a: Action, g: nat) { a == ReadInput(g) && HasQuery(s, g) }

  /** How often the query of generation g has asked for its next message. */
  function ReadsOf(lib: Lib, sid: string, acts: seq<Action>, g: nat): nat {
    if acts == [] then 0 else
    var pre, a := acts[..|acts| - 1], acts[|acts| - 1];
    ReadsOf(lib, sid, pre, g) + if Reads(Run(lib, sid, pre), a, g) then 1 else 0
  }

  lemma {:induction false} ResolvingKeepsCount(results: seq<C.Read>, waiting: seq<nat>)
    ensures |C.ResolveAll(results, waiting)| == |results|
    decreases |waiting|
  {
    if waiting != [] { ResolvingKeepsCount(C.Resolve(results, waiting[0], C.Done), waiting[1..]); }
  }

  lemma ChannelStep(c: C.State, op: C.Op)
    ensures |C.Step(c, op).results| == |c.results| + if op.Next? then 1 else 0
    ensures C.Step(c, op).closed == (c.closed || op.Close? || op.Return?)
  {
    ResolvingKeepsCount(c.results, c.resolvers);
  }

  /** The step closes the channel of generation g. */
  predicate ClosesChannel(s: State, a: Action, g: nat) {
    || (a == ReturnInput(g) && HasQuery(s, g))
    || (a.Resume? && g == |s.channels| - 1)
    || (a.CloseBegin? && !s.closed && g == |s.channels| - 1)
  }

  /**
   A channel answers one read for each time its own query asks, and closes exactly when that query
   returns it, or when it is the one in use and the session is resumed, or closed while open.
   */
  lemma ChannelUsedExactly(lib: Lib, s: State, a: Action, g: nat)
    requires |s.channels| == |s.pumps| && g < |s.channels|
    ensures var t := Step(lib, s, a);
      && g < |t.channels|
      && |t.channels[g].results| == |s.channels[g].results| + (if Reads(s, a, g) then 1 else 0)
      && t.channels[g].closed == (s.channels[g].closed || ClosesChannel(s, a, g))
  {
    match a
    case Send(content, turnId) => SendUses(s, content, turnId, g);
    case Resume(queryStarts) => ResumeUses(s, queryStarts, g);
    case CloseBegin => CloseUses(s, g);
    case ReadInput(r) => if HasQuery(s, r) { ChannelStep(s.channels[r], C.Next); }
    case ReturnInput(r) => if HasQuery(s, r) { ChannelStep(s.channels[r], C.Return); }
    case _ => OthersUseNone(lib, s, a);
  }

  /** The channel of generation g after a step that reads it n times and may close it. */
  predicate Used(s: State, t: State, g: nat, n: nat, closes: bool)
    requires g < |s.channels|
  {
    && g < |t.channels|
    && |t.channels[g].results| == |s.channels[g].results| + n
    && t.channels[g].closed == (s.channels[g].closed || closes)
  }

  lemma SendUses(s: State, content: Json, turnId: Option<Json>, g: nat)
    requires g < |s.channels|
    ensures Used(s, SendStep(s, content, turnId), g, 0, false)
  {
    ChannelStep(s.channels[|s.channels| - 1], C.Push(UserMessage(content)));
  }

  lemma ResumeUses(s: State, queryStarts: bool, g: nat)
    requires g < |s.channels|
    ensures Used(s, ResumeStep(s, queryStarts), g, 0, g == |s.channels| - 1)
  {
    ChannelStep(s.channels[|s.channels| - 1], C.Close);
  }

  lemma CloseUses(s: State, g: nat)
    requires g < |s.channels|
    ensures Used(s, CloseStep(s), g, 0, !s.closed && g == |s.channels| - 1)
  {
    ChannelStep(s.channels[|s.channels| - 1], C.Close);
  }

  lemma OthersUseNone(lib: Lib, s: State, a: Action)
    requires !a.Send? && !a.Resume? && !a.CloseBegin? && !a.ReadInput? && !a.ReturnInput?
    ensures Step(lib, s, a).channels == s.channels
  {
  }

  /**
   In every run the i-th time a query asks, it gets the i-th message accepted for its generation, or
   waits for it, or is told there is no more; and it is answered as often as it asks.
   */
  lemma {:induction false} EveryReadIsAnswered(lib: Lib, sid: string, acts: seq<Action>, g: nat)
    ensures var s := Run(lib, sid, acts);
      if g < |s.channels| then
        && |s.channels[g].results| == ReadsOf(lib, sid, acts, g)
        && forall i: nat :: i < ReadsOf(lib, sid, acts, g) ==>
             s.channels[g].results[i] == C.Held(SentTo(s.log, g), s.channels[g].closed, i)
      else ReadsOf(lib, sid, acts, g) == 0
  {
    EveryRun(lib, sid, acts);
    if acts != [] {
      var pre, a := acts[..|acts| - 1], acts[|acts| - 1];
      var s := Run(lib, sid, pre);
      EveryReadIsAnswered(lib, sid, pre, g);
      EveryRun(lib, sid, pre);
      if g < |s.channels| {
        ChannelUsedExactly(lib, s, a, g);
      } else {
        StepMoves(lib, s, a);
      }
    }
  }

  // The requests ----------------------------------------------------------------------------------

  /**
   A message is accepted if and only if session and channel are open; then the query in use gets the
   user's text as it was sent, under the turn id of the request or, without one, the next number.
   */
  lemma MessageAcceptedAs(lib: Lib, s: State, content: Json, turnId: Option<Json>)
    requires s.channels != []
    ensures var t := Step(lib, s, Send(content, turnId));
      var g := |s.channels| - 1;
      var given := turnId.Some? && turnId != Some(Null);
      var message := Dict(map[
        "type" := Str("user"), "parent_tool_use_id" := Null,
        "message" := Dict(map["role" := Str("user"), "content" := content])]);
      NewEvent(s, t) == Some(
        if s.closed || s.channels[g].closed then SendRejected
        else Sent(g, message, if given then Given(turnId.value) else Auto(s.turnSeq + 1)))
  {
    UserMessageIs(content);
  }

  lemma UserMessageIs(content: Json)
    ensures UserMessage(content) == Dict(map[
      "type" := Str("user"), "parent_tool_use_id" := Null,
      "message" := Dict(map["role" := Str("user"), "content" := content])])
  {
    assert "type" != "message" && |"parent_tool_use_id"| == 18 && |"message"| == 7 && |"type"| == 4;
    assert UserMessage(content).fields == map[
      "type" := Str("user"), "parent_tool_use_id" := Null,
      "message" := Dict(map["role" := Str("user"), "content" := content])];
  }

  /**
   A control method is called on the current query, with the arguments of the request or none, if and
   only if the session is open, the method is known and the arguments can be applied.
   */
  lemma ControlCalledAs(lib: Lib, s: State, name: string, args: Option<Json>, known: bool)
    ensures var t := Step(lib, s, Control(name, args, known));
      var given := args.Some? && args != Some(Null);
      NewEvent(s, t) == Some(
        if s.closed || !known || (given && !args.value.Arr? && !args.value.Dict?) then ControlRejected
        else Controlled(s.current, name, if given then args.value else Arr([])))
  {
  }

  // The notices -----------------------------------------------------------------------------------

  /** What the peer reads from a frame of a session: whose it is, and the notice. */
  function Heard(f: Frame): Option<(string, Notice)> {
    if f.id.Some? || f.result.Some? || f.error.Some? || f.params.None? then None else
    match (f.methodName, Get(f.params.value, "sessionId"))
    case (Some(Str(name)), Some(Str(sid))) =>
      if name == "session.message" then
        match Get(f.params.value, "message") case Some(m) => Some((sid, Message(m))) case None => None
      else if name == "session.closed" then
        if Get(f.params.value, "reason") == Some(Str("iterator_done")) then Some((sid, ClosedNotice)) else None
      else if name == "session.error" then HeardError(sid, Get(f.params.value, "error")) else None
    case _ => None
  }

  function HeardError(sid: string, error: Option<Json>): Option<(string, Notice)> {
    match error
    case None => None
    case Some(e) =>
      match (Get(e, "code"), Get(e, "message"))
      case (Some(Num(code)), Some(Str(text))) => if code == -32010 then Some((sid, ErrorNotice(text))) else None
      case _ => None
  }

  /** The frame of a notice tells the peer the session and the notice. */
  lemma NoticeIsHeard(sid: string, n: Notice)
    ensures Heard(NoticeFrame(sid, n)) == Some((sid, n))
  {
    assert |"session.message"| == 15 && |"session.closed"| == 14 && |"session.error"| == 13;
  }
}
