/** session.ts: the QuerySession object, method by method, against the steps of module Session. */
module QuerySessions {
  import opened Basics
  import opened Protocol
  import opened Framing
  import B = Bridges
  import C = Channel
  import opened Session

  /** JSON.stringify accepts the session.closed and session.error frames. */
  lemma PlainNoticesEncode(lib: Lib, sid: string, n: Notice)
    requires Lawful(lib)
    ensures !n.Message? ==> lib.encode(NoticeFrame(sid, n)).Some?
  {
    PlainNotices(sid, n);
  }

  /** What a step says: the notice of its one event, if that is one. */
  lemma SaidByStep(lib: Lib, o: Out, origin: Origin, s: State, t: State, g: int, n: Notice)
    ensures t.log == s.log ==> Said(lib, o, origin, Spoken(s, t)) == o
    ensures t.log == s.log + [Emitted(g, n)] ==>
      Said(lib, o, origin, Spoken(s, t)) == Write(lib, o, origin, NoticeFrame(s.sid, n))
  {
  }

  lemma SilentStep(lib: Lib, s: State, a: Action)
    requires !PumpAction(a)
    ensures Spoken(s, Step(lib, s, a)) == []
  {
  }

  lemma SilentIfStill(s: State)
    ensures Spoken(s, s) == []
  {
  }

  class QuerySession {
    const out: Wire
    const sessionId: string
    // Which of the process's session objects this is.
    const ref: nat
    var input: C.InputChannel
    var closed: bool
    var turnSeq: nat
    // this.query and this.pumpDone, as the number of the generation they belong to.
    var current: nat
    // The options made for the query of each generation.
    var handed: seq<B.Options>
    // The channels of all generations; those of the earlier ones only their own queries still hold.
    ghost var channels: seq<C.State>
    // What the queries have yielded, where the pumps stand, who awaits them, what has happened.
    var yielded: seq<seq<Json>>
    var pumps: seq<Pump>
    var closers: seq<Closer>
    ghost var log: seq<Event>

    ghost function View(): State
      reads this
    {
      State(sessionId, closed, turnSeq, channels, yielded, pumps, current, closers, log)
    }

    /** ref tells this session's channel from every other's. */
    ghost predicate Valid()
      reads this, input
    {
      && input.Valid() && input.owner == ref
      && 1 <= |channels| == |yielded| == |pumps| == |handed|
      && channels[|channels| - 1] == input.View()
    }

    /**
     The object, and its create(): the query is started with the peer's options and the bridges it
     asked for. started is false when making the options or sdk.query throws; then there is no query.
     */
    constructor Create(out: Wire, sessionId: string, params: Json, starts: bool, ref: nat)
      ensures Valid() && View() == if starts then Init(sessionId) else Unstarted(sessionId)
      ensures handed == [B.Enriched(B.OptionsIn(params), B.BridgingIn(params))]
      ensures this.out == out && this.sessionId == sessionId && this.ref == ref && fresh(input)
    {
      this.out := out;
      this.sessionId := sessionId;
      this.ref := ref;
      input := new C.InputChannel(ref);
      closed, turnSeq, current := false, 0, 0;
      channels, yielded, closers := [C.EMPTY], [[]], [];
      pumps := [if starts then Iterating else NoQuery];
      log := if starts then [Created] else [];
      var enriched := B.EnrichOptions(B.OptionsIn(params), B.BridgingIn(params));
      handed := [enriched];
    }

    method AssignTurn(turnId: Option<Json>) returns (turn: Turn)
      modifies this`turnSeq
      ensures (View(), turn) == Session.AssignTurn(old(View()), turnId)
    {
      if turnId.Some? && turnId.value != Null {
        turn := Given(turnId.value);
      } else {
        turnSeq := turnSeq + 1;
        turn := Auto(turnSeq);
      }
    }

    method PushTurn(m: Json, turn: Turn) returns (threw: bool)
      requires Valid()
      modifies this`channels, this`log, input
      ensures Valid() && View() == PushStep(old(View()), m, turn)
      ensures threw == old(input.closed)
    {
      threw := input.Push(m);
      channels := channels[|channels| - 1 := input.View()];
      log := log + [if threw then SendRejected else Sent(|pumps| - 1, m, turn)];
    }

    /** None: the session, or its input channel, is closed. */
    method Send(content: Json, turnId: Option<Json>) returns (turn: Option<Turn>)
      requires Valid()
      modifies this`turnSeq, this`channels, this`log, input
      ensures Valid() && View() == SendStep(old(View()), content, turnId)
      ensures turn.Some? <==> !old(closed) && !old(input.closed)
      ensures turn.Some? ==>
        NewEvent(old(View()), View()) == Some(Sent(|pumps| - 1, UserMessage(content), turn.value))
      ensures turn.None? ==> NewEvent(old(View()), View()) == Some(SendRejected)
    {
      if closed {
        log := log + [SendRejected];
        return None;
      }
      var chosen := AssignTurn(turnId);
      var threw := PushTurn(UserMessage(content), chosen);
      turn := if threw then None else Some(chosen);
    }

    /** The method of the current query to call, with its arguments; None when control() throws. */
    method Control(methodName: string, args: Option<Json>, known: bool) returns (call: Option<Json>)
      requires Valid()
      modifies this`log
      ensures Valid() && View() == ControlStep(old(View()), methodName, args, known)
      ensures call.Some? <==> !closed && known && Applicable(Arguments(args))
      ensures NewEvent(old(View()), View()) ==
        Some(if call.Some? then Controlled(current, methodName, call.value) else ControlRejected)
    {
      call := None;
      if !closed && known && Applicable(Arguments(args)) { call := Some(Arguments(args)); }
      log := log + [if call.Some? then Controlled(current, methodName, call.value) else ControlRejected];
    }

    /**
     Leaves the old channel closed; when sdk.query throws, closed and the old query stay as they are.
     The new query gets the options sent with the request, and none of the bridges.
     */
    method Resume(params: Json, queryStarts: bool)
      requires Valid()
      modifies this, input
      ensures Valid() && View() == ResumeStep(old(View()), queryStarts)
      ensures fresh(input) && old(input).closed
      ensures closed == (old(closed) && !queryStarts)
      ensures handed == old(handed) + [B.WithResume(B.OptionsIn(params), Get(params, "sdkSessionId"))]
      ensures B.Bridgeless(handed[|old(handed)|]) && B.HandsOn(handed[|old(handed)|], params, {"resume"})
      ensures match Get(params, "sdkSessionId")
        case Some(id) => "resume" in handed[|old(handed)|].rest && handed[|old(handed)|].rest["resume"] == id
        case None => "resume" !in handed[|old(handed)|].rest
    {
      NewChannel();
      var enriched := OptionsToResume(params);
      NewQuery(enriched, queryStarts);
    }

    method NewQuery(options: B.Options, starts: bool)
      modifies this`yielded, this`handed, this`current, this`closed, this`log, this`pumps
      ensures handed == old(handed) + [options]
      ensures yielded == old(yielded) + [[]]
      ensures pumps == old(pumps) + [if starts then Iterating else NoQuery]
      ensures current == if starts then |old(pumps)| else old(current)
      ensures closed == (old(closed) && !starts)
      ensures log == old(log) + [if starts then Resumed(|old(pumps)|) else ResumeFailed(|old(pumps)|)]
    {
      handed := handed + [options];
      yielded := yielded + [[]];
      if starts {
        current := |pumps|;
        closed := false;
        log := log + [Resumed(|pumps|)];
        pumps := pumps + [Iterating];
      } else {
        log := log + [ResumeFailed(|pumps|)];
        pumps := pumps + [NoQuery];
      }
    }

    static method OptionsToResume(params: Json) returns (enriched: B.Options)
      ensures enriched == B.WithResume(B.OptionsIn(params), Get(params, "sdkSessionId"))
      ensures B.Bridgeless(enriched) && B.HandsOn(enriched, params, {"resume"})
      ensures match Get(params, "sdkSessionId")
        case Some(id) => "resume" in enriched.rest && enriched.rest["resume"] == id
        case None => "resume" !in enriched.rest
    {
      B.ResumeHandsOn(params, Get(params, "sdkSessionId"));
      B.ResumeInstallsNoBridge(params, Get(params, "sdkSessionId"));
      enriched := B.EnrichOptions(B.WithResume(B.OptionsIn(params), Get(params, "sdkSessionId")), B.NO_BRIDGES);
    }

    method NewChannel()
      requires Valid()
      modifies this`input, this`channels, input
      ensures fresh(input) && input.Valid() && input.owner == ref && input.View() == C.EMPTY
      ensures old(input).closed
      ensures channels == OnChannel(old(View()), Input(old(View())), C.Close).channels + [C.EMPTY]
    {
      input.Close();
      channels := channels[|channels| - 1 := input.View()] + [C.EMPTY];
      input := new C.InputChannel(ref);
    }

    /** close() up to its await; k names the call. */
    method BeginClose() returns (k: nat)
      requires Valid()
      modifies this`closed, this`closers, this`channels, this`log, input
      ensures Valid() && View() == CloseStep(old(View()))
      ensures closed && (!old(closed) ==> input.closed)
      ensures k == |closers| - 1
    {
      k := |closers|;
      log := log + [CloseCalled(k)];
      if closed {
        closers := closers + [Closer(None, false)];
      } else {
        closed := true;
        input.Close();
        channels := channels[|channels| - 1 := input.View()];
        closers := closers + [Closer(Some(current), false)];
      }
    }

    /** The rest of close(), once the awaited pump has finished. */
    method FinishClose(k: nat)
      requires Valid() && CanFinish(View(), k)
      modifies this`closers, this`log
      ensures Valid() && View() == Step(out.lib, old(View()), CloseFinish(k))
      ensures closers[k].resolved
    {
      closers := closers[k := closers[k].(resolved := true)];
      log := log + [CloseResolved(k)];
    }

    /** One turn of the pump's loop. */
    method OnMessage(g: nat, m: Json)
      requires Valid() && g < |pumps| && pumps[g].Iterating?
      modifies this`yielded, this`pumps, this`log, out
      ensures Valid()
      ensures View() == YieldStep(out.lib, old(View()), g, m)
      ensures pumps[g] == if old(closed) then Breaking
        else if out.lib.encode(NoticeFrame(sessionId, Message(m))).Some? then Iterating else Failing
      ensures out.View() == Said(out.lib, old(out.View()), BySession(ref), Spoken(old(View()), View()))
    {
      yielded := yielded[g := yielded[g] + [m]];
      if closed {
        pumps := pumps[g := Breaking];
      } else {
        var ok := out.Send(NoticeFrame(sessionId, Message(m)), BySession(ref));
        if ok {
          log := log + [Emitted(g, Message(m))];
        } else {
          pumps := pumps[g := Failing];
        }
      }
      SaidByStep(out.lib, old(out.View()), BySession(ref), old(View()), View(), g, Message(m));
    }

    /** The statements after the loop. */
    method OnLoopEnd(g: nat)
      requires Valid() && Lawful(out.lib)
      requires g < |pumps| && (pumps[g].Iterating? || pumps[g].Breaking?)
      modifies this`pumps, this`log, this`closed, out
      ensures Valid()
      ensures View() == AfterLoop(old(View()), g)
      ensures out.View() == Said(out.lib, old(out.View()), BySession(ref), Spoken(old(View()), View()))
    {
      pumps := pumps[g := Ended];
      if !closed {
        Announce(g, ClosedNotice);
        closed := true;
      }
      SaidByStep(out.lib, old(out.View()), BySession(ref), old(View()), View(), g, ClosedNotice);
    }

    /** The catch clause. */
    method OnError(g: nat, text: string)
      requires Valid() && Lawful(out.lib)
      requires g < |pumps| && Live(pumps[g])
      modifies this`pumps, this`log, out
      ensures Valid()
      ensures View() == Caught(old(View()), g, text)
      ensures out.View() == Said(out.lib, old(out.View()), BySession(ref), Spoken(old(View()), View()))
    {
      pumps := pumps[g := Ended];
      Announce(g, ErrorNotice(text));
      SaidByStep(out.lib, old(out.View()), BySession(ref), old(View()), View(), g, ErrorNotice(text));
    }

    /** Sends the last word of a pump, which can always be serialised. */
    method Announce(g: nat, n: Notice)
      requires Lawful(out.lib) && !n.Message?
      modifies this`log, out
      ensures log == old(log) + [Emitted(g, n)]
      ensures out.View() == Write(out.lib, old(out.View()), BySession(ref), NoticeFrame(sessionId, n))
      ensures out.lib.encode(NoticeFrame(sessionId, n)).Some?
    {
      PlainNoticesEncode(out.lib, sessionId, n);
      var ok := out.Send(NoticeFrame(sessionId, n), BySession(ref));
      log := log + [Emitted(g, n)];
    }

    /** A query, of this generation or an earlier one, asks its channel for the next message, or returns it. */
    method OnChannelUse(g: nat, op: C.Op)
      requires Valid() && g < |pumps| && (op.Next? || op.Return?)
      modifies this`channels, input
      ensures Valid() && View() == OnChannel(old(View()), g, op)
    {
      channels := channels[g := C.Step(channels[g], op)];
      if g == |pumps| - 1 {
        if op.Next? {
          var i := input.Next();
        } else {
          input.Close();
        }
      }
    }

    /** What the pump of a generation does next. */
    method Pump(a: Action)
      requires Valid() && Lawful(out.lib) && PumpAction(a)
      modifies this`yielded, this`pumps, this`closed, this`log, out
      ensures Valid() && View() == Step(out.lib, old(View()), a)
      ensures out.View() == Said(out.lib, old(out.View()), BySession(ref), Spoken(old(View()), View()))
    {
      SilentIfStill(View());
      match a
      case Yield(g, m) => if g < |pumps| && pumps[g].Iterating? { OnMessage(g, m); }
      case Finish(g) => if g < |pumps| && pumps[g].Iterating? { OnLoopEnd(g); }
      case Returned(g, text) =>
        if g < |pumps| && pumps[g].Breaking? {
          OnLoopEnd(g);
        } else if g < |pumps| && pumps[g].Failing? {
          OnError(g, text);
        }
      case Throw(g, text) => if g < |pumps| && Live(pumps[g]) { OnError(g, text); }
    }

    /** Whatever the environment and the pumps can do to the session by themselves. */
    method GoOn(a: Action)
      requires Valid() && Lawful(out.lib) && Background(a)
      modifies this`channels, this`yielded, this`pumps, this`closed, this`closers, this`log, input, out
      ensures Valid() && View() == Step(out.lib, old(View()), a)
      ensures out.View() == Said(out.lib, old(out.View()), BySession(ref), Spoken(old(View()), View()))
    {
      if PumpAction(a) {
        Pump(a);
      } else {
        Environment(a);
        SilentStep(out.lib, old(View()), a);
      }
    }

    /** A query uses its channel, or a close() call resumes. */
    method Environment(a: Action)
      requires Valid() && Background(a) && !PumpAction(a)
      modifies this`channels, this`closers, this`log, input
      ensures Valid() && View() == Step(out.lib, old(View()), a)
    {
      match a
      case ReadInput(g) => if g < |pumps| && !pumps[g].NoQuery? { OnChannelUse(g, C.Next); }
      case ReturnInput(g) => if g < |pumps| && !pumps[g].NoQuery? { OnChannelUse(g, C.Return); }
      case CloseFinish(k) =>
        if k < |closers| && !closers[k].resolved {
          var c := closers[k].waitsFor;
          if c.None? || (c.value < |pumps| && pumps[c.value].Ended?) { FinishClose(k); }
        }
    }
  }
}
