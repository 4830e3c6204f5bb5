/** index.ts: what makes main leave its loop and the process exit, and what is done before. */
module Shutdown {
  import opened Basics
  import opened Protocol
  import opened Framing
  import R = Rpc
  import S = Session
  import opened Sidecar
  import opened SessionTable

  // ---------------------------------------------------------------------------------------------
  // The flag
  // ---------------------------------------------------------------------------------------------

  /** The handler of a shutdown request whose result is on the pipe. */
  ghost predicate ShutdownAnswered(s: State, h: nat) {
    && h < |s.handlers| && s.handlers[h].methodName == "shutdown"
    && |RepliesBy(s.out.log, h)| == 1 && RepliesBy(s.out.log, h)[0].result.Some?
  }

  lemma AnsweredIsReplied(s: State, h: nat)
    requires OneReplyEach(s) && h < |s.handlers|
    ensures ShutdownAnswered(s, h) <==>
      s.handlers[h].methodName == "shutdown" && s.handlers[h].stage == Replied(true)
  {
    assert RepliesRight(RepliedAt(s.handlers, h), RepliesBy(s.out.log, h));
  }

  lemma AnsweredStays(w: World, acts: seq<Action>, a: Action, h: nat)
    requires ShutdownAnswered(Run(w, acts), h)
    ensures ShutdownAnswered(Run(w, acts + [a]), h)
  {
    ExactlyOneReply(w, acts);
    ExactlyOneReply(w, acts + [a]);
    Snoc(w, acts, a);
    AnsweredIsReplied(Run(w, acts), h);
    OutcomeStep(w, Run(w, acts), a, h);
    AnsweredIsReplied(Run(w, acts + [a]), h);
  }

  lemma FlagStep(w: World, s: State, a: Action)
    ensures Step(w, s, a).shuttingDown && !s.shuttingDown ==> a.SetFlag? && FlagReady(s, a.h)
    ensures Step(w, s, a).phase.Exited? && !s.phase.Exited? ==> Step(w, s, a).shuttingDown
    ensures s.phase.Exited? ==> Step(w, s, a) == s
  {
    if a.Arrive? {
      var r := RouteOf(w.lib, s.rpc, a.v);
      if r.Dispatched? {
        DispatchKeepsFlags(w, s.(rpc := FeedValue(w.lib, s.rpc, a.v)), r.methodName, r.params, a.env);
      }
    }
  }

  lemma FlagStays(w: World, s: State, a: Action)
    ensures s.shuttingDown ==> Step(w, s, a).shuttingDown
  {
    StepsTowardsExit(w, s, a);
  }

  /** In every run the flag is set, and the process exits, only after a shutdown request got its result. */
  lemma {:induction false} ExitOnlyAfterShutdown(w: World, acts: seq<Action>)
    ensures var s := Run(w, acts);
      && (s.phase.Exited? ==> s.shuttingDown)
      && (s.shuttingDown ==> exists h :: ShutdownAnswered(s, h))
  {
    if acts != [] {
      var pre, a := acts[..|acts| - 1], acts[|acts| - 1];
      var s := Run(w, pre);
      assert pre + [a] == acts;
      ExitOnlyAfterShutdown(w, pre);
      FlagStep(w, s, a);
      FlagStays(w, s, a);
      if s.shuttingDown {
        var h :| ShutdownAnswered(s, h);
        AnsweredStays(w, pre, a, h);
      } else if Run(w, acts).shuttingDown {
        ExactlyOneReply(w, pre);
        AnsweredIsReplied(s, a.h);
        AnsweredStays(w, pre, a, a.h);
      }
    }
  }

  /** And once it got it, the flag can be set, unless the process is over. */
  lemma AnsweredShutdownSetsFlag(w: World, acts: seq<Action>, h: nat)
    requires ShutdownAnswered(Run(w, acts), h) && !Over(Run(w, acts))
    ensures Step(w, Run(w, acts), SetFlag(h)).shuttingDown
  {
    ExactlyOneReply(w, acts);
    AnsweredIsReplied(Run(w, acts), h);
  }

  // ---------------------------------------------------------------------------------------------
  // Leaving the loop
  // ---------------------------------------------------------------------------------------------

  /** A frame whose members make the loop's body throw: null, or a null error for a pending call. */
  predicate MakesLoopThrow(lib: Lib, s: State, v: Value) {
    || v.NullValue?
    || (v.Object? && v.frame.error == Some(Null) && v.frame.id.Some?
        && lib.number(v.frame.id.value).Some? && lib.number(v.frame.id.value).value in s.rpc.pending)
  }

  /** A frame that is dispatched: a request that no pending call claims as its reply. */
  predicate IsDispatched(lib: Lib, s: State, v: Value) {
    && v.Object? && v.frame.id.Some? && v.frame.methodName.Some? && v.frame.methodName.value.Str?
    && !((v.frame.result.Some? || v.frame.error.Some?)
         && lib.number(v.frame.id.value).Some? && lib.number(v.frame.id.value).value in s.rpc.pending)
  }

  /**
   The loop is left exactly at the end of the input, after a request that comes when the flag is set,
   and by a frame that makes its body throw, which is the only way to the process's failing.
   */
  lemma LoopIsLeftIff(w: World, s: State, a: Action)
    requires s.phase.Running? && a != Die
    ensures var t := Step(w, s, a);
      && (t.phase == Aborted <==> a.Arrive? && MakesLoopThrow(w.lib, s, a.v))
      && (t.phase == Closing({}, None) <==>
            a.Eof? || (a.Arrive? && !MakesLoopThrow(w.lib, s, a.v) && IsDispatched(w.lib, s, a.v) && s.shuttingDown))
      && (t.phase.Running? || t.phase == Aborted || t.phase == Closing({}, None))
  {
    if a.Arrive? {
      var r := RouteOf(w.lib, s.rpc, a.v);
      if r.Dispatched? {
        DispatchKeepsFlags(w, s.(rpc := FeedValue(w.lib, s.rpc, a.v)), r.methodName, r.params, a.env);
      }
    }
  }

  /** The process dies of what nobody catches, and of nothing else. */
  lemma DiesIff(w: World, s: State, a: Action)
    requires !Over(s)
    ensures Step(w, s, a).phase.Crashed? <==>
      a == Die && (s.phase == Aborted || exists h: nat :: DeadAt(s, h))
  {
    if a.Arrive? && s.phase.Running? { LoopIsLeftIff(w, s, a); }
    if a == Die && exists h :: 0 <= h < |s.handlers| && s.handlers[h].stage.Dead? {
      var h :| 0 <= h < |s.handlers| && s.handlers[h].stage.Dead?;
      assert DeadAt(s, h);
    }
  }

  // ---------------------------------------------------------------------------------------------
  // Closing the sessions
  // ---------------------------------------------------------------------------------------------

  /** A close() call of the session has resolved. */
  ghost predicate SomeCloseResolved(s: State, ref: nat) { exists k: nat :: CloserResolved(s, ref, k) }

  /** The sessions that the loop over them has passed have been closed; the one it awaits is being so. */
  ghost predicate PassedAreClosed(s: State) {
    s.phase.Closing? ==>
      && (forall ref :: ref in s.phase.visited ==> SomeCloseResolved(s, ref))
      && (s.phase.waiting.Some? ==>
            var (ref, k) := s.phase.waiting.value;
            ref < |s.sessions| && k < |s.sessions[ref].closers|)
  }

  lemma ResolvedKept(w: World, s: State, t: State, resuming: bool, ref: nat)
    requires Real(w) && SessionsMove(w, s, t, resuming)
    ensures forall k: nat :: CloserResolved(s, ref, k) ==> CloserResolved(t, ref, k)
    ensures ref < |s.sessions| ==> |s.sessions[ref].closers| <= |t.sessions[ref].closers|
  {
    if ref < |s.sessions| {
      assert SessionMoves(w, s.sessions[ref], t.sessions[ref], resuming);
      if t.sessions[ref] != s.sessions[ref] {
        var a :| t.sessions[ref] == w.perform(s.sessions[ref], a);
        assert t.sessions[ref] == S.Step(w.lib, s.sessions[ref], a);
        S.ResolvedStays(w.lib, s.sessions[ref], a);
      }
    }
  }

  /** How the loop over the sessions moves. */
  ghost predicate ClosingMoves(s: State, t: State) {
    t.phase.Closing? ==>
      || t.phase == Closing({}, None)
      || (s.phase.Closing? && t.phase == s.phase)
      || (s.phase.Closing? && t.phase.visited == s.phase.visited && t.phase.waiting.Some?
          && t.phase.waiting.value.0 < |t.sessions|
          && t.phase.waiting.value.1 < |t.sessions[t.phase.waiting.value.0].closers|)
      || (s.phase.Closing? && s.phase.waiting.Some? && t.phase.waiting.None?
          && t.phase.visited == s.phase.visited + {s.phase.waiting.value.0}
          && SomeCloseResolved(s, s.phase.waiting.value.0) && t.sessions == s.sessions)
  }

  lemma MainCloseMoves(w: World, s: State, ref: nat)
    requires Real(w) && forall sid :: sid in s.table ==> s.table[sid] < |s.sessions|
    ensures ClosingMoves(s, MainCloseStep(w, s, ref))
  {
    if ref in s.table.Values {
      LastCloserExists(w, s, ref);
    }
  }

  lemma StepMovesClosing(w: World, s: State, a: Action)
    requires Real(w) && forall sid :: sid in s.table ==> s.table[sid] < |s.sessions|
    ensures ClosingMoves(s, Step(w, s, a))
  {
    match a
    case MainClose(ref) => MainCloseMoves(w, s, ref);
    case Arrive(v, env) => if s.phase.Running? { LoopIsLeftIff(w, s, a); }
    case MainAwaited =>
      if s.phase.Closing? && s.phase.waiting.Some? {
        var (ref, k) := s.phase.waiting.value;
        assert CloserResolved(s, ref, k) ==> SomeCloseResolved(s, ref);
      }
    case _ =>
  }

  lemma {:induction false} PassedAreClosedInRuns(w: World, acts: seq<Action>)
    requires Real(w)
    ensures PassedAreClosed(Run(w, acts))
  {
    if acts != [] {
      var pre, a := acts[..|acts| - 1], acts[|acts| - 1];
      var s, t := Run(w, pre), Run(w, acts);
      PassedAreClosedInRuns(w, pre);
      SessionsAreRuns(w, pre);
      StepMovesSessions(w, s, a);
      StepMovesClosing(w, s, a);
      PassedKept(w, s, t, IsResumeRequest(a));
    }
  }

  lemma PassedKept(w: World, s: State, t: State, resuming: bool)
    requires Real(w) && PassedAreClosed(s) && ClosingMoves(s, t) && SessionsMove(w, s, t, resuming)
    ensures PassedAreClosed(t)
  {
    if t.phase.Closing? && s.phase.Closing? {
      forall ref | ref in t.phase.visited ensures SomeCloseResolved(t, ref) {
        ResolvedKept(w, s, t, resuming, ref);
        if SomeCloseResolved(s, ref) {
          var k: nat :| CloserResolved(s, ref, k);
          assert CloserResolved(t, ref, k);
        }
      }
      if s.phase.waiting.Some? { ResolvedKept(w, s, t, resuming, s.phase.waiting.value.0); }
    }
  }

  lemma LeavesWhenAllPassed(w: World, s: State)
    requires s.phase.Closing? && !Step(w, s, MainLeave).phase.Closing?
    ensures s.table.Values <= s.phase.visited
    ensures Step(w, s, MainLeave).rpc == R.DrainStep(s.rpc, "sidecar shutting down")
    ensures Step(w, s, MainLeave).phase == if s.shuttingDown then Exited else Finished
  {
  }

  /** When main has left, it has awaited a close() of every session in the table. */
  lemma EverySessionIsClosed(w: World, acts: seq<Action>, sid: string)
    requires Real(w) && !Over(Run(w, acts)) && Run(w, acts).phase.Closing?
    requires !Step(w, Run(w, acts), MainLeave).phase.Closing?
    requires sid in Run(w, acts).table
    ensures SomeCloseResolved(Run(w, acts), Run(w, acts).table[sid])
    ensures R.DrainStep(Run(w, acts).rpc, "sidecar shutting down") == Step(w, Run(w, acts), MainLeave).rpc
    ensures Step(w, Run(w, acts), MainLeave).phase == if Run(w, acts).shuttingDown then Exited else Finished
  {
    PassedAreClosedInRuns(w, acts);
    LeavesWhenAllPassed(w, Run(w, acts));
    assert Run(w, acts).table[sid] in Run(w, acts).table.Values;
  }

  // ---------------------------------------------------------------------------------------------
  // It can always get there
  // ---------------------------------------------------------------------------------------------

  /** The sessions still to be closed. */
  function ToClose(s: State): set<nat>
    requires s.phase.Closing?
  {
    s.table.Values - s.phase.visited
  }

  /** How many steps main is from leaving, at two for a session. */
  function Distance(s: State): nat
    requires s.phase.Closing?
  {
    if s.phase.waiting.Some? then 2 * |ToClose(s) - {s.phase.waiting.value.0}| + 1 else 2 * |ToClose(s)|
  }

  ghost predicate Consistent(w: World, s: State) { Sound(w, s) && PassedAreClosed(s) }

  lemma ConsistentStep(w: World, s: State, a: Action)
    requires Real(w) && Consistent(w, s)
    ensures Consistent(w, Step(w, s, a))
  {
    RealKeepsIds(w);
    StepMovesSessions(w, s, a);
    StepMovesTable(w, s, a);
    StepMovesClosing(w, s, a);
    SoundKept(w, s, Step(w, s, a), IsResumeRequest(a));
    PassedKept(w, s, Step(w, s, a), IsResumeRequest(a));
  }

  lemma {:induction false} ConsistentFrom(w: World, s: State, more: seq<Action>)
    requires Real(w) && Consistent(w, s)
    ensures Consistent(w, RunFrom(w, s, more))
  {
    if more != [] {
      ConsistentFrom(w, s, more[..|more| - 1]);
      ConsistentStep(w, RunFrom(w, s, more[..|more| - 1]), more[|more| - 1]);
    }
  }

  lemma RunFromSnoc(w: World, s: State, more: seq<Action>, a: Action)
    ensures RunFrom(w, s, more + [a]) == Step(w, RunFrom(w, s, more), a)
  {
    assert (more + [a])[..|more + [a]| - 1] == more;
  }

  lemma AwaitedIsOver(w: World, s: State, ref: nat, k: nat)
    requires s.phase.Closing? && s.phase.waiting == Some((ref, k)) && CloserResolved(s, ref, k)
    ensures Step(w, s, MainAwaited) == s.(phase := Closing(s.phase.visited + {ref}, None))
  {
  }

  /** What one more session passed leaves to do. */
  ghost predicate Nearer(w: World, s: State, t: State)
    requires s.phase.Closing?
  {
    Consistent(w, t) && t.phase.Closing? && Distance(t) < Distance(s) && t.shuttingDown == s.shuttingDown
  }

  /** The close() that main awaits can resolve, and then main goes on to the next. */
  lemma PassOne(w: World, s: State) returns (more: seq<Action>)
    requires Real(w) && Consistent(w, s) && s.phase.Closing? && s.phase.waiting.Some?
    ensures Nearer(w, s, RunFrom(w, s, more))
  {
    var (ref, k) := s.phase.waiting.value;
    var first := Release(s, ref, k);
    S.ReachableInvariant(w.lib, s.sessions[ref]);
    ReleaseResolves(w, s, ref, k);
    more := first + [MainAwaited];
    RunFromSnoc(w, s, first, MainAwaited);
    ConsistentFrom(w, s, more);
    AwaitedIsOver(w, RunFrom(w, s, first), ref, k);
    PassedIsNearer(w, s, RunFrom(w, s, more), ref);
  }

  lemma PassedIsNearer(w: World, s: State, t: State, ref: nat)
    requires s.phase.Closing? && s.phase.waiting.Some? && s.phase.waiting.value.0 == ref
    requires Consistent(w, t) && t.shuttingDown == s.shuttingDown && t.table == s.table
    requires t.phase == Closing(s.phase.visited + {ref}, None)
    ensures Nearer(w, s, t)
  {
    assert ToClose(t) == ToClose(s) - {ref};
  }

  lemma StartOne(w: World, s: State, ref: nat)
    requires Real(w) && Consistent(w, s) && s.phase.Closing? && s.phase.waiting.None? && ref in ToClose(s)
    ensures Nearer(w, s, Step(w, s, MainClose(ref)))
  {
    var t := Step(w, s, MainClose(ref));
    ConsistentStep(w, s, MainClose(ref));
    assert t.phase.Closing? && t.phase.visited == s.phase.visited && t.table == s.table;
    assert t.phase.waiting.Some? && t.phase.waiting.value.0 == ref;
    assert ToClose(t) == ToClose(s) && |ToClose(s) - {ref}| == |ToClose(s)| - 1;
  }

  lemma OneStep(w: World, s: State, a: Action)
    ensures RunFrom(w, s, [a]) == Step(w, s, a)
  {
    assert [a][..0] == [];
    assert RunFrom(w, s, []) == s;
  }

  /** One session nearer to the end, while there is one left. */
  lemma GoNearer(w: World, s: State) returns (more: seq<Action>)
    requires Real(w) && Consistent(w, s) && s.phase.Closing? && Distance(s) > 0
    ensures Nearer(w, s, RunFrom(w, s, more))
  {
    if s.phase.waiting.Some? {
      more := PassOne(w, s);
    } else {
      var ref :| ref in ToClose(s);
      StartOne(w, s, ref);
      OneStep(w, s, MainClose(ref));
      more := [MainClose(ref)];
    }
  }

  lemma LeaveNow(w: World, s: State)
    requires s.phase.Closing? && Distance(s) == 0
    ensures RunFrom(w, s, [MainLeave]).phase == if s.shuttingDown then Exited else Finished
  {
    OneStep(w, s, MainLeave);
    assert s.phase.waiting.None? && ToClose(s) == {};
  }

  /** From wherever the loop has been left, main can close what is left to close, drain and be done. */
  lemma {:induction false} CanAlwaysLeaveFrom(w: World, s: State) returns (more: seq<Action>)
    requires Real(w) && Consistent(w, s) && s.phase.Closing?
    ensures RunFrom(w, s, more).phase == if s.shuttingDown then Exited else Finished
    decreases Distance(s)
  {
    if Distance(s) == 0 {
      more := [MainLeave];
      LeaveNow(w, s);
    } else {
      var first := GoNearer(w, s);
      var rest := CanAlwaysLeaveFrom(w, RunFrom(w, s, first));
      RunFromConcat(w, s, first, rest);
      more := first + rest;
    }
  }

  lemma {:induction false} RunOn(w: World, acts: seq<Action>, more: seq<Action>)
    ensures Run(w, acts + more) == RunFrom(w, Run(w, acts), more)
  {
    if more == [] {
      assert acts + more == acts;
    } else {
      var m := |more| - 1;
      assert acts + more == acts + more[..m] + [more[m]];
      RunOn(w, acts, more[..m]);
      Snoc(w, acts + more[..m], more[m]);
    }
  }

  /**
   In every run in which main has left its loop and not yet returned, whatever sessions there are: it
   can close what is left to close, drain the client and be done, with the exit if the flag is set.
   */
  lemma CanAlwaysLeave(w: World, acts: seq<Action>)
    requires Real(w) && Run(w, acts).phase.Closing?
    ensures exists more ::
      Run(w, acts + more).phase == if Run(w, acts).shuttingDown then Exited else Finished
  {
    SessionsAreRuns(w, acts);
    PassedAreClosedInRuns(w, acts);
    var more := CanAlwaysLeaveFrom(w, Run(w, acts));
    RunOn(w, acts, more);
  }

  // A run to the exit ---------------------------------------------------------------------------------

  function AnyRequest(id: int, methodName: string): Action {
    Arrive(Object(Frame(Some(Num(id)), Some(Str(methodName)), None, None, None)), Env(None, false, Null))
  }

  lemma ShutdownArrives(w: World)
    ensures var t := Step(w, Init(w), AnyRequest(0, "shutdown"));
      && t.phase.Running? && !t.shuttingDown
      && t.handlers == [Handler(Num(0), "shutdown", Returning(Dict(map["shuttingDown" := Bool(true)])), None)]
  {
  }

  lemma ShutdownReplies(w: World, s: State, err: Thrown)
    requires Lawful(w.lib) && s.phase.Running? && !s.shuttingDown
    requires s.handlers == [Handler(Num(0), "shutdown", Returning(Dict(map["shuttingDown" := Bool(true)])), None)]
    ensures var t := Step(w, s, Settle(0, err));
      && t.phase.Running? && t.handlers == [Handler(Num(0), "shutdown", Replied(true), None)]
  {
    assert PlainFrame(Reply(Num(0), Dict(map["shuttingDown" := Bool(true)])));
  }

  lemma OneMoreAndOut(w: World, s: State)
    requires s.phase.Running? && s.handlers == [Handler(Num(0), "shutdown", Replied(true), None)]
    ensures var t := Step(w, s, SetFlag(0));
      && t.shuttingDown && t.phase.Running?
      && var u := Step(w, t, AnyRequest(1, "ping")); u.shuttingDown && u.phase == Closing({}, None)
  {
  }

  /** A shutdown request, its reply, one more request: then the process can exit. */
  lemma ShutdownExits(w: World, err: Thrown)
    requires Real(w) && Lawful(w.lib)
    ensures var acts := [AnyRequest(0, "shutdown"), Settle(0, err), SetFlag(0), AnyRequest(1, "ping")];
      && Run(w, acts).phase == Closing({}, None)
      && exists more :: Run(w, acts + more).phase == Exited
  {
    var a, b, c, d := AnyRequest(0, "shutdown"), Settle(0, err), SetFlag(0), AnyRequest(1, "ping");
    FourSteps(w, a, b, c, d);
    ShutdownArrives(w);
    ShutdownReplies(w, Step(w, Init(w), a), err);
    OneMoreAndOut(w, Step(w, Step(w, Init(w), a), b));
    CanAlwaysLeave(w, [a, b, c, d]);
  }

  lemma FourSteps(w: World, a: Action, b: Action, c: Action, d: Action)
    ensures Run(w, [a, b, c, d]) == Step(w, Step(w, Step(w, Step(w, Init(w), a), b), c), d)
  {
    ThreeSteps(w, a, b, c);
    assert [a, b, c] + [d] == [a, b, c, d];
    Snoc(w, [a, b, c], d);
  }
}
