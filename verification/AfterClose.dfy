/** index.ts and session.ts: what is left of a session once its close has finished. */
module AfterClose {
  import opened Basics
  import opened Protocol
  import opened Framing
  import S = Session
  import opened Sidecar
  import opened SessionTable
  import opened WireNotices

  // ---------------------------------------------------------------------------------------------
  // When is a removed session sure to be quiet?
  // ---------------------------------------------------------------------------------------------

  /** The close awaited by the handler h leaves nobody behind: S.OnlyAwaited, of the session it awaits. */
  ghost predicate LeavesNobody(s: State, h: nat) {
    h < |s.handlers| && s.handlers[h].stage.AwaitClose? &&
    var stage := s.handlers[h].stage;
    && stage.ref < |s.sessions| && stage.k < |s.sessions[stage.ref].closers|
    && S.OnlyAwaited(s.sessions[stage.ref], stage.k)
  }

  /** If the handler h has removed a session, then that session is shut and no pump of it runs. */
  ghost predicate RemovedQuiet(s: State, h: nat) {
    h < |s.handlers| && s.handlers[h].removed.Some? ==>
      s.handlers[h].removed.value < |s.sessions| && S.Quiet(s.sessions[s.handlers[h].removed.value])
  }

  /** The handler h awaits, or has seen the end of, the k-th close() of the session ref. */
  ghost predicate Underway(s: State, h: nat, ref: nat, k: nat) {
    && h < |s.handlers| && ref < |s.sessions| && k < |s.sessions[ref].closers|
    && S.OnlyAwaited(s.sessions[ref], k)
    && (s.handlers[h].stage.AwaitClose? ==> s.handlers[h].stage.ref == ref && s.handlers[h].stage.k == k)
    && (s.handlers[h].removed.Some? ==> s.handlers[h].removed == Some(ref) && S.Resolved(s.sessions[ref], k))
  }

  lemma SessionUnderway(w: World, x: S.State, y: S.State, k: nat)
    requires Real(w) && S.Reachable(w.lib, x) && SessionMoves(w, x, y, false)
    requires k < |x.closers| && S.OnlyAwaited(x, k)
    ensures k < |y.closers| && S.OnlyAwaited(y, k)
    ensures S.Resolved(x, k) ==> S.Resolved(y, k)
  {
    if y != x {
      var a: S.Action :| (a.Resume? ==> false) && y == w.perform(x, a);
      assert y == S.Step(w.lib, x, a);
      S.ReachableInvariant(w.lib, x);
      S.StepMoves(w.lib, x, a);
      S.ResumedByResume(w.lib, x, a);
      S.OnlyAwaitedKept(x, y, k);
      S.ResolvedStays(w.lib, x, a);
    }
  }

  lemma UnderwayKept(w: World, s: State, t: State, h: nat, ref: nat, k: nat)
    requires Real(w) && Sound(w, s) && Underway(s, h, ref, k)
    requires SessionsMove(w, s, t, false)
    requires TableStays(s, t) || TableGrows(s, t) || TableShrinks(s, t)
    ensures Underway(t, h, ref, k)
  {
    SessionUnderway(w, s.sessions[ref], t.sessions[ref], k);
    if TableShrinks(s, t) {
      var i: nat, x :| i < |s.handlers| && s.handlers[i].stage.AwaitClose?
        && CloserResolved(s, s.handlers[i].stage.ref, s.handlers[i].stage.k)
        && t.handlers == s.handlers[i := x] && t.sessions == s.sessions
        && x.removed == Some(s.handlers[i].stage.ref) && !x.stage.AwaitClose?;
    }
  }

  lemma {:induction false} UnderwayStays(w: World, s: State, more: seq<Action>, h: nat, ref: nat, k: nat)
    requires Real(w) && Sound(w, s) && Underway(s, h, ref, k)
    requires forall i :: 0 <= i < |more| ==> !IsResumeRequest(more[i])
    ensures var t := RunFrom(w, s, more); Sound(w, t) && Underway(t, h, ref, k)
  {
    if more != [] {
      var m := |more| - 1;
      UnderwayStays(w, s, more[..m], h, ref, k);
      var t := RunFrom(w, s, more[..m]);
      RealKeepsIds(w);
      StepMovesSessions(w, t, more[m]);
      StepMovesTable(w, t, more[m]);
      SoundKept(w, t, Step(w, t, more[m]), false);
      UnderwayKept(w, t, Step(w, t, more[m]), h, ref, k);
    }
  }

  lemma QuietWhenRemoved(w: World, s: State, h: nat, ref: nat, k: nat)
    requires Sound(w, s) && Underway(s, h, ref, k)
    ensures RemovedQuiet(s, h)
  {
    S.ReachableInvariant(w.lib, s.sessions[ref]);
    S.QuietOnceResolved(s.sessions[ref], k);
  }

  lemma FinishNow(w: World, s: State, h: nat)
    requires !Over(s) && h < |s.handlers| && CanFinishClose(s, h)
    ensures var t := Step(w, s, CloseDone(h));
      t.sessions == s.sessions && |t.handlers| == |s.handlers| && t.handlers[h].removed == Some(s.handlers[h].stage.ref)
  {
  }

  /** Otherwise the close can be over while the session is open, or a pump of it runs. */
  lemma RemovedLoud(w: World, s: State, h: nat) returns (more: seq<Action>)
    requires Real(w) && Sound(w, s) && !Over(s) && h < |s.handlers| && s.handlers[h].stage.AwaitClose?
    requires !LeavesNobody(s, h)
    ensures forall i :: 0 <= i < |more| ==> !IsResumeRequest(more[i])
    ensures !RemovedQuiet(RunFrom(w, s, more), h)
  {
    var ref, k := s.handlers[h].stage.ref, s.handlers[h].stage.k;
    var release := Release(s, ref, k);
    var t := RunFrom(w, s, release);
    S.ReachableInvariant(w.lib, s.sessions[ref]);
    ReleaseResolves(w, s, ref, k);
    S.StillLoud(s.sessions[ref], t.sessions[ref], k);
    more := release + [CloseDone(h)];
    assert more[..|more| - 1] == release;
    assert t.handlers == s.handlers;
    FinishNow(w, t, h);
  }

  /**
   A close in flight is sure to leave the session it removes shut and with no pump running, whatever
   happens short of a resume request, if and only if the session is shut and no pump of it runs but
   the one awaited. A resume between a close and its end breaks this, and so does a pump from before
   an earlier resume.
   */
  lemma RemovalIsQuietIff(w: World, acts: seq<Action>, h: nat)
    requires Real(w) && !Over(Run(w, acts))
    requires h < |Run(w, acts).handlers| && Run(w, acts).handlers[h].stage.AwaitClose?
    ensures LeavesNobody(Run(w, acts), h) <==>
      forall more: seq<Action> :: (forall i :: 0 <= i < |more| ==> !IsResumeRequest(more[i])) ==>
        RemovedQuiet(RunFrom(w, Run(w, acts), more), h)
  {
    var s := Run(w, acts);
    SessionsAreRuns(w, acts);
    if LeavesNobody(s, h) {
      var ref, k := s.handlers[h].stage.ref, s.handlers[h].stage.k;
      forall more: seq<Action> | forall i :: 0 <= i < |more| ==> !IsResumeRequest(more[i])
        ensures RemovedQuiet(RunFrom(w, s, more), h)
      {
        UnderwayStays(w, s, more, h, ref, k);
        QuietWhenRemoved(w, RunFrom(w, s, more), h, ref, k);
      }
    } else {
      var more := RemovedLoud(w, s, h);
    }
  }

  // A removed session that lives on -----------------------------------------------------------------

  /** The table holds one session; from the second request on, a close of it is in flight. */
  ghost predicate Only(s: State, sid: string, x: S.State) {
    && s.phase.Running? && !s.shuttingDown
    && s.table == map[sid := 0] && s.sessions == [x]
    && s.handlers != []
    && (|s.handlers| > 1 ==> s.handlers[1].stage == AwaitClose(sid, 0, 0))
  }

  lemma OnlyCreated(w: World, sid: string)
    requires sid != ""
    ensures var t := Step(w, Init(w), CreateRequest(sid)); Only(t, sid, S.Init(sid)) && |t.handlers| == 1
  {
    CreateSucceeds(w, Init(w), sid);
  }

  lemma OnlyClosing(w: World, s: State, sid: string, x: S.State)
    requires Real(w) && Only(s, sid, x) && |s.handlers| == 1
    requires |S.Step(w.lib, x, S.CloseBegin).closers| == 1
    ensures var t := Step(w, s, RequestFor(SESSION_CLOSE, sid));
      Only(t, sid, S.Step(w.lib, x, S.CloseBegin)) && |t.handlers| == 2
  {
    CloseRequested(w, s, sid, 0);
    assert w.perform(x, S.CloseBegin) == S.Step(w.lib, x, S.CloseBegin);
  }

  lemma OnlyResumed(w: World, s: State, sid: string, x: S.State)
    requires Real(w) && Only(s, sid, x) && |s.handlers| > 1
    ensures var t := Step(w, s, RequestFor(SESSION_RESUME, sid));
      Only(t, sid, S.Step(w.lib, x, S.Resume(true))) && |t.handlers| > 1
  {
    DistinctMethods();
    assert Lookup(s, Dict(map["sessionId" := Str(sid)])) == Some((sid, 0));
    assert w.perform(x, S.Resume(true)) == S.Step(w.lib, x, S.Resume(true));
  }

  lemma OnlyGoesOn(w: World, s: State, sid: string, x: S.State, a: S.Action)
    requires Real(w) && Only(s, sid, x) && |s.handlers| > 1 && S.Background(a)
    ensures var t := Step(w, s, OnSession(0, a)); Only(t, sid, S.Step(w.lib, x, a)) && |t.handlers| > 1
  {
    assert w.perform(x, a) == S.Step(w.lib, x, a);
  }

  /**
   Such a run: created, being closed, resumed, the old pump fails, the close ends. The session is off
   the table, open, and its new query lives.
   */
  lemma RemovedSessionLivesOn(w: World, sid: string) returns (acts: seq<Action>)
    requires Real(w) && sid != ""
    ensures var s := Run(w, acts);
      && s.table == map[] && |s.sessions| == 1 && |s.handlers| > 1 && s.handlers[1].removed == Some(0)
      && !s.sessions[0].closed && s.sessions[0].pumps == [S.Ended, S.Iterating]
  {
    var a := S.Step(w.lib, S.Init(sid), S.CloseBegin);
    var b := S.Step(w.lib, a, S.Resume(true));
    var c := S.Step(w.lib, b, S.Throw(0, ""));
    var d := S.Step(w.lib, c, S.CloseFinish(0));
    S.ResumedWhileClosing(w.lib, sid);
    acts := [CreateRequest(sid)];
    Snoc(w, [], CreateRequest(sid));
    assert [] + acts == acts;
    OnlyCreated(w, sid);
    OnlyClosing(w, Run(w, acts), sid, S.Init(sid));
    acts := Then(w, acts, RequestFor(SESSION_CLOSE, sid));
    OnlyResumed(w, Run(w, acts), sid, a);
    acts := Then(w, acts, RequestFor(SESSION_RESUME, sid));
    OnlyGoesOn(w, Run(w, acts), sid, b, S.Throw(0, ""));
    acts := Then(w, acts, OnSession(0, S.Throw(0, "")));
    OnlyGoesOn(w, Run(w, acts), sid, c, S.CloseFinish(0));
    acts := Then(w, acts, OnSession(0, S.CloseFinish(0)));
    OnlyFinished(w, Run(w, acts), sid, d);
    acts := Then(w, acts, CloseDone(1));
  }

  lemma OnlyFinished(w: World, s: State, sid: string, x: S.State)
    requires Only(s, sid, x) && |s.handlers| > 1 && S.Resolved(x, 0)
    ensures var t := Step(w, s, CloseDone(1));
      t.table == map[] && t.sessions == [x] && |t.handlers| > 1 && t.handlers[1].removed == Some(0)
  {
    assert map[sid := 0] - {sid} == map[];
  }

  lemma Then(w: World, acts: seq<Action>, a: Action) returns (r: seq<Action>)
    ensures Run(w, r) == Step(w, Run(w, acts), a)
  {
    Snoc(w, acts, a);
    r := acts + [a];
  }

  // ---------------------------------------------------------------------------------------------
  // The pipe after the reply to a close
  // ---------------------------------------------------------------------------------------------

  /** The handler h is closing, or has removed, the session ref. */
  predicate Ends(s: State, h: int, ref: nat) {
    && 0 <= h < |s.handlers|
    && (s.handlers[h].removed == Some(ref) || (s.handlers[h].stage.AwaitClose? && s.handlers[h].stage.ref == ref))
  }

  /**
   While the loop runs, a session's close() has been called only by a handler that is closing it or
   has removed it; and each of these made the first such call.
   */
  ghost predicate FirstClosers(s: State) {
    && (s.phase.Running? ==> forall ref: nat :: ref < |s.sessions| && s.sessions[ref].closers != [] ==>
          exists h :: Ends(s, h, ref))
    && (forall h :: 0 <= h < |s.handlers| && s.handlers[h].stage.AwaitClose? ==> s.handlers[h].stage.k == 0)
  }

  /** Who has called close() in a step that leaves the loop running. */
  ghost predicate ClosersGrow(s: State, t: State) {
    && (t.phase.Running? ==>
          && s.phase.Running? && |s.sessions| <= |t.sessions|
          && (forall r: nat :: r < |s.sessions| && t.sessions[r].closers != [] && s.sessions[r].closers == [] ==>
                |s.handlers| < |t.handlers| && Ends(t, |s.handlers|, r))
          && (forall r :: |s.sessions| <= r < |t.sessions| ==> t.sessions[r].closers == []))
    && (forall h :: |s.handlers| <= h < |t.handlers| && t.handlers[h].stage.AwaitClose? ==>
          && t.handlers[h].stage.ref < |s.sessions|
          && t.handlers[h].stage.k == |s.sessions[t.handlers[h].stage.ref].closers|)
  }

  predicate GrowBy(s: State, t: State, r: nat, n: nat)
    requires r < |s.sessions| <= |t.sessions|
  {
    |t.sessions[r].closers| == |s.sessions[r].closers| + n
  }

  lemma PerformGrows(w: World, s: State, ref: nat, a: S.Action)
    requires Real(w)
    ensures var t := Perform(w, s, ref, a);
      && |t.sessions| == |s.sessions|
      && (forall r: nat :: r < |s.sessions| && !(r == ref && a.CloseBegin?) ==> GrowBy(s, t, r, 0))
      && (ref < |s.sessions| && a.CloseBegin? ==> GrowBy(s, t, ref, 1))
  {
    if ref < |s.sessions| {
      S.ClosersGrowBy(w.lib, s.sessions[ref], a);
      assert w.perform(s.sessions[ref], a) == S.Step(w.lib, s.sessions[ref], a);
    }
  }

  /** Of the requests only session.close calls close(), on the session it then awaits. */
  ghost predicate DispatchCloses(s: State, t: State, stage: Stage) {
    && |s.sessions| <= |t.sessions|
    && (forall r :: |s.sessions| <= r < |t.sessions| ==> t.sessions[r].closers == [])
    && (forall r: nat :: r < |s.sessions| && !(stage.AwaitClose? && stage.ref == r) ==> GrowBy(s, t, r, 0))
    && (stage.AwaitClose? ==> stage.ref < |s.sessions| && stage.k == |s.sessions[stage.ref].closers|)
  }

  lemma DispatchGrows(w: World, s: State, methodName: string, params: Json, env: Env)
    requires Real(w)
    requires forall sid :: sid in s.table ==> s.table[sid] < |s.sessions|
    ensures var (t, stage) := Dispatch(w, s, methodName, params, env); DispatchCloses(s, t, stage)
  {
    if Lookup(s, params).Some? {
      var ref := Lookup(s, params).value.1;
      if methodName == SESSION_SEND {
        SendGrows(w, s, ref, params);
      } else if methodName == SESSION_CONTROL {
        ControlGrows(w, s, ref, params, env.known);
      } else if methodName == SESSION_RESUME {
        PerformGrows(w, s, ref, S.Resume(env.queryThrows.None?));
      } else {
        PerformGrows(w, s, ref, S.CloseBegin);
      }
    }
  }

  lemma SendGrows(w: World, s: State, ref: nat, params: Json)
    requires Real(w)
    ensures var (t, stage) := Send(w, s, ref, params); DispatchCloses(s, t, stage)
  {
    var content := if Get(params, "content").Some? then Get(params, "content").value else Null;
    PerformGrows(w, s, ref, S.Send(content, Get(params, "turnId")));
  }

  lemma ControlGrows(w: World, s: State, ref: nat, params: Json, known: bool)
    requires Real(w)
    ensures var (t, stage) := Control(w, s, ref, params, known); DispatchCloses(s, t, stage)
  {
    var name := match Get(params, "method") case Some(Str(m)) => m case _ => "";
    PerformGrows(w, s, ref, S.Control(name, Get(params, "args"), known));
  }

  lemma ArriveGrows(w: World, s: State, v: Value, env: Env)
    requires Real(w)
    requires forall sid :: sid in s.table ==> s.table[sid] < |s.sessions|
    ensures ClosersGrow(s, ArriveStep(w, s, v, env))
  {
    var route := RouteOf(w.lib, s.rpc, v);
    if s.phase.Running? && route.Dispatched? {
      var fed := s.(rpc := FeedValue(w.lib, s.rpc, v));
      DispatchGrows(w, fed, route.methodName, route.params, env);
      var (u, stage) := Dispatch(w, fed, route.methodName, route.params, env);
      AcceptGrows(s, u, ArriveStep(w, s, v, env), Handler(route.id, route.methodName, stage, None));
    }
  }

  lemma AcceptGrows(s: State, u: State, t: State, x: Handler)
    requires DispatchCloses(s, u, x.stage)
    requires t.sessions == u.sessions && t.handlers == s.handlers + [x] && s.phase.Running?
    ensures ClosersGrow(s, t)
  {
    assert t.handlers[|s.handlers|] == x;
    forall r: nat | r < |s.sessions| && t.sessions[r].closers != [] && s.sessions[r].closers == []
      ensures Ends(t, |s.handlers|, r)
    {
      assert !GrowBy(s, u, r, 0);
    }
  }

  lemma StepGrowsClosers(w: World, s: State, a: Action)
    requires Real(w)
    requires forall sid :: sid in s.table ==> s.table[sid] < |s.sessions|
    ensures ClosersGrow(s, Step(w, s, a))
  {
    var t := Step(w, s, a);
    RunningBefore(w, s, a);
    match a
    case Arrive(v, env) => ArriveGrows(w, s, v, env);
    case OnSession(ref, act) => BackgroundGrows(w, s, ref, act);
    case MainClose(ref) => assert t == s || !t.phase.Running?;
    case _ => assert t.sessions == s.sessions;
  }

  lemma BackgroundGrows(w: World, s: State, ref: nat, a: S.Action)
    requires Real(w)
    ensures S.Background(a) ==> ClosersGrow(s, Perform(w, s, ref, a))
  {
    PerformGrows(w, s, ref, a);
  }

  /** With single closers, whoever begins to close a session is the first to do so. */
  lemma NewCloserIsFirst(s: State, t: State, h: nat)
    requires FirstClosers(s) && RoutingOk(s) && RoutingOk(t) && SingleCloser(t)
    requires ClosersGrow(s, t) && s.phase.Running?
    requires |s.handlers| <= |t.handlers| && t.handlers[..|s.handlers|] == s.handlers
    requires |s.handlers| <= h < |t.handlers| && t.handlers[h].stage.AwaitClose?
    ensures t.handlers[h].stage.k == 0
  {
    var ref, sid := t.handlers[h].stage.ref, t.handlers[h].stage.sid;
    assert Closes(t, h, sid) && Routes(t, ref);
    if s.sessions[ref].closers != [] {
      var i :| Ends(s, i, ref);
      assert t.handlers[i] == s.handlers[i];
      assert !RemovedBy(t, i, ref);
      assert Closes(t, i, sid);
    }
  }

  lemma EndsKept(s: State, t: State, h: int, ref: nat)
    requires Ends(s, h, ref) && RoutingOk(s)
    requires TableStays(s, t) || TableGrows(s, t) || TableShrinks(s, t)
    ensures Ends(t, h, ref)
  {
  }

  /** A handler beyond those there were is new, and it was added to them. */
  ghost predicate Added(s: State, t: State) {
    |t.handlers| == |s.handlers| ||
    (s.phase.Running? && |s.handlers| < |t.handlers| && t.handlers[..|s.handlers|] == s.handlers)
  }

  lemma FirstClosersKept(s: State, t: State)
    requires FirstClosers(s) && RoutingOk(s) && RoutingOk(t) && SingleCloser(t)
    requires |s.handlers| <= |t.handlers| && Added(s, t) && ClosersGrow(s, t)
    requires TableStays(s, t) || TableGrows(s, t) || TableShrinks(s, t)
    ensures FirstClosers(t)
  {
    forall h | 0 <= h < |t.handlers| && t.handlers[h].stage.AwaitClose? ensures t.handlers[h].stage.k == 0 {
      if h >= |s.handlers| { NewCloserIsFirst(s, t, h); }
    }
    if t.phase.Running? {
      forall ref: nat | ref < |t.sessions| && t.sessions[ref].closers != [] ensures exists h :: Ends(t, h, ref) {
        if ref < |s.sessions| && s.sessions[ref].closers != [] {
          var h :| Ends(s, h, ref);
          EndsKept(s, t, h, ref);
        } else {
          assert Ends(t, |s.handlers|, ref);
        }
      }
    }
  }

  /** A session that its close has removed, and that was never resumed, has no pump left. */
  ghost predicate RemovedForGood(s: State) {
    forall h, ref: nat :: RemovedBy(s, h, ref) && ref < |s.sessions| && S.NeverResumed(s.sessions[ref].log) ==>
      S.NoneLive(s.sessions[ref])
  }

  lemma SessionGoneKept(w: World, x: S.State, y: S.State, resuming: bool)
    requires Real(w) && S.Reachable(w.lib, x) && SessionMoves(w, x, y, resuming)
    requires S.NeverResumed(y.log)
    ensures S.NeverResumed(x.log)
    ensures S.NoneLive(x) ==> S.NoneLive(y) && NoticesOf(y.sid, y.log) == NoticesOf(x.sid, x.log)
  {
    if y != x {
      var a :| y == w.perform(x, a);
      assert y == S.Step(w.lib, x, a);
      S.NeverResumedBefore(w.lib, x, a);
      S.ReachableInvariant(w.lib, x);
      if S.NoneLive(x) {
        S.NoneLiveStep(w.lib, x, a);
        NoticesAfterStep(w.lib, x, a);
      }
    }
  }

  /** Removed in this step: its first close() had resolved. */
  lemma JustRemoved(w: World, s: State, t: State, h: int, ref: nat)
    requires Sound(w, s) && FirstClosers(s) && TableShrinks(s, t)
    requires RemovedBy(t, h, ref) && !RemovedBy(s, h, ref)
    requires ref < |t.sessions| && S.NeverResumed(t.sessions[ref].log)
    ensures S.NoneLive(t.sessions[ref])
  {
    var i: nat, x :| i < |s.handlers| && s.handlers[i].stage.AwaitClose?
      && CloserResolved(s, s.handlers[i].stage.ref, s.handlers[i].stage.k)
      && t.handlers == s.handlers[i := x] && t.sessions == s.sessions
      && x.removed == Some(s.handlers[i].stage.ref);
    assert h == i && s.handlers[i].stage.k == 0;
    S.FirstCloseLeavesNone(w.lib, s.sessions[ref]);
  }

  lemma RemovedForGoodKept(w: World, s: State, t: State, resuming: bool)
    requires Real(w) && Sound(w, s) && FirstClosers(s) && RoutingOk(s) && RemovedForGood(s)
    requires SessionsMove(w, s, t, resuming)
    requires TableStays(s, t) || TableGrows(s, t) || TableShrinks(s, t)
    ensures RemovedForGood(t)
  {
    forall h, ref: nat | RemovedBy(t, h, ref) && ref < |t.sessions| && S.NeverResumed(t.sessions[ref].log)
      ensures S.NoneLive(t.sessions[ref])
    {
      if RemovedBy(s, h, ref) {
        SessionGoneKept(w, s.sessions[ref], t.sessions[ref], resuming);
      } else {
        JustRemoved(w, s, t, h, ref);
      }
    }
  }

  ghost predicate SingleClosers(w: World, acts: seq<Action>) {
    forall i :: 0 <= i <= |acts| ==> SingleCloser(Run(w, acts[..i]))
  }

  lemma SingleClosersBefore(w: World, acts: seq<Action>)
    requires SingleClosers(w, acts) && acts != []
    ensures SingleClosers(w, acts[..|acts| - 1])
    ensures SingleCloser(Run(w, acts[..|acts| - 1])) && SingleCloser(Run(w, acts))
  {
    var pre := acts[..|acts| - 1];
    forall i | 0 <= i <= |pre| ensures SingleCloser(Run(w, pre[..i])) {
      assert pre[..i] == acts[..i];
    }
    assert pre[..|pre|] == pre && acts[..|acts|] == acts;
  }

  lemma RoutingWithSingleClosers(w: World, acts: seq<Action>)
    requires KeepsIds(w) && SingleClosers(w, acts)
    ensures RoutingOk(Run(w, acts))
  {
    TableSafety(w, acts);
  }

  lemma StepAdds(w: World, s: State, a: Action)
    ensures var t := Step(w, s, a); |s.handlers| <= |t.handlers| && Added(s, t)
  {
    HandlersOnlyByArrive(w, s, a);
  }

  lemma {:induction false} RemovedForGoodInRuns(w: World, acts: seq<Action>)
    requires Real(w) && SingleClosers(w, acts)
    ensures FirstClosers(Run(w, acts)) && RemovedForGood(Run(w, acts))
  {
    if acts != [] {
      var pre, a := acts[..|acts| - 1], acts[|acts| - 1];
      var s, t := Run(w, pre), Run(w, acts);
      RealKeepsIds(w);
      SingleClosersBefore(w, acts);
      RemovedForGoodInRuns(w, pre);
      RoutingWithSingleClosers(w, pre);
      RoutingWithSingleClosers(w, acts);
      SessionsAreRuns(w, pre);
      StepMovesTable(w, s, a);
      StepMovesSessions(w, s, a);
      StepGrowsClosers(w, s, a);
      StepAdds(w, s, a);
      FirstClosersKept(s, t);
      RemovedForGoodKept(w, s, t, IsResumeRequest(a));
    }
  }

  // What is on the pipe ---------------------------------------------------------------------------

  lemma {:induction false} NoReplyNoEntry(log: seq<Record>, h: nat)
    requires RepliesBy(log, h) == []
    ensures forall i :: 0 <= i < |log| ==> log[i].origin != ByHandler(h)
  {
    if log != [] { NoReplyNoEntry(log[..|log| - 1], h); }
  }

  lemma {:induction false} NothingMoreSaid(log: seq<Record>, i: nat, j: nat, ref: nat)
    requires i <= j < |log| && SaidBy(log, ref) == SaidBy(log[..i], ref)
    ensures log[j].origin != BySession(ref)
  {
    var pre := log[..|log| - 1];
    if i < |log| {
      SaidGrows(log, i, ref);
      assert pre[..i] == log[..i];
      SaidGrows(pre, i, ref);
      if j < |pre| {
        NothingMoreSaid(pre, i, j, ref);
      }
    }
  }

  lemma {:induction false} SaidGrows(log: seq<Record>, i: nat, ref: nat)
    requires i <= |log|
    ensures |SaidBy(log[..i], ref)| <= |SaidBy(log, ref)|
    ensures |SaidBy(log[..i], ref)| == |SaidBy(log, ref)| ==> SaidBy(log[..i], ref) == SaidBy(log, ref)
  {
    if i == |log| {
      assert log[..i] == log;
    } else {
      var pre := log[..|log| - 1];
      assert pre[..i] == log[..i];
      SaidGrows(pre, i, ref);
    }
  }

  /** All that a removed session says it has said before the reply to its close. */
  ghost predicate SaidBeforeReply(s: State, h: nat, ref: nat) {
    forall i :: 0 <= i < |s.out.log| && s.out.log[i].origin == ByHandler(h) ==>
      SaidBy(s.out.log[..i], ref) == SaidBy(s.out.log, ref)
  }

  ghost predicate LogGrows(s: State, t: State) {
    t.out.log == s.out.log || (|t.out.log| == |s.out.log| + 1 && t.out.log[..|s.out.log|] == s.out.log)
  }

  lemma StepGrowsLog(w: World, s: State, a: Action)
    ensures LogGrows(s, Step(w, s, a))
  {
    StepMovesHandlers(w, s, a);
    var t := Step(w, s, a);
    if t.out != s.out {
      var origin, f :| t.out == Write(w.lib, s.out, origin, f);
    }
  }

  lemma SaidBeforeReplyKept(s: State, t: State, h: nat, ref: nat)
    requires SaidBeforeReply(s, h, ref) && LogGrows(s, t)
    requires SaidBy(t.out.log, ref) == SaidBy(s.out.log, ref)
    ensures SaidBeforeReply(t, h, ref)
  {
    forall i | 0 <= i < |t.out.log| && t.out.log[i].origin == ByHandler(h)
      ensures SaidBy(t.out.log[..i], ref) == SaidBy(t.out.log, ref)
    {
      if i < |s.out.log| {
        assert t.out.log[..i] == s.out.log[..i] && t.out.log[i] == s.out.log[i];
      }
    }
  }

  lemma NotReplied(s: State, h: nat, ref: nat)
    requires OneReplyEach(s) && RepliedAt(s.handlers, h).None?
    ensures SaidBeforeReply(s, h, ref)
  {
    assert RepliesRight(RepliedAt(s.handlers, h), RepliesBy(s.out.log, h));
    NoReplyNoEntry(s.out.log, h);
  }

  lemma {:induction false} SaidBeforeReplyInRuns(w: World, acts: seq<Action>, h: nat, ref: nat)
    requires Real(w) && Lawful(w.lib) && SingleClosers(w, acts)
    requires ref < |Run(w, acts).sessions| && S.NeverResumed(Run(w, acts).sessions[ref].log)
    requires RemovedBy(Run(w, acts), h, ref)
    ensures SaidBeforeReply(Run(w, acts), h, ref)
  {
    if acts != [] {
      var pre, a := acts[..|acts| - 1], acts[|acts| - 1];
      var s, t := Run(w, pre), Run(w, acts);
      RealKeepsIds(w);
      SingleClosersBefore(w, acts);
      StepMovesTable(w, s, a);
      if RemovedBy(s, h, ref) {
        RoutingWithSingleClosers(w, pre);
        SessionsAreRuns(w, pre);
        StepMovesSessions(w, s, a);
        SessionGoneKept(w, s.sessions[ref], t.sessions[ref], IsResumeRequest(a));
        SaidBeforeReplyInRuns(w, pre, h, ref);
        RemovedForGoodInRuns(w, pre);
        PipeCarriesNotices(w, pre);
        PipeCarriesNotices(w, acts);
        StepGrowsLog(w, s, a);
        SaidBeforeReplyKept(s, t, h, ref);
      } else {
        ExactlyOneReply(w, acts);
        NotReplied(t, h, ref);
      }
    }
  }

  /**
   With single closers: after the reply to the close that removed a never-resumed session, the pipe
   carries no frame of that session, ever.
   */
  lemma NothingAfterClosedReply(w: World, acts: seq<Action>, h: nat, ref: nat, i: nat, j: nat)
    requires Real(w) && Lawful(w.lib) && SingleClosers(w, acts)
    requires RemovedBy(Run(w, acts), h, ref)
    requires ref < |Run(w, acts).sessions| && S.NeverResumed(Run(w, acts).sessions[ref].log)
    requires i < j < |Run(w, acts).out.log| && Run(w, acts).out.log[i].origin == ByHandler(h)
    ensures Run(w, acts).out.log[j].origin != BySession(ref)
  {
    SaidBeforeReplyInRuns(w, acts, h, ref);
    NothingMoreSaid(Run(w, acts).out.log, i, j, ref);
  }

  // ---------------------------------------------------------------------------------------------
  // When is a removed session silent for good?
  // ---------------------------------------------------------------------------------------------

  /** No request reaches a session that is not in the table, so nobody resumes it. */
  lemma UnroutedNotResumed(w: World, s: State, a: Action, ref: nat)
    requires ref < |s.sessions| && ref !in s.table.Values
    ensures var t := Step(w, s, a); ref < |t.sessions| && SessionMoves(w, s.sessions[ref], t.sessions[ref], false)
  {
    match a
    case Arrive(v, env) =>
      var r := RouteOf(w.lib, s.rpc, v);
      if !Over(s) && s.phase.Running? && r.Dispatched? {
        DispatchLeavesUnrouted(w, s.(rpc := FeedValue(w.lib, s.rpc, v)), r.methodName, r.params, env, ref);
      }
    case OnSession(r, act) => PerformMovesOne(w, s, r, act, ref);
    case MainClose(r) => PerformMovesOne(w, s, r, S.CloseBegin, ref);
    case _ =>
  }

  lemma PerformMovesOne(w: World, s: State, r: nat, a: S.Action, ref: nat)
    requires ref < |s.sessions|
    ensures var t := Perform(w, s, r, a);
      && ref < |t.sessions|
      && (r != ref ==> t.sessions[ref] == s.sessions[ref])
      && SessionMoves(w, s.sessions[ref], t.sessions[ref], a.Resume?)
  {
    if r == ref {
      assert Perform(w, s, r, a).sessions[ref] == w.perform(s.sessions[ref], a);
    }
  }

  lemma DispatchLeavesUnrouted(w: World, s: State, methodName: string, params: Json, env: Env, ref: nat)
    requires ref < |s.sessions| && ref !in s.table.Values
    ensures var t := Dispatch(w, s, methodName, params, env).0;
      ref < |t.sessions| && t.sessions[ref] == s.sessions[ref]
  {
    if Lookup(s, params).Some? {
      var r := Lookup(s, params).value.1;
      assert r in s.table.Values;
      forall a
        ensures var t := Perform(w, s, r, a); ref < |t.sessions| && t.sessions[ref] == s.sessions[ref]
      {
        PerformMovesOne(w, s, r, a, ref);
      }
    }
  }

  lemma RemovedIsUnrouted(s: State, h: int, ref: nat)
    requires RoutingOk(s) && RemovedBy(s, h, ref) && ref < |s.sessions|
    ensures ref !in s.table.Values
  {
    if ref in s.table.Values {
      var sid :| sid in s.table && s.table[sid] == ref;
      assert Routes(s, ref);
    }
  }

  lemma SilentSessionStep(w: World, x: S.State, y: S.State)
    requires Real(w) && S.Reachable(w.lib, x) && S.NoneLive(x) && SessionMoves(w, x, y, false)
    ensures S.NoneLive(y) && NoticesOf(y.sid, y.log) == NoticesOf(x.sid, x.log)
  {
    if y != x {
      var a: S.Action :| (a.Resume? ==> false) && y == w.perform(x, a);
      assert y == S.Step(w.lib, x, a);
      S.ReachableInvariant(w.lib, x);
      S.NoneLiveStep(w.lib, x, a);
      NoticesAfterStep(w.lib, x, a);
    }
  }

  /** A session off the table, with no pump left: nothing of it is on the pipe beyond what is there. */
  ghost predicate SilentSince(w: World, s: State, t: State, h: nat, ref: nat) {
    && RemovedBy(t, h, ref) && ref < |s.sessions| <= |t.sessions| && S.NoneLive(t.sessions[ref])
    && s.out.log <= t.out.log
    && SaidBy(t.out.log, ref) == SaidBy(s.out.log, ref)
  }

  lemma SilentSinceKept(w: World, acts: seq<Action>, a: Action, s: State, h: nat, ref: nat)
    requires Real(w) && Lawful(w.lib) && SingleClosers(w, acts)
    requires SilentSince(w, s, Run(w, acts), h, ref)
    ensures SilentSince(w, s, Run(w, acts + [a]), h, ref)
  {
    var t := Run(w, acts);
    var u := Step(w, t, a);
    Snoc(w, acts, a);
    RealKeepsIds(w);
    RoutingWithSingleClosers(w, acts);
    RemovedIsUnrouted(t, h, ref);
    SessionsAreRuns(w, acts);
    UnroutedNotResumed(w, t, a, ref);
    SilentSessionStep(w, t.sessions[ref], u.sessions[ref]);
    PipeCarriesNotices(w, acts);
    PipeCarriesNotices(w, acts + [a]);
    StepGrowsLog(w, t, a);
    StepMovesTable(w, t, a);
    RemovedStays(t, u, h, ref);
    StepMovesSessions(w, t, a);
  }

  lemma RemovedStays(s: State, t: State, h: int, ref: nat)
    requires RoutingOk(s) && RemovedBy(s, h, ref)
    requires TableStays(s, t) || TableGrows(s, t) || TableShrinks(s, t)
    ensures RemovedBy(t, h, ref)
  {
    assert Ends(s, h, ref);
  }

  lemma {:induction false} SilentFromThenOn(w: World, acts: seq<Action>, more: seq<Action>, h: nat, ref: nat)
    requires Real(w) && Lawful(w.lib) && SingleClosers(w, acts + more)
    requires RemovedBy(Run(w, acts), h, ref) && ref < |Run(w, acts).sessions| && S.NoneLive(Run(w, acts).sessions[ref])
    ensures SilentSince(w, Run(w, acts), Run(w, acts + more), h, ref)
  {
    if more == [] {
      assert acts + more == acts;
    } else {
      var m := |more| - 1;
      assert acts + more == acts + more[..m] + [more[m]];
      assert (acts + more)[..|acts + more| - 1] == acts + more[..m];
      SingleClosersBefore(w, acts + more);
      SilentFromThenOn(w, acts, more[..m], h, ref);
      SilentSinceKept(w, acts + more[..m], more[m], Run(w, acts), h, ref);
    }
  }

  /** No frame of the session follows the first n entries of the log. */
  ghost predicate NoFrameAfter(log: seq<Record>, n: nat, ref: nat) {
    forall j :: n <= j < |log| ==> log[j].origin != BySession(ref)
  }

  lemma SilentIsNoFrame(log: seq<Record>, n: nat, ref: nat)
    requires n <= |log| && SaidBy(log, ref) == SaidBy(log[..n], ref)
    ensures NoFrameAfter(log, n, ref)
  {
    forall j | n <= j < |log| ensures log[j].origin != BySession(ref) {
      NothingMoreSaid(log, n, j, ref);
    }
  }

  /** A pump that is still live can put one more frame on the pipe. */
  lemma LiveSessionSpeaks(w: World, acts: seq<Action>, ref: nat) returns (a: Action)
    requires Real(w) && Lawful(w.lib) && SingleClosers(w, acts) && !Over(Run(w, acts))
    requires ref < |Run(w, acts).sessions| && !S.NoneLive(Run(w, acts).sessions[ref])
    ensures SingleClosers(w, acts + [a])
    ensures !NoFrameAfter(Run(w, acts + [a]).out.log, |Run(w, acts).out.log|, ref)
  {
    var s := Run(w, acts);
    var x := s.sessions[ref];
    var g: nat :| g < |x.pumps| && S.Live(x.pumps[g]);
    var act := S.Throw(g, "");
    a := OnSession(ref, act);
    Snoc(w, acts, a);
    S.LivePumpSpeaks(w.lib, x, g);
    SpeaksOnPipe(w, s, ref, act);
    SingleClosersSnoc(w, acts, a);
  }

  lemma SpeaksOnPipe(w: World, s: State, ref: nat, a: S.Action)
    requires Real(w) && Lawful(w.lib) && !Over(s) && S.Background(a) && ref < |s.sessions|
    requires S.Spoken(s.sessions[ref], S.Step(w.lib, s.sessions[ref], a)) != []
    ensures var t := Step(w, s, OnSession(ref, a));
      && t.handlers == s.handlers
      && |t.out.log| == |s.out.log| + 1 && t.out.log[|s.out.log|].origin == BySession(ref)
  {
    assert w.perform(s.sessions[ref], a) == S.Step(w.lib, s.sessions[ref], a);
    S.SpokenEncodes(w.lib, s.sessions[ref], a);
  }

  lemma SameHandlersSingle(s: State, t: State)
    requires SingleCloser(s) && t.handlers == s.handlers
    ensures SingleCloser(t)
  {
    forall h, sid ensures Closes(t, h, sid) == Closes(s, h, sid) {
    }
  }

  lemma SingleClosersSnoc(w: World, acts: seq<Action>, a: Action)
    requires SingleClosers(w, acts) && Run(w, acts + [a]).handlers == Run(w, acts).handlers
    ensures SingleClosers(w, acts + [a])
  {
    var all := acts + [a];
    forall i | 0 <= i <= |all| ensures SingleCloser(Run(w, all[..i])) {
      if i <= |acts| {
        assert all[..i] == acts[..i];
      } else {
        assert acts[..|acts|] == acts && all[..i] == all;
        SameHandlersSingle(Run(w, acts), Run(w, all));
      }
    }
  }

  /**
   With single closers: from a state in which a close has removed the session, for instance the one
   after the reply to that close, no frame of it is ever on the pipe again, however the run goes on,
   if and only if no pump of it is live.
   */
  lemma RemovedIsSilentIff(w: World, acts: seq<Action>, h: nat, ref: nat)
    requires Real(w) && Lawful(w.lib) && SingleClosers(w, acts) && !Over(Run(w, acts))
    requires RemovedBy(Run(w, acts), h, ref) && ref < |Run(w, acts).sessions|
    ensures S.NoneLive(Run(w, acts).sessions[ref]) <==>
      forall more: seq<Action> :: SingleClosers(w, acts + more) ==>
        NoFrameAfter(Run(w, acts + more).out.log, |Run(w, acts).out.log|, ref)
  {
    var s := Run(w, acts);
    if S.NoneLive(s.sessions[ref]) {
      forall more: seq<Action> | SingleClosers(w, acts + more)
        ensures NoFrameAfter(Run(w, acts + more).out.log, |s.out.log|, ref)
      {
        SilentFromThenOn(w, acts, more, h, ref);
        var t := Run(w, acts + more);
        assert t.out.log[..|s.out.log|] == s.out.log;
        SilentIsNoFrame(t.out.log, |s.out.log|, ref);
      }
    } else {
      var a := LiveSessionSpeaks(w, acts, ref);
      assert SingleClosers(w, acts + [a]);
    }
  }
}
