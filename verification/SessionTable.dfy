/** index.ts: which session an id routes to while requests are in flight, and whose close removes it. */
module SessionTable {
  import opened Basics
  import opened Protocol
  import S = Session
  import opened Sidecar

  ghost predicate KeepsIds(w: World) {
    forall s, a :: w.perform(s, a).sid == s.sid
  }

  predicate Closes(s: State, h: int, sid: string) {
    0 <= h < |s.handlers| && s.handlers[h].stage.AwaitClose? && s.handlers[h].stage.sid == sid
  }

  /** No two session.close requests are in flight for one id. */
  ghost predicate SingleCloser(s: State) {
    forall h, i, sid :: Closes(s, h, sid) && Closes(s, i, sid) ==> h == i
  }

  predicate Routes(s: State, ref: nat)
    requires ref < |s.sessions|
  {
    s.sessions[ref].sid in s.table && s.table[s.sessions[ref].sid] == ref
  }

  predicate RemovedBy(s: State, h: int, ref: nat) {
    0 <= h < |s.handlers| && s.handlers[h].removed == Some(ref)
  }

  /**
   Each id routes to a session created for it; a close in flight holds the session its id routes to;
   and a session is routed to exactly until a close that had looked it up has removed it.
   */
  ghost predicate RoutingOk(s: State) {
    && (forall sid :: sid in s.table ==>
          sid != "" && s.table[sid] < |s.sessions| && s.sessions[s.table[sid]].sid == sid)
    && (forall h :: 0 <= h < |s.handlers| && s.handlers[h].stage.AwaitClose? ==>
          && s.handlers[h].removed.None?
          && s.handlers[h].stage.sid in s.table
          && s.table[s.handlers[h].stage.sid] == s.handlers[h].stage.ref)
    && (forall h :: 0 <= h < |s.handlers| && s.handlers[h].removed.Some? ==>
          s.handlers[h].removed.value < |s.sessions|)
    && (forall ref: nat :: ref < |s.sessions| ==>
          (Routes(s, ref) <==> forall h :: !RemovedBy(s, h, ref)))
  }

  /** Handlers already there keep what they removed or close; a new one may hold an entry. */
  ghost predicate ClosersMove(s: State, t: State) {
    && |s.handlers| <= |t.handlers|
    && (forall h :: 0 <= h < |s.handlers| ==>
          && t.handlers[h].removed == s.handlers[h].removed
          && (s.handlers[h].stage.AwaitClose? || t.handlers[h].stage.AwaitClose? ==>
                t.handlers[h].stage == s.handlers[h].stage))
    && (forall h :: |s.handlers| <= h < |t.handlers| ==>
          && t.handlers[h].removed.None?
          && (t.handlers[h].stage.AwaitClose? ==>
                && t.handlers[h].stage.sid in t.table
                && t.table[t.handlers[h].stage.sid] == t.handlers[h].stage.ref))
  }

  ghost predicate SameSessions(s: State, t: State) {
    |t.sessions| == |s.sessions| && forall r :: 0 <= r < |s.sessions| ==> t.sessions[r].sid == s.sessions[r].sid
  }

  ghost predicate TableStays(s: State, t: State) {
    t.table == s.table && SameSessions(s, t) && ClosersMove(s, t)
  }

  ghost predicate TableGrows(s: State, t: State) {
    exists sid :: sid !in s.table && sid != ""
      && t.table == s.table[sid := |s.sessions|] && t.sessions == s.sessions + [S.Init(sid)]
      && ClosersMove(s, t)
  }

  ghost predicate TableShrinks(s: State, t: State) {
    exists h: nat, x :: h < |s.handlers| && s.handlers[h].stage.AwaitClose?
      && CloserResolved(s, s.handlers[h].stage.ref, s.handlers[h].stage.k)
      && t.table == s.table - {s.handlers[h].stage.sid} && t.sessions == s.sessions
      && t.handlers == s.handlers[h := x]
      && x.removed == Some(s.handlers[h].stage.ref) && !x.stage.AwaitClose? && !x.stage.Replied?
  }

  lemma PerformKeepsTable(w: World, s: State, ref: nat, a: S.Action)
    requires KeepsIds(w)
    ensures Perform(w, s, ref, a).table == s.table && SameSessions(s, Perform(w, s, ref, a))
    ensures Perform(w, s, ref, a).handlers == s.handlers
  {
  }

  lemma DispatchTable(w: World, s: State, methodName: string, params: Json, env: Env)
    requires KeepsIds(w)
    ensures var (t, stage) := Dispatch(w, s, methodName, params, env);
      && t.handlers == s.handlers
      && (stage.AwaitClose? ==> stage.sid in t.table && t.table[stage.sid] == stage.ref)
      && (|| (t.table == s.table && SameSessions(s, t))
          || (exists sid :: sid !in s.table && sid != ""
                && t.table == s.table[sid := |s.sessions|] && t.sessions == s.sessions + [S.Init(sid)]))
  {
    var (t, stage) := Dispatch(w, s, methodName, params, env);
    if Lookup(s, params).Some? {
      var (sid, ref) := Lookup(s, params).value;
      forall a ensures Perform(w, s, ref, a).table == s.table && SameSessions(s, Perform(w, s, ref, a))
        ensures Perform(w, s, ref, a).handlers == s.handlers
      {
        PerformKeepsTable(w, s, ref, a);
      }
    }
  }

  lemma ArriveTable(w: World, s: State, v: Value, env: Env)
    requires KeepsIds(w)
    ensures TableStays(s, ArriveStep(w, s, v, env)) || TableGrows(s, ArriveStep(w, s, v, env))
  {
    var r := RouteOf(w.lib, s.rpc, v);
    if s.phase.Running? && r.Dispatched? {
      var fed := s.(rpc := FeedValue(w.lib, s.rpc, v));
      DispatchTable(w, fed, r.methodName, r.params, env);
      var stage := Dispatch(w, fed, r.methodName, r.params, env).1;
      assert ArriveStep(w, s, v, env).handlers == s.handlers + [Handler(r.id, r.methodName, stage, None)];
    }
  }

  lemma CloseDoneTable(lib: Lib, s: State, h: nat)
    ensures TableStays(s, CloseDoneStep(lib, s, h)) || TableShrinks(s, CloseDoneStep(lib, s, h))
  {
    var t := CloseDoneStep(lib, s, h);
    if t != s {
      assert t.handlers == s.handlers[h := t.handlers[h]];
    }
  }

  lemma SettleTable(lib: Lib, s: State, h: nat, err: Thrown)
    ensures TableStays(s, SettleStep(lib, s, h, err))
  {
  }

  lemma StepMovesTable(w: World, s: State, a: Action)
    requires KeepsIds(w)
    ensures TableStays(s, Step(w, s, a)) || TableGrows(s, Step(w, s, a)) || TableShrinks(s, Step(w, s, a))
  {
    match a
    case Arrive(v, env) => ArriveTable(w, s, v, env);
    case OnSession(ref, act) => PerformKeepsTable(w, s, ref, act);
    case MainClose(ref) => PerformKeepsTable(w, s, ref, S.CloseBegin);
    case CloseDone(h) => CloseDoneTable(w.lib, s, h);
    case Settle(h, err) => SettleTable(w.lib, s, h, err);
    case ControlDone(h, answer) => ControlDoneTable(s, h, answer);
    case _ => SameTable(s, Step(w, s, a));
  }

  lemma ControlDoneTable(s: State, h: nat, answer: Stage)
    ensures TableStays(s, ControlDoneStep(s, h, answer))
  {
  }

  lemma SameTable(s: State, t: State)
    requires t.table == s.table && t.sessions == s.sessions && t.handlers == s.handlers
    ensures TableStays(s, t)
  {
  }

  lemma RoutingKeptWhenStays(s: State, t: State)
    requires RoutingOk(s) && TableStays(s, t)
    ensures RoutingOk(t)
  {
    forall ref: nat | ref < |t.sessions|
      ensures Routes(t, ref) <==> forall h :: !RemovedBy(t, h, ref)
    {
      RemovalsKept(s, t, ref);
      assert Routes(t, ref) <==> Routes(s, ref);
    }
  }

  lemma RemovalsKept(s: State, t: State, ref: nat)
    requires ClosersMove(s, t)
    ensures (forall h :: !RemovedBy(t, h, ref)) <==> (forall h :: !RemovedBy(s, h, ref))
  {
    forall h ensures RemovedBy(t, h, ref) <==> RemovedBy(s, h, ref) {
    }
  }

  lemma RoutingKeptWhenGrows(s: State, t: State)
    requires RoutingOk(s) && TableGrows(s, t)
    ensures RoutingOk(t)
  {
    var n := |s.sessions|;
    forall ref: nat | ref < |t.sessions|
      ensures Routes(t, ref) <==> forall h :: !RemovedBy(t, h, ref)
    {
      RemovalsKept(s, t, ref);
      if ref < n {
        assert Routes(t, ref) <==> Routes(s, ref);
      } else {
        assert t.sessions[ref] == S.Init(t.sessions[ref].sid);
        assert forall h :: !RemovedBy(s, h, ref);
      }
    }
  }

  lemma RoutingKeptWhenShrinks(s: State, t: State)
    requires RoutingOk(s) && SingleCloser(s) && TableShrinks(s, t)
    ensures RoutingOk(t)
  {
    var h: nat, x :| h < |s.handlers| && s.handlers[h].stage.AwaitClose?
      && t.table == s.table - {s.handlers[h].stage.sid} && t.sessions == s.sessions
      && t.handlers == s.handlers[h := x]
      && x.removed == Some(s.handlers[h].stage.ref) && !x.stage.AwaitClose?;
    var sid, gone := s.handlers[h].stage.sid, s.handlers[h].stage.ref;
    assert Closes(s, h, sid);
    assert forall i :: 0 <= i < |t.handlers| && t.handlers[i].stage.AwaitClose? ==> !Closes(s, i, sid);
    forall ref: nat | ref < |t.sessions|
      ensures Routes(t, ref) <==> forall i :: !RemovedBy(t, i, ref)
    {
      assert RemovedBy(t, h, gone);
      assert s.sessions[gone].sid == sid && Routes(s, gone);
      assert Routes(t, ref) <==> Routes(s, ref) && ref != gone;
      forall i ensures RemovedBy(t, i, ref) <==> RemovedBy(s, i, ref) || (i == h && ref == gone) {
        assert !RemovedBy(s, h, ref);
      }
    }
  }

  lemma RoutingKept(s: State, t: State)
    requires RoutingOk(s) && SingleCloser(s)
    requires TableStays(s, t) || TableGrows(s, t) || TableShrinks(s, t)
    ensures RoutingOk(t)
  {
    if TableStays(s, t) { RoutingKeptWhenStays(s, t); }
    else if TableGrows(s, t) { RoutingKeptWhenGrows(s, t); }
    else { RoutingKeptWhenShrinks(s, t); }
  }

  /**
   If the peer never has two session.close requests in flight for one id: each id always routes to
   the one session created for it and not yet removed; no create replaces an entry while its close
   is in flight; and the close that finishes removes the very session it looked up.
   */
  lemma {:induction false} TableSafety(w: World, acts: seq<Action>)
    requires KeepsIds(w)
    requires forall i :: 0 <= i < |acts| ==> SingleCloser(Run(w, acts[..i]))
    ensures RoutingOk(Run(w, acts))
  {
    if acts != [] {
      var n := |acts| - 1;
      var pre := acts[..n];
      assert forall i :: 0 <= i < n ==> pre[..i] == acts[..i];
      TableSafety(w, pre);
      assert SingleCloser(Run(w, acts[..n]));
      StepMovesTable(w, Run(w, pre), acts[n]);
      RoutingKept(Run(w, pre), Run(w, acts));
    }
  }

  function RunFrom(w: World, s: State, more: seq<Action>): State {
    if more == [] then s else Step(w, RunFrom(w, s, more[..|more| - 1]), more[|more| - 1])
  }

  predicate IsCloseRequest(a: Action) {
    a.Arrive? && a.v.Object? && a.v.frame.methodName == Some(Str(SESSION_CLOSE))
  }

  predicate IsResumeRequest(a: Action) {
    a.Arrive? && a.v.Object? && a.v.frame.methodName == Some(Str(SESSION_RESUME))
  }

  predicate CanFinishClose(s: State, h: nat)
    requires h < |s.handlers|
  {
    s.handlers[h].stage.AwaitClose? && CloserResolved(s, s.handlers[h].stage.ref, s.handlers[h].stage.k)
  }

  /** Whenever a close can finish, it removes the session it looked up. */
  ghost predicate ClosesRemoveTheirOwn(s: State) {
    forall h :: 0 <= h < |s.handlers| && CanFinishClose(s, h) ==>
      && s.handlers[h].stage.sid in s.table
      && s.table[s.handlers[h].stage.sid] == s.handlers[h].stage.ref
  }

  lemma NoNewCloser(w: World, s: State, a: Action)
    requires KeepsIds(w) && SingleCloser(s) && !IsCloseRequest(a)
    ensures SingleCloser(Step(w, s, a))
  {
    var t := Step(w, s, a);
    StepMovesTable(w, s, a);
    StepAddsCloser(w, s, a);
    forall h, sid | Closes(t, h, sid) ensures Closes(s, h, sid) {
    }
  }

  lemma StepAddsCloser(w: World, s: State, a: Action)
    requires !IsCloseRequest(a)
    ensures var t := Step(w, s, a);
      forall h :: |s.handlers| <= h < |t.handlers| ==> !t.handlers[h].stage.AwaitClose?
  {
    HandlersOnlyByArrive(w, s, a);
  }

  lemma HandlersOnlyByArrive(w: World, s: State, a: Action)
    ensures var t := Step(w, s, a);
      && |s.handlers| <= |t.handlers| <= |s.handlers| + 1
      && (|t.handlers| == |s.handlers| + 1 ==>
            && t.handlers[..|s.handlers|] == s.handlers
            && a.Arrive? && a.v.Object? && a.v.frame.methodName.Some? && a.v.frame.methodName.value.Str?
            && t.handlers[|s.handlers|].methodName == a.v.frame.methodName.value.s
            && (t.handlers[|s.handlers|].stage.AwaitClose? ==> t.handlers[|s.handlers|].methodName == SESSION_CLOSE))
  {
    var t := Step(w, s, a);
    match a
    case Arrive(v, env) =>
      var r := RouteOf(w.lib, s.rpc, v);
      if !Over(s) && s.phase.Running? && r.Dispatched? {
        DispatchWrites(w, s.(rpc := FeedValue(w.lib, s.rpc, v)), r.methodName, r.params, env);
      }
    case OnSession(ref, act) => PerformWrites(w, s, ref, act);
    case MainClose(ref) => PerformWrites(w, s, ref, S.CloseBegin);
    case _ =>
  }

  lemma {:induction false} SafeWhileNoneAdded(w: World, s: State, more: seq<Action>)
    requires KeepsIds(w) && RoutingOk(s) && SingleCloser(s)
    requires forall i :: 0 <= i < |more| ==> !IsCloseRequest(more[i])
    ensures RoutingOk(RunFrom(w, s, more)) && SingleCloser(RunFrom(w, s, more))
  {
    if more != [] {
      var m := |more| - 1;
      SafeWhileNoneAdded(w, s, more[..m]);
      var t := RunFrom(w, s, more[..m]);
      StepMovesTable(w, t, more[m]);
      RoutingKept(t, Step(w, t, more[m]));
      NoNewCloser(w, t, more[m]);
    }
  }

  /** Letting the k-th close() call of a session resolve. */
  function Release(s: State, ref: nat, k: nat): seq<Action> {
    var g := if ref < |s.sessions| then S.PumpOf(s.sessions[ref], k) else 0;
    [OnSession(ref, S.Throw(g, "")), OnSession(ref, S.CloseFinish(k))]
  }

  /** The states differ at most in one session's progress and in what was written. */
  ghost predicate OnlySession(s: State, t: State, ref: nat)
    requires ref < |s.sessions|
  {
    && t.table == s.table && t.handlers == s.handlers && t.rpc == s.rpc
    && t.phase == s.phase && t.shuttingDown == s.shuttingDown
    && SameSessions(s, t)
    && |s.sessions[ref].closers| <= |t.sessions[ref].closers|
    && (forall k: nat :: CloserResolved(s, ref, k) ==> CloserResolved(t, ref, k))
    && (S.Invariant(s.sessions[ref]) ==> S.Invariant(t.sessions[ref]))
  }

  lemma OnSessionStep(w: World, s: State, ref: nat, a: S.Action)
    requires Real(w) && !Over(s) && ref < |s.sessions| && S.Background(a)
    ensures var t := Step(w, s, OnSession(ref, a));
      OnlySession(s, t, ref) && t.sessions[ref] == S.Step(w.lib, s.sessions[ref], a)
  {
    S.StepKeepsId(w.lib, s.sessions[ref], a);
    S.ResolvedStays(w.lib, s.sessions[ref], a);
    if S.Invariant(s.sessions[ref]) {
      S.StepKeepsInvariant(w.lib, s.sessions[ref], a);
    }
    assert w.perform(s.sessions[ref], a) == S.Step(w.lib, s.sessions[ref], a);
  }

  lemma TwoMore(w: World, s: State, a: Action, b: Action)
    ensures RunFrom(w, s, [a, b]) == Step(w, Step(w, s, a), b)
  {
    assert [a, b][..1] == [a];
    assert [a][..0] == [];
    assert RunFrom(w, s, [a]) == Step(w, RunFrom(w, s, []), a);
  }

  lemma {:induction false} RunFromConcat(w: World, s: State, a: seq<Action>, b: seq<Action>)
    ensures RunFrom(w, s, a + b) == RunFrom(w, RunFrom(w, s, a), b)
  {
    if b == [] {
      assert a + b == a;
    } else {
      var n := |b| - 1;
      assert (a + b)[..|a + b| - 1] == a + b[..n];
      RunFromConcat(w, s, a, b[..n]);
    }
  }

  lemma ReleaseResolves(w: World, s: State, ref: nat, k: nat)
    requires Real(w) && !Over(s) && ref < |s.sessions| && k < |s.sessions[ref].closers|
    requires S.Invariant(s.sessions[ref])
    ensures var t := RunFrom(w, s, Release(s, ref, k));
      && OnlySession(s, t, ref) && CloserResolved(t, ref, k)
      && t.sessions[ref].closed == s.sessions[ref].closed && |t.sessions[ref].pumps| == |s.sessions[ref].pumps|
      && (forall g :: 0 <= g < |s.sessions[ref].pumps| && g != S.PumpOf(s.sessions[ref], k) ==>
            t.sessions[ref].pumps[g] == s.sessions[ref].pumps[g])
  {
    var throws, finish := S.Throw(S.PumpOf(s.sessions[ref], k), ""), S.CloseFinish(k);
    var t := Step(w, s, OnSession(ref, throws));
    TwoMore(w, s, OnSession(ref, throws), OnSession(ref, finish));
    OnSessionStep(w, s, ref, throws);
    OnSessionStep(w, t, ref, finish);
    S.CloseCanResolve(w.lib, s.sessions[ref], k);
  }

  // ---------------------------------------------------------------------------------------------
  // The sessions in the sidecar
  // ---------------------------------------------------------------------------------------------

  /** Every session object is where some run of its own leads; a close in flight has its close() call. */
  ghost predicate Sound(w: World, s: State) {
    && (forall r :: 0 <= r < |s.sessions| ==> S.Reachable(w.lib, s.sessions[r]))
    && (forall h :: 0 <= h < |s.handlers| && s.handlers[h].stage.AwaitClose? ==>
          var stage := s.handlers[h].stage;
          && s.handlers[h].removed.None?
          && stage.ref < |s.sessions| && stage.k < |s.sessions[stage.ref].closers|)
    && (forall sid :: sid in s.table ==> s.table[sid] < |s.sessions|)
  }

  /** A session stays as it is or performs one action, which is a resume only if one was asked for. */
  ghost predicate SessionMoves(w: World, x: S.State, y: S.State, resuming: bool) {
    y == x || exists a: S.Action :: (a.Resume? ==> resuming) && y == w.perform(x, a)
  }

  ghost predicate SessionsMove(w: World, s: State, t: State, resuming: bool) {
    && |s.sessions| <= |t.sessions|
    && (forall r :: 0 <= r < |s.sessions| ==> SessionMoves(w, s.sessions[r], t.sessions[r], resuming))
    && (forall r :: |s.sessions| <= r < |t.sessions| ==> t.sessions[r] == S.Init(t.sessions[r].sid))
  }

  lemma PerformMoves(w: World, s: State, ref: nat, a: S.Action)
    ensures SessionsMove(w, s, Perform(w, s, ref, a), a.Resume?)
  {
    if ref < |s.sessions| {
      assert Perform(w, s, ref, a).sessions[ref] == w.perform(s.sessions[ref], a);
    }
  }

  lemma LastCloserExists(w: World, s: State, ref: nat)
    requires Real(w) && ref < |s.sessions|
    ensures var t := Perform(w, s, ref, S.CloseBegin);
      ref < |t.sessions| && LastCloser(t, ref) < |t.sessions[ref].closers|
  {
    S.CloseBeginAddsCloser(w.lib, s.sessions[ref]);
    assert w.perform(s.sessions[ref], S.CloseBegin) == S.Step(w.lib, s.sessions[ref], S.CloseBegin);
  }

  lemma SendMoves(w: World, s: State, ref: nat, params: Json)
    ensures var (t, stage) := Send(w, s, ref, params); SessionsMove(w, s, t, false) && !stage.AwaitClose?
  {
    var content := if Get(params, "content").Some? then Get(params, "content").value else Null;
    PerformMoves(w, s, ref, S.Send(content, Get(params, "turnId")));
  }

  lemma ControlMoves(w: World, s: State, ref: nat, params: Json, known: bool)
    ensures var (t, stage) := Control(w, s, ref, params, known); SessionsMove(w, s, t, false) && !stage.AwaitClose?
  {
    var name := match Get(params, "method") case Some(Str(m)) => m case _ => "";
    PerformMoves(w, s, ref, S.Control(name, Get(params, "args"), known));
  }

  lemma DispatchSessions(w: World, s: State, methodName: string, params: Json, env: Env)
    requires Real(w)
    requires forall sid :: sid in s.table ==> s.table[sid] < |s.sessions|
    ensures var (t, stage) := Dispatch(w, s, methodName, params, env);
      && SessionsMove(w, s, t, methodName == SESSION_RESUME)
      && (stage.AwaitClose? ==> stage.ref < |t.sessions| && stage.k < |t.sessions[stage.ref].closers|)
  {
    if Lookup(s, params).Some? {
      var ref := Lookup(s, params).value.1;
      if methodName == SESSION_SEND {
        SendMoves(w, s, ref, params);
      } else if methodName == SESSION_CONTROL {
        ControlMoves(w, s, ref, params, env.known);
      } else if methodName == SESSION_RESUME {
        PerformMoves(w, s, ref, S.Resume(env.queryThrows.None?));
      } else {
        PerformMoves(w, s, ref, S.CloseBegin);
        LastCloserExists(w, s, ref);
      }
    }
  }

  lemma StepMovesSessions(w: World, s: State, a: Action)
    requires Real(w)
    requires forall sid :: sid in s.table ==> s.table[sid] < |s.sessions|
    ensures SessionsMove(w, s, Step(w, s, a), IsResumeRequest(a))
    ensures var t := Step(w, s, a);
      forall h :: |s.handlers| <= h < |t.handlers| && t.handlers[h].stage.AwaitClose? ==>
        var stage := t.handlers[h].stage;
        stage.ref < |t.sessions| && stage.k < |t.sessions[stage.ref].closers|
  {
    HandlersOnlyByArrive(w, s, a);
    match a
    case Arrive(v, env) =>
      var r := RouteOf(w.lib, s.rpc, v);
      if !Over(s) && s.phase.Running? && r.Dispatched? {
        DispatchSessions(w, s.(rpc := FeedValue(w.lib, s.rpc, v)), r.methodName, r.params, env);
      }
    case OnSession(ref, act) => PerformMoves(w, s, ref, act);
    case MainClose(ref) => PerformMoves(w, s, ref, S.CloseBegin);
    case _ =>
  }

  lemma SoundKept(w: World, s: State, t: State, resuming: bool)
    requires Real(w) && Sound(w, s)
    requires SessionsMove(w, s, t, resuming)
    requires TableStays(s, t) || TableGrows(s, t) || TableShrinks(s, t)
    requires forall h :: |s.handlers| <= h < |t.handlers| && t.handlers[h].stage.AwaitClose? ==>
      var stage := t.handlers[h].stage;
      stage.ref < |t.sessions| && stage.k < |t.sessions[stage.ref].closers|
    ensures Sound(w, t)
  {
    forall r | 0 <= r < |t.sessions|
      ensures S.Reachable(w.lib, t.sessions[r])
      ensures r < |s.sessions| ==> |s.sessions[r].closers| <= |t.sessions[r].closers|
    {
      if r >= |s.sessions| {
        S.ReachableInit(w.lib, t.sessions[r].sid);
      } else if t.sessions[r] != s.sessions[r] {
        assert SessionMoves(w, s.sessions[r], t.sessions[r], resuming);
        var a :| t.sessions[r] == w.perform(s.sessions[r], a);
        S.ReachableStep(w.lib, s.sessions[r], a);
        S.ResolvedStays(w.lib, s.sessions[r], a);
      }
    }
  }

  lemma RealKeepsIds(w: World)
    requires Real(w)
    ensures KeepsIds(w)
  {
    forall s, a ensures w.perform(s, a).sid == s.sid {
      S.StepKeepsId(w.lib, s, a);
    }
  }

  /** So everything proved of the runs of a session holds of each session in the sidecar. */
  lemma {:induction false} SessionsAreRuns(w: World, acts: seq<Action>)
    requires Real(w)
    ensures Sound(w, Run(w, acts))
  {
    if acts != [] {
      var pre := acts[..|acts| - 1];
      SessionsAreRuns(w, pre);
      RealKeepsIds(w);
      StepMovesSessions(w, Run(w, pre), acts[|acts| - 1]);
      StepMovesTable(w, Run(w, pre), acts[|acts| - 1]);
      SoundKept(w, Run(w, pre), Run(w, acts), IsResumeRequest(acts[|acts| - 1]));
    }
  }

  // ---------------------------------------------------------------------------------------------
  // Two closes in flight for one id
  // ---------------------------------------------------------------------------------------------

  function RequestFor(methodName: string, sid: string): Action {
    Arrive(Object(Frame(Some(Num(0)), Some(Str(methodName)), Some(Dict(map["sessionId" := Str(sid)])), None, None)),
           Env(None, false, Null))
  }

  function CreateRequest(sid: string): Action { RequestFor(SESSION_CREATE, sid) }

  /** A closed id can be created anew, as another session. */
  lemma CreateSucceeds(w: World, s: State, sid: string)
    requires s.phase.Running? && sid != "" && sid !in s.table
    ensures var t := Step(w, s, CreateRequest(sid));
      && t.table == s.table[sid := |s.sessions|]
      && t.shuttingDown == s.shuttingDown && (!s.shuttingDown ==> t.phase == s.phase)
      && t.sessions == s.sessions + [S.Init(sid)]
      && t.handlers[..|s.handlers|] == s.handlers && |t.handlers| == |s.handlers| + 1
      && t.handlers[|s.handlers|].removed.None? && t.handlers[|s.handlers|].stage.Returning?
  {
  }

  lemma DistinctMethods()
    ensures SESSION_CLOSE !in {PING, SHUTDOWN, SESSION_CREATE, SESSION_SEND, SESSION_CONTROL, SESSION_RESUME}
    ensures SESSION_RESUME !in {PING, SHUTDOWN, SESSION_CREATE, SESSION_SEND, SESSION_CONTROL, SESSION_CLOSE}
  {
    assert SESSION_CREATE[8] == 'c' && SESSION_RESUME[8] == 'r';
    assert |SESSION_CLOSE| == 13 && |SESSION_CREATE| == 14 == |SESSION_RESUME|;
    assert |SHUTDOWN| == 8 && |PING| == 4 && |SESSION_SEND| == 12 && |SESSION_CONTROL| == 15;
  }

  /** A close request on a running loop: the session's close() is called and awaited. */
  lemma CloseRequested(w: World, s: State, sid: string, ref: nat)
    requires s.phase.Running? && !s.shuttingDown
    requires sid in s.table && s.table[sid] == ref && ref < |s.sessions|
    ensures var t := Step(w, s, RequestFor(SESSION_CLOSE, sid));
      && t.table == s.table && t.phase == s.phase && !t.shuttingDown
      && t.sessions == s.sessions[ref := w.perform(s.sessions[ref], S.CloseBegin)]
      && t.handlers == s.handlers + [Handler(Num(0), SESSION_CLOSE, AwaitClose(sid, ref, LastCloser(t, ref)), None)]
  {
    DistinctMethods();
    var params := Dict(map["sessionId" := Str(sid)]);
    assert Lookup(s, params) == Some((sid, ref));
  }

  /** One session, and n closes of it in flight. */
  ghost predicate ClosesInFlight(s: State, sid: string, n: nat) {
    && s.phase.Running? && !s.shuttingDown
    && s.table == map[sid := 0] && |s.sessions| == 1 && s.sessions[0].sid == sid
    && |s.handlers| == n + 1
    && (forall h :: 0 <= h < |s.handlers| ==> s.handlers[h].removed.None?)
    && !s.handlers[0].stage.AwaitClose?
    && (forall h :: 1 <= h < |s.handlers| ==>
          var stage := s.handlers[h].stage; stage.AwaitClose? && stage.sid == sid && stage.ref == 0)
  }

  lemma CreatedFirst(w: World, sid: string)
    requires sid != ""
    ensures ClosesInFlight(Step(w, Init(w), CreateRequest(sid)), sid, 0)
  {
    CreateSucceeds(w, Init(w), sid);
  }

  lemma OneMoreClose(w: World, s: State, sid: string, n: nat)
    requires KeepsIds(w) && ClosesInFlight(s, sid, n)
    ensures ClosesInFlight(Step(w, s, RequestFor(SESSION_CLOSE, sid)), sid, n + 1)
  {
    CloseRequested(w, s, sid, 0);
  }

  lemma InFlightRoutes(s: State, sid: string)
    requires ClosesInFlight(s, sid, 2) && sid != ""
    ensures s.phase.Running? && RoutingOk(s) && Closes(s, 1, sid) && Closes(s, 2, sid) && !SingleCloser(s)
  {
    assert forall h, ref :: !RemovedBy(s, h, ref);
    assert Closes(s, 1, sid) && Closes(s, 2, sid);
  }

  /** The state that ClosesSafeIffSingle warns of can be reached: two closes in flight for one id. */
  lemma TwoClosesInFlight(w: World, sid: string)
    requires Real(w) && sid != ""
    ensures var s := Run(w, [CreateRequest(sid), RequestFor(SESSION_CLOSE, sid), RequestFor(SESSION_CLOSE, sid)]);
      s.phase.Running? && RoutingOk(s) && Closes(s, 1, sid) && Closes(s, 2, sid) && !SingleCloser(s)
  {
    var close := RequestFor(SESSION_CLOSE, sid);
    var s := Step(w, Init(w), CreateRequest(sid));
    ThreeSteps(w, CreateRequest(sid), close, close);
    RealKeepsIds(w);
    CreatedFirst(w, sid);
    OneMoreClose(w, s, sid, 0);
    OneMoreClose(w, Step(w, s, close), sid, 1);
    InFlightRoutes(Step(w, Step(w, s, close), close), sid);
  }

  lemma ThreeSteps(w: World, a: Action, b: Action, c: Action)
    ensures Run(w, [a, b, c]) == Step(w, Step(w, Step(w, Init(w), a), b), c)
  {
    assert [a, b, c][..2] == [a, b] && [a, b][..1] == [a] && [a][..0] == [];
    assert Run(w, [a]) == Step(w, Run(w, []), a);
    assert Run(w, [a, b]) == Step(w, Run(w, [a]), b);
  }

  /** And from it a close goes on to remove a session it never looked up. */
  lemma SecondCloseRemovesAnother(w: World, sid: string) returns (more: seq<Action>)
    requires Real(w) && sid != ""
    ensures forall j :: 0 <= j < |more| ==> !IsCloseRequest(more[j])
    ensures !ClosesRemoveTheirOwn(RunFrom(w,
      Run(w, [CreateRequest(sid), RequestFor(SESSION_CLOSE, sid), RequestFor(SESSION_CLOSE, sid)]), more))
  {
    var acts := [CreateRequest(sid), RequestFor(SESSION_CLOSE, sid), RequestFor(SESSION_CLOSE, sid)];
    TwoClosesInFlight(w, sid);
    SessionsAreRuns(w, acts);
    more := TwoClosersCanCollide(w, Run(w, acts), 1, 2, sid);
  }

  /** One of the closes finishes, and the id is created anew. */
  function Colliding(i: nat, sid: string): (r: seq<Action>)
    ensures forall j :: 0 <= j < |r| ==> !IsCloseRequest(r[j])
  {
    DistinctMethods();
    [CloseDone(i), CreateRequest(sid)]
  }

  lemma Collision(w: World, s: State, h: nat, i: nat, sid: string)
    requires s.phase.Running? && RoutingOk(s)
    requires h != i && Closes(s, h, sid) && Closes(s, i, sid)
    requires CanFinishClose(s, h) && CanFinishClose(s, i)
    ensures !ClosesRemoveTheirOwn(RunFrom(w, s, Colliding(i, sid)))
  {
    TwoMore(w, s, CloseDone(i), CreateRequest(sid));
    var ref := s.table[sid];
    var t := Step(w, s, CloseDone(i));
    assert t.table == s.table - {sid} && t.sessions == s.sessions && t.handlers[h] == s.handlers[h];
    CreateSucceeds(w, t, sid);
    var u := Step(w, t, CreateRequest(sid));
    assert u.handlers[h] == u.handlers[..|t.handlers|][h];
    assert u.sessions[ref] == s.sessions[ref];
    assert CanFinishClose(u, h) && u.table[sid] == |s.sessions|;
  }

  /** The environment can let two close() calls of one session resolve. */
  lemma BothResolve(w: World, s: State, ref: nat, k: nat, l: nat) returns (more: seq<Action>)
    requires Real(w) && !Over(s) && ref < |s.sessions| && S.Invariant(s.sessions[ref])
    requires k < |s.sessions[ref].closers| && l < |s.sessions[ref].closers|
    ensures forall j :: 0 <= j < |more| ==> !IsCloseRequest(more[j])
    ensures var t := RunFrom(w, s, more);
      OnlySession(s, t, ref) && CloserResolved(t, ref, k) && CloserResolved(t, ref, l)
  {
    var a := Release(s, ref, k);
    var t := RunFrom(w, s, a);
    ReleaseResolves(w, s, ref, k);
    ReleaseResolves(w, t, ref, l);
    RunFromConcat(w, s, a, Release(t, ref, l));
    more := a + Release(t, ref, l);
  }

  lemma TwoClosersCanCollide(w: World, s: State, h: nat, i: nat, sid: string) returns (more: seq<Action>)
    requires Real(w) && Sound(w, s) && s.phase.Running? && RoutingOk(s)
    requires h != i && Closes(s, h, sid) && Closes(s, i, sid)
    ensures forall j :: 0 <= j < |more| ==> !IsCloseRequest(more[j])
    ensures !ClosesRemoveTheirOwn(RunFrom(w, s, more))
  {
    var ref := s.table[sid];
    S.ReachableInvariant(w.lib, s.sessions[ref]);
    var a := BothResolve(w, s, ref, s.handlers[h].stage.k, s.handlers[i].stage.k);
    var b := Colliding(i, sid);
    more := a + b;
    var t := RunFrom(w, s, a);
    OnlySessionRouting(s, t, ref);
    Collision(w, t, h, i, sid);
    RunFromConcat(w, s, a, b);
  }

  lemma OnlySessionRouting(s: State, t: State, ref: nat)
    requires ref < |s.sessions| && OnlySession(s, t, ref)
    requires RoutingOk(s)
    ensures RoutingOk(t)
  {
    assert ClosersMove(s, t);
    RoutingKeptWhenStays(s, t);
  }

  /**
   What the hypothesis is worth: in a state where routing is right, the closes in flight are sure to
   remove the sessions they looked up, whatever else happens short of another session.close, if and
   only if no two of them are for one id.
   */
  lemma ClosesSafeIffSingle(w: World, acts: seq<Action>)
    requires Real(w) && Run(w, acts).phase.Running? && RoutingOk(Run(w, acts))
    ensures SingleCloser(Run(w, acts)) <==>
      forall more: seq<Action> :: (forall j :: 0 <= j < |more| ==> !IsCloseRequest(more[j])) ==>
        ClosesRemoveTheirOwn(RunFrom(w, Run(w, acts), more))
  {
    var s := Run(w, acts);
    RealKeepsIds(w);
    SessionsAreRuns(w, acts);
    if SingleCloser(s) {
      forall more: seq<Action> | forall j :: 0 <= j < |more| ==> !IsCloseRequest(more[j])
        ensures ClosesRemoveTheirOwn(RunFrom(w, s, more))
      {
        SafeWhileNoneAdded(w, s, more);
      }
    } else {
      var h, i, sid :| Closes(s, h, sid) && Closes(s, i, sid) && h != i;
      var more := TwoClosersCanCollide(w, s, h, i, sid);
    }
  }
}
