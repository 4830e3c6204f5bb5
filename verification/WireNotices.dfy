/** What the peer hears from each session is exactly what the session said. */
module WireNotices {
  import opened Basics
  import opened Protocol
  import opened Framing
  import S = Session
  import P = Pumps
  import opened Sidecar

  /** The frames on the pipe that a session wrote. */
  function SaidBy(log: seq<Record>, ref: nat): seq<Frame> {
    if log == [] then [] else
    var e := log[|log| - 1];
    SaidBy(log[..|log| - 1], ref) + if e.origin == BySession(ref) then [e.frame] else []
  }

  /** The notices in a session's own log. */
  function NoticesOf(sid: string, log: seq<S.Event>): seq<Frame> {
    if log == [] then [] else
    var e := log[|log| - 1];
    NoticesOf(sid, log[..|log| - 1]) + if e.Emitted? then [S.NoticeFrame(sid, e.notice)] else []
  }

  ghost predicate Carries(log: seq<Record>, sessions: seq<S.State>) {
    && (forall r: nat :: r < |sessions| ==> SaidBy(log, r) == NoticesOf(sessions[r].sid, sessions[r].log))
    && (forall r: nat :: |sessions| <= r ==> SaidBy(log, r) == [])
  }

  lemma SaidAfterWrite(lib: Lib, o: Out, origin: Origin, f: Frame, ref: nat)
    ensures SaidBy(Write(lib, o, origin, f).log, ref) ==
      SaidBy(o.log, ref) + if lib.encode(f).Some? && origin == BySession(ref) then [f] else []
  {
    if lib.encode(f).Some? {
      var log := Write(lib, o, origin, f).log;
      assert log[..|log| - 1] == o.log;
    }
  }

  lemma NoticesAfterStep(lib: Lib, s: S.State, a: S.Action)
    ensures var t := S.Step(lib, s, a);
      t.sid == s.sid && NoticesOf(t.sid, t.log) == NoticesOf(s.sid, s.log) + S.Spoken(s, t)
  {
    S.StepKeepsId(lib, s, a);
    S.StepLogs(lib, s, a);
    NoticesAfterMove(s, S.Step(lib, s, a));
  }

  lemma NoticesAfterMove(s: S.State, t: S.State)
    requires S.LogMoves(s, t)
    ensures NoticesOf(s.sid, t.log) == NoticesOf(s.sid, s.log) + S.Spoken(s, t)
  {
    if S.NewEvent(s, t).Some? {
      assert t.log[..|t.log| - 1] == s.log;
    }
  }

  lemma OtherWritesCarry(lib: Lib, o: Out, origin: Origin, f: Frame, sessions: seq<S.State>)
    requires Carries(o.log, sessions) && !origin.BySession?
    ensures Carries(Write(lib, o, origin, f).log, sessions)
  {
    forall r: nat ensures SaidBy(Write(lib, o, origin, f).log, r) == SaidBy(o.log, r) {
      SaidAfterWrite(lib, o, origin, f, r);
    }
  }

  lemma SpokenCarries(w: World, s: State, ref: nat, a: S.Action)
    requires Carries(s.out.log, s.sessions) && ref < |s.sessions|
    requires forall f :: f in S.Spoken(s.sessions[ref], w.perform(s.sessions[ref], a)) ==> w.lib.encode(f).Some?
    ensures var frames := S.Spoken(s.sessions[ref], w.perform(s.sessions[ref], a));
      forall r: nat ::
        SaidBy(Perform(w, s, ref, a).out.log, r) == SaidBy(s.out.log, r) + if r == ref then frames else []
  {
    var t, frames := Perform(w, s, ref, a), S.Spoken(s.sessions[ref], w.perform(s.sessions[ref], a));
    forall r: nat
      ensures SaidBy(t.out.log, r) == SaidBy(s.out.log, r) + if r == ref then frames else []
    {
      if frames != [] {
        assert frames == [frames[0]];
        SaidAfterWrite(w.lib, s.out, BySession(ref), frames[0], r);
      }
    }
  }

  lemma PerformCarries(w: World, s: State, ref: nat, a: S.Action)
    requires Real(w) && Lawful(w.lib) && Carries(s.out.log, s.sessions)
    ensures var t := Perform(w, s, ref, a); Carries(t.out.log, t.sessions)
  {
    if ref < |s.sessions| {
      assert w.perform(s.sessions[ref], a) == S.Step(w.lib, s.sessions[ref], a);
      NoticesAfterStep(w.lib, s.sessions[ref], a);
      S.SpokenEncodes(w.lib, s.sessions[ref], a);
      SpokenCarries(w, s, ref, a);
    }
  }

  lemma CreateCarries(w: World, s: State, params: Json, env: Env)
    requires Carries(s.out.log, s.sessions)
    ensures var t := Create(w, s, params, env).0; Carries(t.out.log, t.sessions)
  {
    var t := Create(w, s, params, env).0;
    if t != s {
      OtherWritesCarry(w.lib, s.out, ByMain, LogFrame("session created"), s.sessions);
      var created := t.sessions[|s.sessions|];
      assert created.log[..0] == [];
      assert NoticesOf(created.sid, created.log) == [];
    }
  }

  lemma DispatchCarries(w: World, s: State, methodName: string, params: Json, env: Env)
    requires Real(w) && Lawful(w.lib) && Carries(s.out.log, s.sessions)
    ensures var t := Dispatch(w, s, methodName, params, env).0; Carries(t.out.log, t.sessions)
  {
    if methodName == SESSION_CREATE {
      CreateCarries(w, s, params, env);
    } else if NeedsSession(methodName) && Lookup(s, params).Some? {
      var (sid, ref) := Lookup(s, params).value;
      ToSessionCarries(w, s, methodName, sid, ref, params, env);
    }
  }

  lemma ToSessionCarries(w: World, s: State, methodName: string, sid: string, ref: nat, params: Json, env: Env)
    requires Real(w) && Lawful(w.lib) && Carries(s.out.log, s.sessions)
    ensures var t := ToSession(w, s, methodName, sid, ref, params, env).0; Carries(t.out.log, t.sessions)
  {
    if methodName == SESSION_SEND {
      var content := if Get(params, "content").Some? then Get(params, "content").value else Null;
      PerformCarries(w, s, ref, S.Send(content, Get(params, "turnId")));
    } else if methodName == SESSION_CONTROL {
      var name := match Get(params, "method") case Some(Str(m)) => m case _ => "";
      PerformCarries(w, s, ref, S.Control(name, Get(params, "args"), env.known));
    } else if methodName == SESSION_RESUME {
      PerformCarries(w, s, ref, S.Resume(env.queryThrows.None?));
    } else {
      PerformCarries(w, s, ref, S.CloseBegin);
    }
  }

  lemma StepCarries(w: World, s: State, a: Action)
    requires Real(w) && Lawful(w.lib) && Carries(s.out.log, s.sessions)
    ensures var t := Step(w, s, a); Carries(t.out.log, t.sessions)
  {
    match a
    case Arrive(v, env) => ArriveCarries(w, s, v, env);
    case OnSession(ref, act) => PerformCarries(w, s, ref, act);
    case MainClose(ref) => PerformCarries(w, s, ref, S.CloseBegin);
    case Settle(h, err) => SettleCarries(w.lib, s, h, err);
    case CloseDone(h) => CloseDoneCarries(w.lib, s, h);
    case Outbound(methodName, params, timeoutMs) => OutboundCarries(w.lib, s, methodName, params, timeoutMs);
    case _ =>
  }

  lemma CloseDoneCarries(lib: Lib, s: State, h: nat)
    requires Carries(s.out.log, s.sessions)
    ensures var t := CloseDoneStep(lib, s, h); Carries(t.out.log, t.sessions)
  {
    OtherWritesCarry(lib, s.out, ByMain, LogFrame("session closed"), s.sessions);
  }

  lemma OutboundCarries(lib: Lib, s: State, methodName: string, params: Json, timeoutMs: Option<int>)
    requires Carries(s.out.log, s.sessions)
    ensures var t := OutboundStep(lib, s, methodName, params, timeoutMs); Carries(t.out.log, t.sessions)
  {
    OtherWritesCarry(lib, s.out, ByRpc(s.rpc.nextId), Request(s.rpc.nextId, methodName, params), s.sessions);
  }

  lemma ArriveCarries(w: World, s: State, v: Value, env: Env)
    requires Real(w) && Lawful(w.lib) && Carries(s.out.log, s.sessions)
    ensures var t := ArriveStep(w, s, v, env); Carries(t.out.log, t.sessions)
  {
    var r := RouteOf(w.lib, s.rpc, v);
    if r.Dispatched? {
      DispatchCarries(w, s.(rpc := FeedValue(w.lib, s.rpc, v)), r.methodName, r.params, env);
    }
  }

  lemma SettleCarries(lib: Lib, s: State, h: nat, err: Thrown)
    requires Carries(s.out.log, s.sessions)
    ensures var t := SettleStep(lib, s, h, err); Carries(t.out.log, t.sessions)
  {
    if h < |s.handlers| {
      var f := Answer(lib, s.handlers[h].id, s.handlers[h].stage, err);
      if f.Some? { OtherWritesCarry(lib, s.out, ByHandler(h), f.value, s.sessions); }
    }
  }

  lemma NothingCarriedYet(w: World)
    ensures Carries(Init(w).out.log, [])
  {
    var ready, log := ReadyFrame(w.versions), LogFrame("sidecar ready (sdk " + w.versions.sdk + ")");
    OtherWritesCarry(w.lib, Out("", []), ByMain, ready, []);
    OtherWritesCarry(w.lib, Write(w.lib, Out("", []), ByMain, ready), ByMain, log, []);
  }

  /** What the peer reads from each of the frames. */
  function HeardFrom(frames: seq<Frame>): seq<Option<(string, S.Notice)>> {
    if frames == [] then [] else HeardFrom(frames[..|frames| - 1]) + [P.Heard(frames[|frames| - 1])]
  }

  /** The notices in a session's own log, with the session's id. */
  function Announced(sid: string, log: seq<S.Event>): seq<Option<(string, S.Notice)>> {
    if log == [] then [] else
    var e := log[|log| - 1];
    Announced(sid, log[..|log| - 1]) + if e.Emitted? then [Some((sid, e.notice))] else []
  }

  lemma HeardFromSnoc(frames: seq<Frame>, f: Frame)
    ensures HeardFrom(frames + [f]) == HeardFrom(frames) + [P.Heard(f)]
  {
    assert (frames + [f])[..|frames|] == frames;
  }

  lemma {:induction false} NoticesAreHeard(sid: string, log: seq<S.Event>)
    ensures HeardFrom(NoticesOf(sid, log)) == Announced(sid, log)
  {
    if log != [] {
      var n := |log| - 1;
      var before := NoticesOf(sid, log[..n]);
      NoticesAreHeard(sid, log[..n]);
      if log[n].Emitted? {
        P.NoticeIsHeard(sid, log[n].notice);
        HeardFromSnoc(before, S.NoticeFrame(sid, log[n].notice));
        assert NoticesOf(sid, log) == before + [S.NoticeFrame(sid, log[n].notice)];
      } else {
        assert NoticesOf(sid, log) == before;
      }
    }
  }

  lemma {:induction false} PipeCarries(w: World, acts: seq<Action>)
    requires Real(w) && Lawful(w.lib)
    ensures Carries(Run(w, acts).out.log, Run(w, acts).sessions)
  {
    if acts == [] {
      NothingCarriedYet(w);
    } else {
      var pre := acts[..|acts| - 1];
      PipeCarries(w, pre);
      StepCarries(w, Run(w, pre), acts[|acts| - 1]);
    }
  }

  /**
   At every reachable state, what the peer reads from the frames a session has on the pipe is the
   notices of its own log, under its own id, in order, none lost and none added: the discipline proved
   of session logs is what the peer observes.
   */
  lemma PipeCarriesNotices(w: World, acts: seq<Action>)
    requires Real(w) && Lawful(w.lib)
    ensures var s := Run(w, acts);
      forall r: nat :: r < |s.sessions| ==>
        HeardFrom(SaidBy(s.out.log, r)) == Announced(s.sessions[r].sid, s.sessions[r].log)
    ensures Carries(Run(w, acts).out.log, Run(w, acts).sessions)
  {
    PipeCarries(w, acts);
    var s := Run(w, acts);
    forall r: nat | r < |s.sessions|
      ensures HeardFrom(SaidBy(s.out.log, r)) == Announced(s.sessions[r].sid, s.sessions[r].log)
    {
      NoticesAreHeard(s.sessions[r].sid, s.sessions[r].log);
    }
  }

  // The first frame -------------------------------------------------------------------------------

  /** The peer is told which protocol and versions it talks to. */
  predicate TellsVersions(f: Frame, v: Versions) {
    && f.id.None? && f.result.None? && f.error.None?
    && f.methodName == Some(Str("sidecar.ready")) && f.params.Some?
    && Get(f.params.value, "protocolVersion") == Some(Str("2.0"))
    && Get(f.params.value, "sidecarVersion") == Some(Str("0.2.0"))
    && Get(f.params.value, "sdkVersion") == Some(Str(v.sdk))
    && Get(f.params.value, "nodeVersion") == Some(Str(v.node))
  }

  lemma ReadyTellsVersions(v: Versions)
    ensures TellsVersions(ReadyFrame(v), v) && PlainFrame(ReadyFrame(v))
  {
    assert |"protocolVersion"| == 15 && |"sidecarVersion"| == 14 && |"sdkVersion"| == 10 && |"nodeVersion"| == 11;
  }

  lemma StepKeepsFirst(w: World, s: State, a: Action)
    requires s.out.log != []
    ensures Step(w, s, a).out.log != [] && Step(w, s, a).out.log[0] == s.out.log[0]
  {
    StepMovesHandlers(w, s, a);
    var t := Step(w, s, a);
    if t.out != s.out {
      var origin, f :| t.out == Write(w.lib, s.out, origin, f);
    }
  }

  /** In every run the first frame on the pipe is sidecar.ready, with the versions. */
  lemma {:induction false} ReadyComesFirst(w: World, acts: seq<Action>)
    requires Lawful(w.lib)
    ensures var log := Run(w, acts).out.log;
      log != [] && log[0].origin == ByMain && TellsVersions(log[0].frame, w.versions)
  {
    if acts == [] {
      ReadyTellsVersions(w.versions);
      var o := Write(w.lib, Out("", []), ByMain, ReadyFrame(w.versions));
      assert o.log == [Record(ByMain, ReadyFrame(w.versions))];
      assert o.log <= Init(w).out.log;
    } else {
      ReadyComesFirst(w, acts[..|acts| - 1]);
      StepKeepsFirst(w, Run(w, acts[..|acts| - 1]), acts[|acts| - 1]);
    }
  }
}
