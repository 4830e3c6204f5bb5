/** index.ts and session.ts: with which options each query is started, over the runs of the sidecar. */
module QueryOptions {
  import opened Basics
  import opened Protocol
  import B = Bridges
  import S = Session
  import opened Sidecar
  import opened Requests

  /** The options made for the queries of each session, in order, once a request has been dispatched. */
  function OptionsAfter(
      s: State, methodName: string, params: Json, env: Env, made: seq<seq<B.Options>>): seq<seq<B.Options>>
  {
    if methodName == SESSION_CREATE then
      if CreateOutcome(s.table.Keys, params, env).Returning? then
        made + [[B.Enriched(B.OptionsIn(params), B.BridgingIn(params))]]
      else made
    else if methodName == SESSION_RESUME && Lookup(s, params).Some? then
      ResumeOptions(made, Lookup(s, params).value.1, params)
    else made
  }

  function ResumeOptions(made: seq<seq<B.Options>>, ref: nat, params: Json): seq<seq<B.Options>> {
    if ref < |made| then
      made[ref := made[ref] + [B.WithResume(B.OptionsIn(params), Get(params, "sdkSessionId"))]]
    else made
  }

  function OptionsFollow(s: State, route: Route, env: Env, made: seq<seq<B.Options>>): seq<seq<B.Options>> {
    if route.Dispatched? then OptionsAfter(s, route.methodName, route.params, env, made) else made
  }

  function OptionsStep(w: World, s: State, a: Action, made: seq<seq<B.Options>>): seq<seq<B.Options>> {
    if Over(s) || !a.Arrive? || !s.phase.Running? then made else
    OptionsFollow(s.(rpc := FeedValue(w.lib, s.rpc, a.v)), RouteOf(w.lib, s.rpc, a.v), a.env, made)
  }

  function OptionsRun(w: World, acts: seq<Action>): seq<seq<B.Options>> {
    if acts == [] then [] else
    var pre := acts[..|acts| - 1];
    OptionsStep(w, Run(w, pre), acts[|acts| - 1], OptionsRun(w, pre))
  }

  lemma OptionsSnoc(w: World, acts: seq<Action>, a: Action)
    ensures OptionsRun(w, acts + [a]) == OptionsStep(w, Run(w, acts), a, OptionsRun(w, acts))
  {
    assert (acts + [a])[..|acts + [a]| - 1] == acts;
  }

  /**
   The query of a new session is started with the peer's options, each under its own name, with the
   bridges that the request asks for and no others.
   */
  lemma CreatedWith(w: World, acts: seq<Action>, id: Json, params: map<string, Json>, sid: string, env: Env)
    requires Run(w, acts).phase.Running? && env.queryThrows.None?
    requires "sessionId" in params && params["sessionId"] == Str(sid) && sid != "" && sid !in Run(w, acts).table
    ensures var o := B.OptionsIn(Dict(params));
      && B.HandsOn(o, Dict(params), {})
      && OptionsRun(w, acts + [Arrive(Object(Ask(id, "session.create", params)), env)])
           == OptionsRun(w, acts) + [[B.Enriched(o, B.BridgingIn(Dict(params)))]]
  {
    OptionsSnoc(w, acts, Arrive(Object(Ask(id, "session.create", params)), env));
    B.OptionsAreHandedOn(Dict(params));
    CreateRequestOptions(w, Run(w, acts), id, params, sid, env, OptionsRun(w, acts));
  }

  lemma CreateRequestOptions(
      w: World, s: State, id: Json, params: map<string, Json>, sid: string, env: Env, made: seq<seq<B.Options>>)
    requires s.phase.Running? && env.queryThrows.None?
    requires "sessionId" in params && params["sessionId"] == Str(sid) && sid != "" && sid !in s.table
    ensures OptionsStep(w, s, Arrive(Object(Ask(id, "session.create", params)), env), made)
      == made + [[B.Enriched(B.OptionsIn(Dict(params)), B.BridgingIn(Dict(params)))]]
  {
    MethodNames();
    var f := Ask(id, "session.create", params);
    assert RouteOf(w.lib, s.rpc, Object(f)) == Dispatched(id, "session.create", Dict(params));
    assert CreateOutcome(s.table.Keys, Dict(params), env).Returning?;
  }

  /**
   The query of a resumed session is started with the options of that request, each under its own
   name, with the id to resume, and with no bridge; those of other sessions are left alone.
   */
  lemma ResumedWith(
      w: World, acts: seq<Action>, id: Json, params: map<string, Json>, sid: string, ref: nat, env: Env)
    requires Run(w, acts).phase.Running? && RoutedTo(Run(w, acts), params, sid, ref)
    requires ref < |OptionsRun(w, acts)|
    ensures var was, now := OptionsRun(w, acts),
        OptionsRun(w, acts + [Arrive(Object(Ask(id, "session.resume", params)), env)]);
      && |now| == |was| && (forall i :: 0 <= i < |was| && i != ref ==> now[i] == was[i])
      && |now[ref]| == |was[ref]| + 1 && now[ref][..|was[ref]|] == was[ref]
      && var o := now[ref][|was[ref]|];
         && B.HandsOn(o, Dict(params), {"resume"}) && B.Bridgeless(o)
         && (match Member(params, "sdkSessionId")
             case Some(sdk) => "resume" in o.rest && o.rest["resume"] == sdk
             case None => "resume" !in o.rest)
  {
    OptionsSnoc(w, acts, Arrive(Object(Ask(id, "session.resume", params)), env));
    ResumeRequestOptions(w, Run(w, acts), id, params, sid, ref, env, OptionsRun(w, acts));
    OneMoreOptions(OptionsRun(w, acts), ref, params);
  }

  lemma ResumeRequestOptions(
      w: World, s: State, id: Json, params: map<string, Json>, sid: string, ref: nat, env: Env,
      made: seq<seq<B.Options>>)
    requires s.phase.Running? && RoutedTo(s, params, sid, ref)
    ensures OptionsStep(w, s, Arrive(Object(Ask(id, "session.resume", params)), env), made)
      == ResumeOptions(made, ref, Dict(params))
  {
    MethodNames();
    assert Lookup(s, Dict(params)) == Some((sid, ref));
    var f := Ask(id, "session.resume", params);
    assert RouteOf(w.lib, s.rpc, Object(f)) == Dispatched(id, "session.resume", Dict(params));
  }

  lemma OneMoreOptions(was: seq<seq<B.Options>>, ref: nat, params: map<string, Json>)
    requires ref < |was|
    ensures var now := ResumeOptions(was, ref, Dict(params));
      && |now| == |was| && (forall i :: 0 <= i < |was| && i != ref ==> now[i] == was[i])
      && |now[ref]| == |was[ref]| + 1 && now[ref][..|was[ref]|] == was[ref]
      && var o := now[ref][|was[ref]|];
         && B.HandsOn(o, Dict(params), {"resume"}) && B.Bridgeless(o)
         && (match Member(params, "sdkSessionId")
             case Some(sdk) => "resume" in o.rest && o.rest["resume"] == sdk
             case None => "resume" !in o.rest)
  {
    assert Get(Dict(params), "sdkSessionId") == Member(params, "sdkSessionId");
    B.ResumeHandsOn(Dict(params), Member(params, "sdkSessionId"));
    B.ResumeInstallsNoBridge(Dict(params), Member(params, "sdkSessionId"));
  }

  /** Only creates and resumes make options; there are some for each session. */
  lemma {:induction false} OptionsForEach(w: World, acts: seq<Action>)
    ensures |OptionsRun(w, acts)| == |Run(w, acts).sessions|
  {
    if acts != [] {
      var pre, a := acts[..|acts| - 1], acts[|acts| - 1];
      OptionsForEach(w, pre);
      StepOptions(w, Run(w, pre), a, OptionsRun(w, pre));
    }
  }

  lemma StepOptions(w: World, s: State, a: Action, made: seq<seq<B.Options>>)
    requires |made| == |s.sessions|
    ensures |OptionsStep(w, s, a, made)| == |Step(w, s, a).sessions|
  {
    match a
    case Arrive(v, env) =>
      var r := RouteOf(w.lib, s.rpc, v);
      if !Over(s) && s.phase.Running? && r.Dispatched? {
        DispatchCounts(w, s.(rpc := FeedValue(w.lib, s.rpc, v)), r.methodName, r.params, env);
      }
    case _ =>
  }

  lemma DispatchCounts(w: World, s: State, methodName: string, params: Json, env: Env)
    ensures |Dispatch(w, s, methodName, params, env).0.sessions| == |s.sessions| +
      if methodName == SESSION_CREATE && CreateOutcome(s.table.Keys, params, env).Returning? then 1 else 0
  {
    MethodNames();
  }
}
