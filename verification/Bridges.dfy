/** session.ts: how hook subscriptions and tool specs are grouped into the options of a query. */
module Bridges {
  import opened Basics
  import opened Protocol

  datatype Subscription = Subscription(event: string, matcher: Option<string>, timeout: Option<int>)

  /** An entry of a hooks list: one the peer supplied, or a matcher whose callback fires hook.fire for event. */
  datatype Hook = Native(j: Json) | Bridge(matcher: Option<string>, timeout: Option<int>, fires: string)

  type Hooks = map<string, seq<Hook>>

  datatype ToolSpec = ToolSpec(server: string, name: string, description: string, schema: Json)

  /** An SDK tool whose handler calls mcp.call with this server and tool name. */
  datatype Tool = Tool(name: string, description: string, schema: Json, callsServer: string, callsTool: string)

  datatype Server = Existing(j: Json) | SdkServer(name: string, tools: seq<Tool>)

  /** A canUseTool option: one the peer supplied, or the callback that asks the peer. */
  datatype Approver = Supplied(j: Json) | AskPeer

  /** The options of a query: the three that are enriched, and the others. */
  datatype Options = Options(
    canUseTool: Option<Approver>,
    hooks: Option<Hooks>,
    mcpServers: Option<map<string, Server>>,
    rest: map<string, Json>)

  datatype Bridging = Bridging(permission: bool, subs: seq<Subscription>, tools: seq<ToolSpec>)

  const NO_BRIDGES := Bridging(false, [], [])

  // Reading the request -----------------------------------------------------------------------------

  predicate Truthy(o: Option<Json>) {
    match o
    case None => false
    case Some(j) => j != Null && j != Bool(false) && j != Num(0) && j != Str("")
  }

  function HookLists(fields: map<string, Json>): Hooks {
    map e | e in fields && fields[e].Arr? ::
      seq(|fields[e].items|, i requires 0 <= i < |fields[e].items| => Native(fields[e].items[i]))
  }

  /** The options of a request, as SessionCreateParams and SessionResumeParams declare them. */
  function OptionsIn(params: Json): Options {
    var options := match Get(params, "options") case Some(Dict(m)) => m case _ => map[];
    Options(
      if "canUseTool" in options then Some(Supplied(options["canUseTool"])) else None,
      if "hooks" in options && options["hooks"].Dict? then Some(HookLists(options["hooks"].fields)) else None,
      if "mcpServers" in options && options["mcpServers"].Dict? then
        Some(map s | s in options["mcpServers"].fields :: Existing(options["mcpServers"].fields[s]))
      else None,
      options - {"canUseTool", "hooks", "mcpServers"})
  }

  function TextAt(j: Json, key: string): string {
    match Get(j, key) case Some(Str(s)) => s case _ => ""
  }

  function SubscriptionsIn(items: seq<Json>): seq<Subscription> {
    seq(|items|, i requires 0 <= i < |items| => Subscription(
      TextAt(items[i], "event"),
      (match Get(items[i], "matcher") case Some(Str(m)) => Some(m) case _ => None),
      (match Get(items[i], "timeout") case Some(Num(n)) => Some(n) case _ => None)))
  }

  function ToolsIn(items: seq<Json>): seq<ToolSpec> {
    seq(|items|, i requires 0 <= i < |items| => ToolSpec(
      TextAt(items[i], "server"), TextAt(items[i], "name"), TextAt(items[i], "description"),
      (match Get(items[i], "inputSchema") case Some(schema) => schema case _ => Null)))
  }

  function BridgingIn(params: Json): Bridging {
    Bridging(
      Truthy(Get(params, "permissionBridge")),
      (match Get(params, "hookSubscriptions") case Some(Arr(items)) => SubscriptionsIn(items) case _ => []),
      (match Get(params, "mcpTools") case Some(Arr(items)) => ToolsIn(items) case _ => []))
  }

  /** { ...options, resume: sdkSessionId }. */
  function WithResume(o: Options, sdkSessionId: Option<Json>): Options {
    o.(rest := match sdkSessionId case Some(id) => o.rest["resume" := id] case None => o.rest - {"resume"})
  }

  const BRIDGED: set<string> := {"canUseTool", "hooks", "mcpServers"}

  /** The options hold what the peer sent, each value under its own name, apart from some keys. */
  ghost predicate HandsOn(o: Options, params: Json, but: set<string>) {
    && (forall k :: k !in BRIDGED && k !in but ==>
          if Asked(params, k).Some? then k in o.rest && o.rest[k] == Asked(params, k).value else k !in o.rest)
    && (match Asked(params, "canUseTool")
        case Some(j) => o.canUseTool == Some(Supplied(j))
        case None => o.canUseTool.None?)
    && (match Asked(params, "mcpServers")
        case Some(Dict(servers)) =>
          && o.mcpServers.Some? && o.mcpServers.value.Keys == servers.Keys
          && forall s :: s in servers ==> o.mcpServers.value[s] == Existing(servers[s])
        case _ => o.mcpServers.None?)
    && (match Asked(params, "hooks")
        case Some(Dict(lists)) =>
          o.hooks.Some? && forall e, i :: HandsOnHook(o.hooks.value, lists, e, i)
        case _ => o.hooks.None?)
  }

  ghost predicate HandsOnHook(hooks: Hooks, lists: map<string, Json>, e: string, i: int) {
    && (e in hooks <==> e in lists && lists[e].Arr?)
    && (e in hooks ==>
          && |hooks[e]| == |lists[e].items|
          && (0 <= i < |hooks[e]| ==> hooks[e][i] == Native(lists[e].items[i])))
  }

  /** The options of a request are those the peer sent, each under its own name. */
  lemma OptionsAreHandedOn(params: Json)
    ensures HandsOn(OptionsIn(params), params, {})
  {
  }

  /** So are those of a resume, and the id to resume is among them, whatever "resume" the peer sent. */
  lemma ResumeHandsOn(params: Json, sdkSessionId: Option<Json>)
    ensures var o := WithResume(OptionsIn(params), sdkSessionId);
      && HandsOn(o, params, {"resume"})
      && (match sdkSessionId
          case Some(id) => "resume" in o.rest && o.rest["resume"] == id
          case None => "resume" !in o.rest)
  {
    OptionsAreHandedOn(params);
  }

  /** The bridges are those the request asks for, item by item. */
  lemma BridgesAreAskedFor(params: Json, i: nat)
    ensures var b := BridgingIn(params);
      && (b.permission <==>
            match Get(params, "permissionBridge")
            case Some(j) => j !in {Null, Bool(false), Num(0), Str("")}
            case None => false)
      && (match Get(params, "hookSubscriptions")
          case Some(Arr(items)) =>
            && |b.subs| == |items|
            && (i < |items| ==>
                  && (Get(items[i], "event").Some? && Get(items[i], "event").value.Str? ==>
                        b.subs[i].event == Get(items[i], "event").value.s)
                  && (b.subs[i].matcher.Some? <==>
                        Get(items[i], "matcher").Some? && Get(items[i], "matcher").value.Str?)
                  && (b.subs[i].matcher.Some? ==> Get(items[i], "matcher") == Some(Str(b.subs[i].matcher.value)))
                  && (b.subs[i].timeout.Some? <==>
                        Get(items[i], "timeout").Some? && Get(items[i], "timeout").value.Num?)
                  && (b.subs[i].timeout.Some? ==> Get(items[i], "timeout") == Some(Num(b.subs[i].timeout.value))))
          case _ => b.subs == [])
      && (match Get(params, "mcpTools")
          case Some(Arr(items)) =>
            && |b.tools| == |items|
            && (i < |items| ==>
                  && TextIs(items[i], "server", b.tools[i].server) && TextIs(items[i], "name", b.tools[i].name)
                  && TextIs(items[i], "description", b.tools[i].description)
                  && (Get(items[i], "inputSchema").Some? ==> Get(items[i], "inputSchema") == Some(b.tools[i].schema)))
          case _ => b.tools == [])
  {
  }

  /** The member, if it is a string, is this text. */
  predicate TextIs(j: Json, key: string, text: string) {
    Get(j, key).Some? && Get(j, key).value.Str? ==> Get(j, key) == Some(Str(text))
  }

  /** Nothing in the options calls back into the peer. */
  ghost predicate Bridgeless(o: Options) {
    && o.canUseTool != Some(AskPeer)
    && (o.hooks.Some? ==>
          forall e, i :: e in o.hooks.value && 0 <= i < |o.hooks.value[e]| ==> o.hooks.value[e][i].Native?)
    && (o.mcpServers.Some? ==> forall s :: s in o.mcpServers.value ==> o.mcpServers.value[s].Existing?)
  }

  /** The peer's value of an option. */
  function Asked(params: Json, key: string): Option<Json> {
    match Get(params, "options") case Some(options) => Get(options, key) case None => None
  }

  lemma RequestsAreBridgeless(params: Json)
    ensures Bridgeless(OptionsIn(params))
  {
  }

  // Specification -------------------------------------------------------------------------------

  function HookOf(s: Subscription): Hook { Bridge(s.matcher, s.timeout, s.event) }
  function ToolOf(t: ToolSpec): Tool { Tool(t.name, t.description, t.schema, t.server, t.name) }

  function ForEvent(subs: seq<Subscription>, event: string): seq<Hook> {
    if subs == [] then [] else
    var s := subs[|subs| - 1];
    ForEvent(subs[..|subs| - 1], event) + if s.event == event then [HookOf(s)] else []
  }

  function ForServer(tools: seq<ToolSpec>, server: string): seq<Tool> {
    if tools == [] then [] else
    var t := tools[|tools| - 1];
    ForServer(tools[..|tools| - 1], server) + if t.server == server then [ToolOf(t)] else []
  }

  function Events(subs: seq<Subscription>): set<string> { set s | s in subs :: s.event }
  function Servers(tools: seq<ToolSpec>): set<string> { set t | t in tools :: t.server }

  function HooksOf(subs: seq<Subscription>): Hooks {
    map e | e in Events(subs) :: ForEvent(subs, e)
  }

  function ServersOf(tools: seq<ToolSpec>): map<string, Server> {
    map s | s in Servers(tools) :: SdkServer(s, ForServer(tools, s))
  }

  function At<V>(m: map<string, seq<V>>, k: string): seq<V> { if k in m then m[k] else [] }

  function Merged(a: Hooks, b: Hooks): Hooks {
    map k | k in a.Keys + b.Keys :: At(a, k) + At(b, k)
  }

  function Given<V>(o: Option<map<string, V>>): map<string, V> { if o.Some? then o.value else map[] }

  function Enriched(o: Options, b: Bridging): Options {
    Options(
      if b.permission then Some(AskPeer) else o.canUseTool,
      if b.subs == [] then o.hooks
      else Some(Merged(Given(o.hooks), HooksOf(b.subs))),
      if b.tools == [] then o.mcpServers
      else Some(Given(o.mcpServers) + ServersOf(b.tools)),
      o.rest)
  }

  // Properties ----------------------------------------------------------------------------------

  lemma {:induction false} ForEventOfConcat(a: seq<Subscription>, b: seq<Subscription>, e: string)
    ensures ForEvent(a + b, e) == ForEvent(a, e) + ForEvent(b, e)
  {
    if b == [] {
      assert a + b == a;
    } else {
      var n := |b| - 1;
      assert (a + b)[..|a + b| - 1] == a + b[..n];
      ForEventOfConcat(a, b[..n], e);
    }
  }

  lemma EventsSnoc(subs: seq<Subscription>, s: Subscription)
    ensures Events(subs + [s]) == Events(subs) + {s.event}
  {
  }

  lemma {:induction false} EmptyIfAbsent(subs: seq<Subscription>, e: string)
    ensures ForEvent(subs, e) == [] <==> e !in Events(subs)
  {
    if subs != [] {
      var n := |subs| - 1;
      EmptyIfAbsent(subs[..n], e);
      EventsSnoc(subs[..n], subs[n]);
      assert subs == subs[..n] + [subs[n]];
    }
  }

  /** Grouping commutes with concatenation. */
  lemma HooksOfConcat(a: seq<Subscription>, b: seq<Subscription>)
    ensures HooksOf(a + b) == Merged(HooksOf(a), HooksOf(b))
  {
    assert Events(a + b) == Events(a) + Events(b);
    forall e | e in Events(a + b) ensures HooksOf(a + b)[e] == Merged(HooksOf(a), HooksOf(b))[e] {
      ForEventOfConcat(a, b, e);
      EmptyIfAbsent(a, e);
      EmptyIfAbsent(b, e);
    }
  }

  lemma AtMerged(a: Hooks, b: Hooks, k: string)
    ensures At(Merged(a, b), k) == At(a, k) + At(b, k)
  {
  }

  lemma MergeIsAssociative(a: Hooks, b: Hooks, c: Hooks)
    ensures Merged(Merged(a, b), c) == Merged(a, Merged(b, c))
  {
    var ab, bc := Merged(a, b), Merged(b, c);
    assert ab.Keys + c.Keys == a.Keys + bc.Keys;
    forall k ensures At(ab, k) + At(c, k) == At(a, k) + At(bc, k) {
      AtMerged(a, b, k);
      AtMerged(b, c, k);
      Associative(At(a, k), At(b, k), At(c, k));
    }
  }

  /** Per event, the existing hooks come first and the new ones follow; an empty table adds nothing. */
  lemma MergeKeepsExisting(a: Hooks, b: Hooks, k: string)
    ensures At(a, k) <= At(Merged(a, b), k)
    ensures At(Merged(a, b), k)[|At(a, k)|..] == At(b, k)
    ensures Merged(a, map[]) == a
  {
    AtMerged(a, b, k);
    forall e | e in a ensures Merged(a, map[])[e] == a[e] {
      assert a[e] + [] == a[e];
    }
    assert Merged(a, map[]).Keys == a.Keys;
  }

  /** How many of the specs belong to a server. */
  function Load(tools: seq<ToolSpec>, server: string): nat {
    if tools == [] then 0 else
    Load(tools[..|tools| - 1], server) + if tools[|tools| - 1].server == server then 1 else 0
  }

  /**
   Every spec is placed exactly once: under its own server, at the position given by the specs of
   that server before it, as a tool that calls the peer with that server and name; and a server holds
   as many tools as it has specs.
   */
  lemma {:induction false} PlacedExactlyOnce(tools: seq<ToolSpec>, i: nat)
    requires i < |tools|
    ensures var t := tools[i];
      && t.server in ServersOf(tools)
      && ServersOf(tools)[t.server].name == t.server
      && |ServersOf(tools)[t.server].tools| == Load(tools, t.server)
      && Load(tools[..i], t.server) < Load(tools, t.server)
      && var tool := ServersOf(tools)[t.server].tools[Load(tools[..i], t.server)];
         && tool.name == t.name && tool.description == t.description && tool.schema == t.schema
         && tool.callsServer == t.server && tool.callsTool == t.name
  {
    var n := |tools| - 1;
    var t := tools[i];
    LoadIsLength(tools, t.server);
    if i < n {
      var pre := tools[..n];
      assert pre[..i] == tools[..i];
      PlacedExactlyOnce(pre, i);
      assert t in tools;
    } else {
      LoadIsLength(tools[..n], t.server);
    }
  }

  lemma {:induction false} LoadIsLength(tools: seq<ToolSpec>, server: string)
    ensures |ForServer(tools, server)| == Load(tools, server)
  {
    if tools != [] {
      LoadIsLength(tools[..|tools| - 1], server);
    }
  }

  /** How many of the subscriptions are for an event. */
  function Subscribed(subs: seq<Subscription>, event: string): nat {
    if subs == [] then 0 else
    Subscribed(subs[..|subs| - 1], event) + if subs[|subs| - 1].event == event then 1 else 0
  }

  lemma {:induction false} SubscribedIsLength(subs: seq<Subscription>, event: string)
    ensures |ForEvent(subs, event)| == Subscribed(subs, event)
  {
    if subs != [] { SubscribedIsLength(subs[..|subs| - 1], event); }
  }

  /**
   Every subscription is one hook: under its own event, behind the earlier ones for that event, with
   its matcher and timeout and a callback that fires that event; and an event has as many hooks as it
   has subscriptions.
   */
  lemma {:induction false} HookedExactlyOnce(subs: seq<Subscription>, i: nat)
    requires i < |subs|
    ensures var s := subs[i];
      && s.event in HooksOf(subs)
      && |HooksOf(subs)[s.event]| == Subscribed(subs, s.event)
      && Subscribed(subs[..i], s.event) < Subscribed(subs, s.event)
      && HooksOf(subs)[s.event][Subscribed(subs[..i], s.event)] == Bridge(s.matcher, s.timeout, s.event)
  {
    var n := |subs| - 1;
    SubscribedIsLength(subs, subs[i].event);
    if i < n {
      assert subs[..n][..i] == subs[..i];
      HookedExactlyOnce(subs[..n], i);
      assert subs[i] in subs;
    } else {
      SubscribedIsLength(subs[..n], subs[i].event);
    }
  }

  /**
   What becomes of the options the peer supplied: hooks stay in front of the new ones, event by event;
   a server survives if and only if no tool names it, canUseTool if and only if no permission bridge
   is asked for; the others survive always. And every bridge asked for is there.
   */
  lemma WhatSurvives(o: Options, b: Bridging, k: string)
    requires Bridgeless(o)
    ensures var e := Enriched(o, b);
      && e.rest == o.rest
      && At(Given(o.hooks), k) <= At(Given(e.hooks), k)
      && At(Given(e.hooks), k)[|At(Given(o.hooks), k)|..] == ForEvent(b.subs, k)
      && (k in Given(o.mcpServers) ==>
            (k in Given(e.mcpServers) && Given(e.mcpServers)[k] == Given(o.mcpServers)[k] <==> k !in Servers(b.tools)))
      && (k in Servers(b.tools) ==>
            k in Given(e.mcpServers) && Given(e.mcpServers)[k] == SdkServer(k, ForServer(b.tools, k)))
      && (k in Given(e.mcpServers) ==> k in Given(o.mcpServers) || k in Servers(b.tools))
      && (e.canUseTool == o.canUseTool <==> !b.permission)
      && (b.permission ==> e.canUseTool == Some(AskPeer))
  {
    EmptyIfAbsent(b.subs, k);
    if b.subs != [] {
      MergeKeepsExisting(Given(o.hooks), HooksOf(b.subs), k);
    }
    if b.tools == [] {
      assert k !in Servers(b.tools);
    }
  }

  /** resume asks for no bridge, so what it hands on is what the peer sent, with the id to resume. */
  lemma ResumeInstallsNoBridge(params: Json, sdkSessionId: Option<Json>)
    ensures var o := WithResume(OptionsIn(params), sdkSessionId);
      Enriched(o, NO_BRIDGES) == o && Bridgeless(o)
  {
    RequestsAreBridgeless(params);
  }

  // The loops -----------------------------------------------------------------------------------

  method MakeHooks(subs: seq<Subscription>) returns (out: Hooks)
    ensures out == HooksOf(subs)
  {
    out := map[];
    for i := 0 to |subs|
      invariant out == HooksOf(subs[..i])
    {
      var s := subs[i];
      HooksSnoc(subs[..i], s);
      assert subs[..i + 1] == subs[..i] + [s];
      out := out[s.event := At(out, s.event) + [HookOf(s)]];
    }
    assert subs[..|subs|] == subs;
  }

  lemma HooksSnoc(subs: seq<Subscription>, s: Subscription)
    ensures HooksOf(subs + [s]) == HooksOf(subs)[s.event := At(HooksOf(subs), s.event) + [HookOf(s)]]
  {
    EventsSnoc(subs, s);
    assert (subs + [s])[..|subs|] == subs;
    EmptyIfAbsent(subs, s.event);
    assert forall e :: e != s.event ==> ForEvent(subs + [s], e) == ForEvent(subs, e);
  }

  method MergeHooks(a: Hooks, b: Hooks) returns (out: Hooks)
    ensures out == Merged(a, b)
  {
    out := a;
    var todo := b.Keys;
    while todo != {}
      invariant todo <= b.Keys
      invariant out.Keys == a.Keys + (b.Keys - todo)
      invariant forall k :: k in out ==> out[k] == At(a, k) + if k in todo then [] else At(b, k)
      decreases todo
    {
      var k :| k in todo;
      out := out[k := At(out, k) + b[k]];
      todo := todo - {k};
    }
  }

  /** Each server that a spec names has the specs that name it, in order. */
  ghost predicate Grouped(byServer: map<string, seq<ToolSpec>>, tools: seq<ToolSpec>) {
    && byServer.Keys == Servers(tools)
    && forall s :: s in byServer ==> SpecsToTools(byServer[s]) == ForServer(tools, s)
  }

  function Listed(byServer: map<string, seq<ToolSpec>>, t: ToolSpec): map<string, seq<ToolSpec>> {
    byServer[t.server := At(byServer, t.server) + [t]]
  }

  lemma NoneGrouped()
    ensures Grouped(map[], [])
  {
  }

  lemma GroupedSnoc(byServer: map<string, seq<ToolSpec>>, tools: seq<ToolSpec>, t: ToolSpec)
    requires Grouped(byServer, tools)
    ensures Grouped(Listed(byServer, t), tools + [t])
  {
    var list := At(byServer, t.server);
    ServerSnoc(tools, t);
    assert (list + [t])[..|list|] == list;
    assert SpecsToTools(list + [t]) == SpecsToTools(list) + [ToolOf(t)];
  }

  method GroupByServer(tools: seq<ToolSpec>) returns (byServer: map<string, seq<ToolSpec>>)
    ensures Grouped(byServer, tools)
  {
    byServer := map[];
    NoneGrouped();
    assert tools[..0] == [];
    for i := 0 to |tools|
      invariant Grouped(byServer, tools[..i])
    {
      GroupedSnoc(byServer, tools[..i], tools[i]);
      PrefixSnoc(tools, i);
      byServer := Listed(byServer, tools[i]);
    }
    assert tools[..|tools|] == tools;
  }

  lemma ServerSnoc(tools: seq<ToolSpec>, t: ToolSpec)
    ensures Servers(tools + [t]) == Servers(tools) + {t.server}
    ensures t.server !in Servers(tools) ==> ForServer(tools, t.server) == []
    ensures forall s :: ForServer(tools + [t], s) == ForServer(tools, s) + if s == t.server then [ToolOf(t)] else []
  {
    assert (tools + [t])[..|tools|] == tools;
    AbsentServer(tools, t.server);
  }

  method MakeMcpServers(tools: seq<ToolSpec>) returns (servers: map<string, Server>)
    ensures servers == ServersOf(tools)
  {
    var byServer := GroupByServer(tools);
    servers := map[];
    var todo := byServer.Keys;
    while todo != {}
      invariant todo <= byServer.Keys
      invariant servers.Keys == byServer.Keys - todo
      invariant forall s :: s in servers ==> servers[s] == SdkServer(s, ForServer(tools, s))
      decreases todo
    {
      var s :| s in todo;
      servers := servers[s := SdkServer(s, SpecsToTools(byServer[s]))];
      todo := todo - {s};
    }
  }

  /** specs.map(spec => tool(...)). */
  function SpecsToTools(specs: seq<ToolSpec>): seq<Tool> {
    if specs == [] then [] else SpecsToTools(specs[..|specs| - 1]) + [ToolOf(specs[|specs| - 1])]
  }

  lemma {:induction false} AbsentServer(tools: seq<ToolSpec>, server: string)
    ensures server !in Servers(tools) ==> ForServer(tools, server) == []
  {
    if tools != [] {
      var n := |tools| - 1;
      AbsentServer(tools[..n], server);
      assert tools == tools[..n] + [tools[n]];
    }
  }

  method EnrichOptions(options: Options, b: Bridging) returns (enriched: Options)
    ensures enriched == Enriched(options, b)
  {
    enriched := options;
    if b.permission {
      enriched := enriched.(canUseTool := Some(AskPeer));
    }
    if |b.subs| > 0 {
      var hooks := MakeHooks(b.subs);
      var existing := Given(enriched.hooks);
      var merged := MergeHooks(existing, hooks);
      enriched := enriched.(hooks := Some(merged));
    }
    if |b.tools| > 0 {
      var servers := MakeMcpServers(b.tools);
      var existing := Given(enriched.mcpServers);
      enriched := enriched.(mcpServers := Some(existing + servers));
    }
  }
}
