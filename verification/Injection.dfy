/** Parameters that the platform fills in: what the LLM sees of a tool and what the tool is called with. */
module Injection {
  import opened Wrappers
  import opened ToolCounts

  /** tools is None when the rule holds for all tools of its server. */
  datatype Rule = Rule(param: string, path: string, hidden: bool, tools: Option<seq<string>>)

  datatype Server = Server(rules: seq<Rule>, tools: seq<string>)

  /** JSON values as text. */
  type Args = map<string, string>

  type Context = string -> Option<string>

  predicate Applies(r: Rule, tool: string) { r.tools.None? || tool in r.tools.value }

  function RulesFor(rules: seq<Rule>, tool: string): (r: seq<Rule>)
    ensures forall x :: x in r <==> x in rules && Applies(x, tool)
  {
    if rules == [] then []
    else
      var init, last := rules[..|rules| - 1], rules[|rules| - 1];
      assert rules == init + [last];
      RulesFor(init, tool) + if Applies(last, tool) then [last] else []
  }

  /** The rules of a server are keyed by their parameter. */
  ghost predicate Distinct(rules: seq<Rule>) {
    forall i, j | 0 <= i < j < |rules| :: rules[i].param != rules[j].param
  }

  lemma {:induction false} RulesForDistinct(rules: seq<Rule>, tool: string)
    requires Distinct(rules)
    ensures Distinct(RulesFor(rules, tool))
    decreases |rules|
  {
    if rules != [] {
      var init, last := rules[..|rules| - 1], rules[|rules| - 1];
      RulesForDistinct(init, tool);
      var shorter := RulesFor(init, tool);
      forall i | 0 <= i < |shorter| ensures shorter[i].param != last.param {
        assert shorter[i] in init;
      }
    }
  }

  function Value(args: Args, p: string): Option<string> { if p in args then Some(args[p]) else None }

  lemma SameLookups(a: Args, b: Args)
    requires forall p :: Value(a, p) == Value(b, p)
    ensures a == b
  {
    assert forall p :: p in a <==> Value(a, p).Some?;
    assert forall p :: p in b <==> Value(b, p).Some?;
    forall p | p in a ensures p in b && a[p] == b[p] { assert Value(a, p) == Value(b, p); }
    forall p | p in b ensures p in a { assert Value(a, p) == Value(b, p); }
  }

  // ------------------------------------------------------------------ injecting

  /** One rule: a hidden parameter is overridden, another is only filled in; None from the context does nothing. */
  function Inject(args: Args, r: Rule, context: Context): Args {
    if !r.hidden && r.param in args then args
    else match context(r.path) case None => args case Some(v) => args[r.param := v]
  }

  function Injected(args: Args, rules: seq<Rule>, context: Context): Args {
    if rules == [] then args else Inject(Injected(args, rules[..|rules| - 1], context), rules[|rules| - 1], context)
  }

  method ApplyInjectionRules(args: Args, rules: seq<Rule>, context: Context) returns (injected: Args)
    ensures injected == Injected(args, rules, context)
  {
    injected := args;
    for i := 0 to |rules|
      invariant injected == Injected(args, rules[..i], context)
    {
      assert rules[..i + 1][..i] == rules[..i];
      var rule := rules[i];
      if !rule.hidden && rule.param in injected { continue; }
      var value := context(rule.path);
      if value.Some? { injected := injected[rule.param := value.value]; }
    }
    assert rules[..|rules|] == rules;
  }

  /** What a parameter is worth in the end, from its own rule alone. */
  function Worth(given: Option<string>, r: Rule, context: Context): Option<string> {
    if r.hidden then if context(r.path).Some? then context(r.path) else given
    else if given.Some? then given else context(r.path)
  }

  /** A hidden parameter gets what the context knows, and any other what was given, each for want of this the other. */
  lemma WorthTells(given: Option<string>, r: Rule, context: Context)
    ensures r.hidden && context(r.path).Some? ==> Worth(given, r, context) == context(r.path)
    ensures !r.hidden && given.Some? ==> Worth(given, r, context) == given
    ensures context(r.path).None? ==> Worth(given, r, context) == given
    ensures given.None? ==> Worth(given, r, context) == context(r.path)
  {
  }

  /** Each parameter depends on its own rule and on nothing else that the LLM has sent. */
  lemma {:induction false} InjectedParam(args: Args, rules: seq<Rule>, context: Context, p: string)
    requires Distinct(rules)
    ensures forall r | r in rules && r.param == p ::
      Value(Injected(args, rules, context), p) == Worth(Value(args, p), r, context)
    ensures (forall r | r in rules :: r.param != p) ==>
      Value(Injected(args, rules, context), p) == Value(args, p)
    decreases |rules|
  {
    if rules != [] {
      var init, last := rules[..|rules| - 1], rules[|rules| - 1];
      InjectedParam(args, init, context, p);
      forall r | r in rules ensures r == last || (r in init && r.param != last.param) {
        var i :| 0 <= i < |rules| && rules[i] == r;
        if i < |init| { assert init[i] == r; }
      }
      assert last in rules && forall r | r in init :: r in rules;
      assert last.param != p ==> Value(Injected(args, rules, context), p) == Value(Injected(args, init, context), p);
    }
  }

  // ------------------------------------------------ what the tool is called with

  const TRANSLATED := {"translated_content", "translated_path"}

  /** The arguments of the MCP call. */
  function Sent(args: Args, server: Server, tool: string, context: Context, callId: string): Args {
    var injected := Injected(args - TRANSLATED, RulesFor(server.rules, tool), context);
    if tool == "bash" then injected["tool_call_id" := callId] else injected
  }

  function Hidden(server: Server, tool: string): set<string> {
    set r | r in server.rules && r.hidden && Applies(r, tool) :: r.param
  }

  /** The parameters the platform takes away or sets in any case. */
  function Owned(tool: string): set<string> { TRANSLATED + if tool == "bash" then {"tool_call_id"} else {} }

  ghost predicate AgreeOutside(a: Args, b: Args, params: set<string>) {
    forall p | p !in params :: Value(a, p) == Value(b, p)
  }

  /** The context knows the value of every hidden parameter that is not set in any case. */
  ghost predicate Resolves(server: Server, tool: string, context: Context) {
    forall r | r in server.rules && r.hidden && Applies(r, tool) && r.param !in Owned(tool) :: context(r.path).Some?
  }

  lemma SentParam(args: Args, server: Server, tool: string, context: Context, callId: string, p: string)
    requires Distinct(server.rules)
    ensures var given := if p in TRANSLATED then None else Value(args, p);
      var sent := Value(Sent(args, server, tool, context, callId), p);
      if tool == "bash" && p == "tool_call_id" then sent == Some(callId)
      else
        && (forall r | r in server.rules && Applies(r, tool) && r.param == p :: sent == Worth(given, r, context))
        && ((forall r | r in server.rules && Applies(r, tool) :: r.param != p) ==> sent == given)
  {
    RulesForDistinct(server.rules, tool);
    InjectedParam(args - TRANSLATED, RulesFor(server.rules, tool), context, p);
    assert Value(args - TRANSLATED, p) == if p in TRANSLATED then None else Value(args, p);
  }

  /** What the LLM sends for hidden parameters makes no difference to the call exactly when the context
      resolves them all. */
  lemma HiddenMakesNoDifferenceIff(server: Server, tool: string, context: Context, callId: string)
    requires Distinct(server.rules)
    ensures (forall a, b | AgreeOutside(a, b, Hidden(server, tool) + Owned(tool)) ::
               Sent(a, server, tool, context, callId) == Sent(b, server, tool, context, callId))
            <==> Resolves(server, tool, context)
  {
    if Resolves(server, tool, context) {
      forall a, b | AgreeOutside(a, b, Hidden(server, tool) + Owned(tool))
        ensures Sent(a, server, tool, context, callId) == Sent(b, server, tool, context, callId)
      {
        SameCall(a, b, server, tool, context, callId);
      }
    } else {
      var r :| r in server.rules && r.hidden && Applies(r, tool) && r.param !in Owned(tool) && context(r.path).None?;
      var a: Args, b: Args := map[], map[r.param := ""];
      assert r.param in Hidden(server, tool);
      SentParam(a, server, tool, context, callId, r.param);
      SentParam(b, server, tool, context, callId, r.param);
      assert AgreeOutside(a, b, Hidden(server, tool) + Owned(tool));
    }
  }

  lemma SameCall(a: Args, b: Args, server: Server, tool: string, context: Context, callId: string)
    requires Distinct(server.rules) && Resolves(server, tool, context)
    requires AgreeOutside(a, b, Hidden(server, tool) + Owned(tool))
    ensures Sent(a, server, tool, context, callId) == Sent(b, server, tool, context, callId)
  {
    var sentA, sentB := Sent(a, server, tool, context, callId), Sent(b, server, tool, context, callId);
    forall p ensures Value(sentA, p) == Value(sentB, p) {
      SentParam(a, server, tool, context, callId, p);
      SentParam(b, server, tool, context, callId, p);
      if r :| r in server.rules && Applies(r, tool) && r.param == p {
        if r.hidden { assert p in Hidden(server, tool); }
      } else {
        assert p !in Hidden(server, tool);
      }
    }
    SameLookups(sentA, sentB);
  }

  // ------------------------------------------------------- what the LLM is shown

  /** get_hidden_params: for each tool that the configuration lists. */
  method GetHiddenParams(server: Server) returns (hidden: map<string, set<string>>)
    ensures forall t :: t in hidden <==> t in server.tools
    ensures forall t | t in hidden :: hidden[t] == Hidden(server, t)
  {
    hidden := map t | t in server.tools :: {};
    for i := 0 to |server.rules|
      invariant forall t :: t in hidden <==> t in server.tools
      invariant forall t | t in hidden :: hidden[t] == Hidden(Server(server.rules[..i], server.tools), t)
    {
      var rule := server.rules[i];
      forall t { HiddenAppend(server.rules[..i], rule, server.tools, t); }
      assert server.rules[..i + 1] == server.rules[..i] + [rule];
      if rule.hidden {
        var names := if rule.tools.None? then server.tools else rule.tools.value;
        hidden := AddParam(hidden, names, rule.param);
      }
    }
    assert server.rules[..|server.rules|] == server.rules;
  }

  lemma HiddenAppend(rules: seq<Rule>, r: Rule, tools: seq<string>, t: string)
    ensures Hidden(Server(rules + [r], tools), t)
            == Hidden(Server(rules, tools), t) + if r.hidden && Applies(r, t) then {r.param} else {}
  {
    var more := rules + [r];
    assert forall x :: x in more <==> x in rules || x == r;
    var before, after := Hidden(Server(rules, tools), t), Hidden(Server(more, tools), t);
    forall p ensures p in after <==> p in before || (r.hidden && Applies(r, t) && p == r.param) {
    }
  }

  /** The parameter is added to the tools of the list that the map knows. */
  method AddParam(hidden: map<string, set<string>>, names: seq<string>, param: string)
    returns (more: map<string, set<string>>)
    ensures forall t :: t in more <==> t in hidden
    ensures forall t | t in more :: more[t] == hidden[t] + if t in names then {param} else {}
  {
    more := hidden;
    for j := 0 to |names|
      invariant forall t :: t in more <==> t in hidden
      invariant forall t | t in more :: more[t] == hidden[t] + if t in names[..j] then {param} else {}
    {
      var name := names[j];
      assert names[..j + 1] == names[..j] + [name];
      if name in more { more := more[name := more[name] + {param}]; }
    }
    assert names[..|names|] == names;
  }

  /** get_hidden_params_for_full_name: the full name is split at its first underscore. */
  function HiddenByFullName(config: map<string, Server>, fullName: string): set<string> {
    match Split(fullName)
    case None => {}
    case Some(row) =>
      if row.server in config && row.tool in config[row.server].tools then Hidden(config[row.server], row.tool) else {}
  }

  /** The part of a server's name before its first underscore. */
  function Head(server: string): (h: string)
    ensures '_' !in h && h <= server
    ensures h == server || server[|h|] == '_'
  {
    if server == "" || server[0] == '_' then "" else [server[0]] + Head(server[1..])
  }

  /** What the name of a tool becomes when its full name is split. */
  function Rest(server: string, tool: string): string {
    if Head(server) == server then tool else server[|Head(server)| + 1..] + "_" + tool
  }

  lemma {:induction false} SplitAt(head: string, tail: string)
    requires '_' !in head
    ensures Split(head + "_" + tail) == Some(Row(head, tail))
    decreases |head|
  {
    var name := head + "_" + tail;
    if head == "" {
      assert name[1..] == tail;
    } else {
      assert name[1..] == head[1..] + "_" + tail;
      SplitAt(head[1..], tail);
      assert [head[0]] + head[1..] == head;
    }
  }

  lemma {:induction false} SameName(server: string, tool: string)
    ensures server + "_" + tool == Head(server) + "_" + Rest(server, tool)
  {
    var h := Head(server);
    if h != server {
      var tail := server[|h| + 1..];
      assert server == h + ("_" + tail);
      assert (h + ("_" + tail)) + ("_" + tool) == h + "_" + (tail + "_" + tool);
    }
  }

  /** A full name is read as its own server and tool exactly when the server has no underscore in its name. */
  lemma {:induction false} SplitJoinedIff(server: string, tool: string)
    ensures Split(server + "_" + tool) == Some(Row(Head(server), Rest(server, tool)))
    ensures Split(server + "_" + tool) == Some(Row(server, tool)) <==> '_' !in server
  {
    SameName(server, tool);
    SplitAt(Head(server), Rest(server, tool));
    if Head(server) != server { assert server[|Head(server)|] in server; }
  }

  /** A server that is not configured has no rules and no tools. */
  function Configured(config: map<string, Server>, server: string): Server {
    if server in config then config[server] else Server([], [])
  }

  /** A call goes to the server and tool that its full name is read as. The parameters taken out of its schema are
      exactly the hidden ones injected there, if and only if the configuration lists the tool or hides nothing. */
  lemma {:induction false} StrippedIsInjectedIff(config: map<string, Server>, server: string, tool: string)
    ensures var target := Configured(config, Head(server));
      var hidden := Hidden(target, Rest(server, tool));
      HiddenByFullName(config, server + "_" + tool) == hidden <==> Rest(server, tool) in target.tools || hidden == {}
  {
    SplitJoinedIff(server, tool);
  }

  /** A tool as the LLM sees it. */
  datatype Schema = Schema(name: string, properties: set<string>, required: seq<string>)

  function Without(required: seq<string>, p: string): seq<string> {
    if required == [] then [] else if required[0] == p then required[1..] else [required[0]] + Without(required[1..], p)
  }

  lemma {:induction false} WithoutCounts(required: seq<string>, p: string)
    ensures multiset(Without(required, p)) == multiset(required) - multiset{p}
    decreases |required|
  {
    if required != [] {
      WithoutCounts(required[1..], p);
      FirstCounts(required);
      FirstCounts([required[0]] + Without(required[1..], p));
      assert ([required[0]] + Without(required[1..], p))[1..] == Without(required[1..], p);
    }
  }

  lemma {:induction false} FirstCounts(names: seq<string>)
    requires names != []
    ensures multiset(names) == multiset{names[0]} + multiset(names[1..])
  {
    assert names == [names[0]] + names[1..];
  }

  /** The schemas are edited in place: hidden properties go, and each is dropped from the required ones. */
  method StripHiddenParams(tools: array<Schema>, config: map<string, Server>)
    modifies tools
    ensures forall k | 0 <= k < tools.Length ::
      var hidden := HiddenByFullName(config, old(tools[k].name));
      && tools[k].name == old(tools[k].name)
      && tools[k].properties == old(tools[k].properties) - hidden
      && multiset(tools[k].required) == multiset(old(tools[k].required)) - multiset(hidden)
  {
    for i := 0 to tools.Length
      invariant forall k | i <= k < tools.Length :: tools[k] == old(tools[k])
      invariant forall k | 0 <= k < i ::
        var hidden := HiddenByFullName(config, old(tools[k].name));
        && tools[k].name == old(tools[k].name)
        && tools[k].properties == old(tools[k].properties) - hidden
        && multiset(tools[k].required) == multiset(old(tools[k].required)) - multiset(hidden)
    {
      var hidden := HiddenByFullName(config, tools[i].name);
      var required := RemoveRequired(tools[i].required, hidden);
      tools[i] := Schema(tools[i].name, tools[i].properties - hidden, required);
    }
  }

  method RemoveRequired(required: seq<string>, hidden: set<string>) returns (rest: seq<string>)
    ensures multiset(rest) == multiset(required) - multiset(hidden)
  {
    rest := required;
    var left := hidden;
    while left != {}
      invariant left <= hidden
      invariant multiset(rest) == multiset(required) - multiset(hidden - left)
      decreases left
    {
      var p :| p in left;
      WithoutCounts(rest, p);
      rest := Without(rest, p);
      assert hidden - (left - {p}) == (hidden - left) + {p};
      left := left - {p};
    }
    assert hidden - {} == hidden;
  }
}
