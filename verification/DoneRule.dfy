/** When an agent may call done: the rules that DoneTool.validate checks. */
module DoneRule {
  import opened Wrappers
  import opened JsonSchema

  datatype RequiredTool = RequiredTool(name: string, minCalls: nat)

  /** An empty marker is an absent one. */
  datatype Precondition = Precondition(contains: string, unless: string, tools: seq<RequiredTool>)

  /** An entry of done_variables; an empty type or enum is an absent one. */
  datatype Variable = Variable(name: string, required: bool, kind: string, values: seq<Json>)

  datatype Rules = Rules(variables: seq<Variable>, oneOf: seq<string>, preconditions: seq<Precondition>)

  datatype Refusal =
    | MissingSummary
    | MissingVariable(name: string)
    | WrongType(name: string)
    | NotListed(name: string)
    | MissingStatus
    | MissingTool(precondition: nat, tool: string)

  function Summary(given: map<string, Json>): string {
    if "summary" in given && given["summary"].Str? then given["summary"].s else ""
  }

  /** What isinstance says: true and false are numbers too, and other types are not looked at. */
  predicate PassesAs(v: Json, kind: string) {
    match kind
    case "string" => v.Str?
    case "number" => v.Num? || v.Bool?
    case "integer" => v.Num? || v.Bool?
    case "boolean" => v.Bool?
    case _ => true
  }

  predicate Has(given: map<string, Json>, name: string) { name in given && given[name] != Null }

  predicate VariableOk(v: Variable, given: map<string, Json>) {
    && (v.required ==> Has(given, v.name))
    && (Has(given, v.name) ==> PassesAs(given[v.name], v.kind) && (v.values == [] || given[v.name] in v.values))
  }

  function FirstBad(vs: seq<Variable>, given: map<string, Json>): (r: Option<Refusal>)
    ensures r.None? <==> forall v | v in vs :: VariableOk(v, given)
  {
    if vs == [] then None
    else
      var v := vs[0];
      assert v in vs && forall w | w in vs :: w == v || w in vs[1..];
      if v.required && !Has(given, v.name) then Some(MissingVariable(v.name))
      else if Has(given, v.name) && !PassesAs(given[v.name], v.kind) then Some(WrongType(v.name))
      else if Has(given, v.name) && v.values != [] && given[v.name] !in v.values then Some(NotListed(v.name))
      else FirstBad(vs[1..], given)
  }

  /** The names of all tool calls so far stand for the dictionary of counts. */
  type History = seq<string>

  predicate OccursAt(s: string, part: string, i: nat) {
    i + |part| <= |s| && s[i..i + |part|] == part
  }

  predicate Contains(s: string, part: string) {
    exists i | 0 <= i <= |s| :: OccursAt(s, part, i)
  }

  predicate EndsWith(s: string, part: string) { |part| <= |s| && s[|s| - |part|..] == part }

  function Count(h: History, name: string): nat {
    if h == [] then 0 else Count(h[..|h| - 1], name) + if h[|h| - 1] == name then 1 else 0
  }

  function CountSuffix(h: History, suffix: string): nat {
    if h == [] then 0 else CountSuffix(h[..|h| - 1], suffix) + if EndsWith(h[|h| - 1], suffix) then 1 else 0
  }

  lemma {:induction false} CountConcat(a: History, b: History, name: string)
    ensures Count(a + b, name) == Count(a, name) + Count(b, name)
    decreases |b|
  {
    if b == [] {
      assert a + b == a;
    } else {
      assert (a + b)[..|a + b| - 1] == a + b[..|b| - 1];
      CountConcat(a, b[..|b| - 1], name);
    }
  }

  lemma {:induction false} CountsItself(h: History, k: nat)
    requires k < |h|
    ensures Count(h, h[k]) > 0
    decreases |h|
  {
    if k < |h| - 1 { CountsItself(h[..|h| - 1], k); }
  }

  lemma {:induction false} CountSuffixConcat(a: History, b: History, suffix: string)
    ensures CountSuffix(a + b, suffix) == CountSuffix(a, suffix) + CountSuffix(b, suffix)
    decreases |b|
  {
    if b == [] {
      assert a + b == a;
    } else {
      assert (a + b)[..|a + b| - 1] == a + b[..|b| - 1];
      CountSuffixConcat(a, b[..|b| - 1], suffix);
    }
  }

  /** Calls under the exact name count; only when there are none do server-prefixed names count. */
  function Calls(h: History, tool: string): nat {
    if Count(h, tool) > 0 then Count(h, tool) else CountSuffix(h, "_" + tool)
  }

  predicate Applies(p: Precondition, summary: string) {
    && (p.contains == "" || Contains(summary, p.contains))
    && (p.unless == "" || !Contains(summary, p.unless))
  }

  function FirstMissing(tools: seq<RequiredTool>, h: History): (r: Option<string>)
    ensures r.None? <==> forall t | t in tools :: t.minCalls <= Calls(h, t.name)
  {
    if tools == [] then None
    else if Calls(h, tools[0].name) < tools[0].minCalls then Some(tools[0].name)
    else
      assert forall t | t in tools :: t == tools[0] || t in tools[1..];
      FirstMissing(tools[1..], h)
  }

  function CheckPreconditions(ps: seq<Precondition>, k: nat, summary: string, h: History): (r: Option<Refusal>)
    requires k <= |ps|
    ensures r.None? <==> forall i | k <= i < |ps| && Applies(ps[i], summary) ::
      forall t | t in ps[i].tools :: t.minCalls <= Calls(h, t.name)
    decreases |ps| - k
  {
    if k == |ps| then None
    else
      var missing := FirstMissing(ps[k].tools, h);
      if Applies(ps[k], summary) && missing.Some? then Some(MissingTool(k, missing.value))
      else CheckPreconditions(ps, k + 1, summary, h)
  }

  /** None when done is accepted. */
  function Validate(given: map<string, Json>, rules: Rules, h: History): (r: Option<Refusal>)
    ensures r.None? <==>
      && Summary(given) != ""
      && (forall v | v in rules.variables :: VariableOk(v, given))
      && (rules.oneOf == [] || exists k | k in rules.oneOf :: Contains(Summary(given), k))
      && forall p | p in rules.preconditions && Applies(p, Summary(given)) ::
           forall t | t in p.tools :: t.minCalls <= Calls(h, t.name)
  {
    var summary, bad := Summary(given), FirstBad(rules.variables, given);
    if summary == "" then Some(MissingSummary)
    else if bad.Some? then bad
    else if rules.oneOf != [] && forall k | k in rules.oneOf :: !Contains(summary, k) then Some(MissingStatus)
    else CheckPreconditions(rules.preconditions, 0, summary, h)
  }

  /** The first call under the exact name hides the calls under prefixed names. */
  predicate Hides(h: History, name: string, tool: string) {
    name == tool && Count(h, tool) == 0 && CountSuffix(h, "_" + tool) > 1
  }

  /** A further call lowers the count of a tool exactly when it is the first under the exact name and more
      than one call under prefixed names had counted. */
  lemma CallLowersCountIff(h: History, name: string, tool: string)
    ensures Calls(h + [name], tool) < Calls(h, tool) <==> Hides(h, name, tool)
  {
    assert (h + [name])[..|h|] == h;
  }

  /** When the further call hides a count, its tool counts once from then on. */
  lemma HiddenCountsOnce(h: History, name: string)
    requires Hides(h, name, name)
    ensures Calls(h + [name], name) == 1
  {
    assert (h + [name])[..|h|] == h;
  }

  /** An accepted done becomes a refused one through a further call exactly when this call is the first under the
      exact name of a tool that a precondition in force requires more than once, and prefixed calls had counted. */
  lemma LosesValidityIff(given: map<string, Json>, rules: Rules, h: History, name: string)
    requires Validate(given, rules, h).None?
    ensures Validate(given, rules, h + [name]).Some? <==>
      exists p, t | p in rules.preconditions && t in p.tools ::
        Applies(p, Summary(given)) && t.minCalls > 1 && t.name == name && Hides(h, name, t.name)
  {
    forall p, t | p in rules.preconditions && t in p.tools && Applies(p, Summary(given))
      ensures t.minCalls > Calls(h + [name], t.name) <==> t.minCalls > 1 && t.name == name && Hides(h, name, t.name)
    {
      CallLowersCountIff(h, name, t.name);
      if Hides(h, name, t.name) { HiddenCountsOnce(h, name); }
    }
  }

  // ------------------------------------------------------- what the rules look at

  /** One text contains another. */
  lemma ContainsIff(s: string, part: string)
    ensures Contains(s, part) <==> exists a, b :: s == a + part + b
  {
    if Contains(s, part) {
      var i :| 0 <= i <= |s| && OccursAt(s, part, i);
      assert s == s[..i] + part + s[i + |part|..];
    }
    if a, b :| s == a + part + b { assert OccursAt(s, part, |a|); }
  }

  lemma EndsWithIff(s: string, part: string)
    ensures EndsWith(s, part) <==> exists a :: s == a + part
  {
    if EndsWith(s, part) { assert s == s[..|s| - |part|] + part; }
    if a :| s == a + part { assert s[|s| - |part|..] == part; }
  }

  /** A precondition applies unless its marker is missing from the summary, or the marker that lifts it is there. */
  lemma AppliesIff(p: Precondition, summary: string)
    ensures p.contains != "" && !Contains(summary, p.contains) ==> !Applies(p, summary)
    ensures p.unless != "" && Contains(summary, p.unless) ==> !Applies(p, summary)
    ensures Applies(p, summary) ||
      (p.contains != "" && !Contains(summary, p.contains)) || (p.unless != "" && Contains(summary, p.unless))
  {
  }

  /** The check of types is the one of the schema, but for true and false as numbers, and types it does not know. */
  lemma PassesIff(v: Json, kind: string)
    ensures kind in {"string", "boolean"} ==> (PassesAs(v, kind) <==> HasType(v, kind))
    ensures kind in {"number", "integer"} ==> (PassesAs(v, kind) <==> HasType(v, kind) || v.Bool?)
    ensures kind !in {"string", "boolean", "number", "integer"} ==> PassesAs(v, kind)
  {
  }

  /** Calls under the exact name count; just when there are none, those under a prefixed name do. */
  lemma CallsTell(h: History, tool: string, name: string)
    ensures Count(h + [name], tool) == Count(h, tool) + if name == tool then 1 else 0
    ensures CountSuffix(h + [name], tool) == CountSuffix(h, tool) + if EndsWith(name, tool) then 1 else 0
    ensures Count([], tool) == CountSuffix([], tool) == 0
    ensures tool in h <==> Count(h, tool) > 0
    ensures Calls(h, tool) == if tool in h then Count(h, tool) else CountSuffix(h, "_" + tool)
  {
    assert (h + [name])[..|h|] == h;
    if tool in h {
      var k :| 0 <= k < |h| && h[k] == tool;
      CountsItself(h, k);
    } else {
      CountsNothing(h, tool);
    }
  }

  lemma {:induction false} CountsNothing(h: History, tool: string)
    requires tool !in h
    ensures Count(h, tool) == 0
    decreases |h|
  {
    if h != [] { CountsNothing(h[..|h| - 1], tool); }
  }

  /** The first variable that is not in order, with what is wrong with it. */
  ghost predicate TellsVariable(r: Refusal, vs: seq<Variable>, k: nat, given: map<string, Json>) {
    && k < |vs| && (forall j | 0 <= j < k :: VariableOk(vs[j], given))
    && match r
       case MissingVariable(name) => name == vs[k].name && vs[k].required && !Has(given, name)
       case WrongType(name) => name == vs[k].name && Has(given, name) && !PassesAs(given[name], vs[k].kind)
       case NotListed(name) =>
         name == vs[k].name && Has(given, name) && PassesAs(given[name], vs[k].kind) && given[name] !in vs[k].values
       case _ => false
  }

  lemma {:induction false} FirstBadTells(vs: seq<Variable>, given: map<string, Json>) returns (k: nat)
    requires FirstBad(vs, given).Some?
    ensures TellsVariable(FirstBad(vs, given).value, vs, k, given)
    decreases |vs|
  {
    k := 0;
    if VariableOk(vs[0], given) {
      k := FirstBadTells(vs[1..], given);
      k := k + 1;
      assert forall j | 0 < j < k :: vs[j] == vs[1..][j - 1];
    }
  }

  /** The first precondition that applies and is not met, with its first tool that was not called often enough. */
  ghost predicate TellsTool(k: nat, tool: string, ps: seq<Precondition>, from: nat, summary: string, h: History) {
    && from <= k < |ps| && Applies(ps[k], summary)
    && (forall j | from <= j < k && Applies(ps[j], summary) :: FirstMissing(ps[j].tools, h).None?)
    && exists i | 0 <= i < |ps[k].tools| ::
         && ps[k].tools[i].name == tool && Calls(h, tool) < ps[k].tools[i].minCalls
         && forall j | 0 <= j < i :: ps[k].tools[j].minCalls <= Calls(h, ps[k].tools[j].name)
  }

  lemma {:induction false} FirstMissingTells(tools: seq<RequiredTool>, h: History) returns (i: nat)
    requires FirstMissing(tools, h).Some?
    ensures i < |tools| && FirstMissing(tools, h) == Some(tools[i].name)
    ensures Calls(h, tools[i].name) < tools[i].minCalls
    ensures forall j | 0 <= j < i :: tools[j].minCalls <= Calls(h, tools[j].name)
    decreases |tools|
  {
    i := 0;
    if tools[0].minCalls <= Calls(h, tools[0].name) {
      i := FirstMissingTells(tools[1..], h);
      i := i + 1;
      assert forall j | 0 < j < i :: tools[j] == tools[1..][j - 1];
    }
  }

  lemma {:induction false} PreconditionsTell(ps: seq<Precondition>, from: nat, summary: string, h: History)
    requires from <= |ps| && CheckPreconditions(ps, from, summary, h).Some?
    ensures var r := CheckPreconditions(ps, from, summary, h).value;
      r.MissingTool? && TellsTool(r.precondition, r.tool, ps, from, summary, h)
    decreases |ps| - from
  {
    if Applies(ps[from], summary) && FirstMissing(ps[from].tools, h).Some? {
      var i := FirstMissingTells(ps[from].tools, h);
    } else {
      PreconditionsTell(ps, from + 1, summary, h);
    }
  }

  /** A refusal names the first thing that is wrong: the summary, then the variables in their order, the status, and
      the preconditions in theirs. */
  lemma RefusalTells(given: map<string, Json>, rules: Rules, h: History)
    ensures var r := Validate(given, rules, h);
      && (r == Some(MissingSummary) <==> Summary(given) == "")
      && (Summary(given) != "" && r.Some? && (r.value.MissingVariable? || r.value.WrongType? || r.value.NotListed?) ==>
            exists k: nat :: TellsVariable(r.value, rules.variables, k, given))
      && (r.Some? && (r.value.MissingStatus? || r.value.MissingTool?) ==>
            forall v | v in rules.variables :: VariableOk(v, given))
      && (r == Some(MissingStatus) ==> forall k | k in rules.oneOf :: !Contains(Summary(given), k))
      && (r.Some? && r.value.MissingTool? ==>
            TellsTool(r.value.precondition, r.value.tool, rules.preconditions, 0, Summary(given), h))
  {
    var summary, bad := Summary(given), FirstBad(rules.variables, given);
    if summary != "" {
      if bad.Some? {
        var k := FirstBadTells(rules.variables, given);
      } else if CheckPreconditions(rules.preconditions, 0, summary, h).Some? {
        PreconditionsTell(rules.preconditions, 0, summary, h);
      }
    }
  }

  // ---------------------------------------------- calls that make no difference

  predicate OnlyDone(h: History) { forall k | 0 <= k < |h| :: h[k] == "done" }

  /** No required tool is done itself. */
  predicate NeverDone(rules: Rules) {
    forall p, t | p in rules.preconditions && t in p.tools :: t.name != "done"
  }

  lemma {:induction false} DoneIsNoPrefixed(tool: string)
    ensures !EndsWith("done", "_" + tool)
  {
    assert ("_" + tool)[0] == '_' && forall k | 0 <= k < 4 :: "done"[k] != '_';
    assert |tool| < 4 ==> "done"[3 - |tool|..][0] == "done"[3 - |tool|];
  }

  lemma {:induction false} OnlyDoneCounts(h: History, tool: string)
    requires OnlyDone(h) && tool != "done"
    ensures Count(h, tool) == CountSuffix(h, "_" + tool) == 0
    decreases |h|
  {
    if h != [] {
      DoneIsNoPrefixed(tool);
      OnlyDoneCounts(h[..|h| - 1], tool);
    }
  }

  /** Further calls of done change no verdict of rules that do not require it. */
  lemma {:induction false} DoneChangesNothing(given: map<string, Json>, rules: Rules, h: History, dones: History)
    requires NeverDone(rules) && OnlyDone(dones)
    ensures Validate(given, rules, h + dones).None? <==> Validate(given, rules, h).None?
  {
    forall p, t | p in rules.preconditions && t in p.tools ensures Calls(h + dones, t.name) == Calls(h, t.name) {
      CountConcat(h, dones, t.name);
      CountSuffixConcat(h, dones, "_" + t.name);
      OnlyDoneCounts(dones, t.name);
    }
  }

  /** The rules that require so many calls of one tool and nothing else. */
  function CallsOf(tool: string, n: nat): Rules { Rules([], [], [Precondition("", "", [RequiredTool(tool, n)])]) }

  lemma {:induction false} JudgedByCalls(given: map<string, Json>, tool: string, n: nat, h: History)
    requires Summary(given) != ""
    ensures Validate(given, CallsOf(tool, n), h).None? <==> n <= Calls(h, tool)
  {
    var rules := CallsOf(tool, n);
    var p := rules.preconditions[0];
    assert p in rules.preconditions && p.tools[0] in p.tools;
  }

  lemma {:induction false} OneMoreCounts(name: string, h: History)
    ensures Calls([name] + h, name) == 1 + Count(h, name)
  {
    CountConcat([name], h, name);
    assert [name][..0] == [] && Count([name], name) == 1;
  }

  /** Rules that tell two histories apart when a tool was called less often in the first. */
  lemma {:induction false} JudgedApart(given: map<string, Json>, name: string, before: History, all: History)
    requires Summary(given) != "" && Count(before, name) < Count(all, name)
    ensures Validate(given, CallsOf(name, 1 + Count(all, name)), [name] + before).Some?
    ensures Validate(given, CallsOf(name, 1 + Count(all, name)), [name] + all).None?
  {
    OneMoreCounts(name, before);
    OneMoreCounts(name, all);
    JudgedByCalls(given, name, 1 + Count(all, name), [name] + before);
    JudgedByCalls(given, name, 1 + Count(all, name), [name] + all);
  }

  // ------------------------------------------------------- the schema of done

  /** The properties of the schema that the LLM is given for done; next_agent is not among them here. */
  function DoneSchema(vs: seq<Variable>): Schema {
    var own := if exists v :: v in vs && v.name == "summary" then [] else [Prop("summary", TypeSchema("string"))];
    TypeSchema("object").(props := Props(own + Declared(vs)), required := ["summary"] + RequiredNames(vs))
  }

  function VariableSchema(v: Variable): Schema {
    TypeSchema(v.kind).(types := if v.kind == "" then NoType else One(v.kind),
                        enum := if v.values == [] then NoEnum else Enum(v.values))
  }

  function Declared(vs: seq<Variable>): (ps: seq<Prop>)
    ensures |ps| == |vs| && forall i | 0 <= i < |vs| :: ps[i] == Prop(vs[i].name, VariableSchema(vs[i]))
  {
    seq(|vs|, i requires 0 <= i < |vs| => Prop(vs[i].name, VariableSchema(vs[i])))
  }

  function RequiredNames(vs: seq<Variable>): (names: seq<string>)
    ensures forall v | v in vs && v.required :: v.name in names
  {
    if vs == [] then []
    else (if vs[0].required then [vs[0].name] else []) + RequiredNames(vs[1..])
  }

  /** Arguments that the schema of done accepts pass the check of the variables exactly when no required variable
      is null. */
  lemma SchemaPassesIff(vs: seq<Variable>, given: map<string, Json>)
    requires Accepts(map[], 0, DoneSchema(vs), Obj(given))
    ensures FirstBad(vs, given).None? <==> forall v | v in vs && v.required :: given[v.name] != Null
  {
    var props := DoneSchema(vs).props.list;
    forall v | v in vs
      ensures VariableOk(v, given) <==> (v.required ==> given[v.name] != Null)
    {
      var i :| 0 <= i < |vs| && vs[i] == v;
      var at := |props| - |vs| + i;
      assert props[at] == Declared(vs)[i];
      assert v.required ==> v.name in DoneSchema(vs).required;
      if v.name in given { assert Accepts(map[], 0, props[at].schema, given[v.name]); }
    }
  }
}
