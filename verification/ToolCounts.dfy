/** The counts of tool calls per name, in memory while a run is going and rebuilt from the stored rows when
    it is resumed. */
module ToolCounts {
  import opened DoneRule
  import opened JsonSchema
  import opened Wrappers

  /** One call and why it might not be stored: a path constraint, or a subagents call without agents. */
  datatype Call = Call(name: string, pathError: bool, hasAgents: bool)

  datatype Row = Row(server: string, tool: string)

  const BUILTINS := {"hitl_ask_question", "hitl_ask_multiple_choice_question", "ask_expert_question",
                     "ask_expert_multiple_choice_question", "done", "make_plan", "set_intent", "create_message",
                     "invoke_skill", "test_report", "read_attachment"}

  /** Split at the first underscore. */
  function Split(name: string): (row: Option<Row>)
    ensures row.None? <==> '_' !in name
    ensures row.Some? ==> name == row.value.server + "_" + row.value.tool && '_' !in row.value.server
  {
    if name == "" then None
    else if name[0] == '_' then
      assert name == "" + "_" + name[1..];
      Some(Row("", name[1..]))
    else
      match Split(name[1..])
      case None => None
      case Some(row) => Some(Row([name[0]] + row.server, row.tool))
  }

  /** The row that is stored for a call before its tool runs. */
  function Stored(c: Call): Option<Row> {
    if c.name == "done" then Some(Row("builtin", "done"))
    else if c.pathError then None
    else if c.name == "subagents" then if c.hasAgents then Some(Row("builtin", "subagents")) else None
    else if c.name in BUILTINS then Some(Row("builtin", c.name))
    else Split(c.name)
  }

  /** A call leaves no row exactly when its path is refused, when it spawns nobody, or when it names no tool at all. */
  lemma StoredIff(c: Call)
    ensures c.name == "done" ==> Stored(c).Some?
    ensures c.name != "done" ==>
      (Stored(c).None? <==>
        || c.pathError || (c.name == "subagents" && !c.hasAgents)
        || (c.name != "subagents" && c.name !in BUILTINS && '_' !in c.name))
  {
  }

  /** The name under which a stored row is counted. */
  function Key(row: Row): string {
    if row.server != "" && row.server != "builtin" then row.server + "_" + row.tool else row.tool
  }

  /** Not routed to a tool server. */
  predicate Direct(c: Call) { c.name == "done" || c.name == "subagents" || c.name in BUILTINS }

  /** Only a tool of a nameless server or of a server named builtin is counted under another name. */
  predicate Ambiguous(name: string) {
    Split(name).Some? && (Split(name).value.server == "" || Split(name).value.server == "builtin")
  }

  /** Splitting the name and joining it again gives the name back, except for ambiguous names. */
  lemma RejoinIff(c: Call)
    requires Stored(c).Some?
    ensures Key(Stored(c).value) == c.name <==> Direct(c) || !Ambiguous(c.name)
  {
    if !Direct(c) {
      var row := Split(c.name).value;
      assert c.name == row.server + "_" + row.tool;
    }
  }

  // ---------------------------------------------------------------- histories

  /** A run is a sequence of calls; between any two of them it may be paused and resumed. */
  datatype Event = Called(call: Call) | Resumed

  function CallsOf(events: seq<Event>): seq<Call> {
    if events == [] then []
    else if events[|events| - 1].Called? then CallsOf(events[..|events| - 1]) + [events[|events| - 1].call]
    else CallsOf(events[..|events| - 1])
  }

  function Names(calls: seq<Call>): History {
    if calls == [] then [] else Names(calls[..|calls| - 1]) + [calls[|calls| - 1].name]
  }

  function Rows(calls: seq<Call>): seq<Row> {
    if calls == [] then []
    else match Stored(calls[|calls| - 1])
      case None => Rows(calls[..|calls| - 1])
      case Some(row) => Rows(calls[..|calls| - 1]) + [row]
  }

  function Keys(rows: seq<Row>): History {
    if rows == [] then [] else Keys(rows[..|rows| - 1]) + [Key(rows[|rows| - 1])]
  }

  /** The counts in memory: one more per call, and what the rows give after a resume. */
  function Memory(events: seq<Event>): History {
    if events == [] then []
    else
      var before := events[..|events| - 1];
      match events[|events| - 1]
      case Called(c) => Memory(before) + [c.name]
      case Resumed => Rebuilt(CallsOf(before))
  }

  /** The history that the stored rows of some calls stand for. */
  function Rebuilt(calls: seq<Call>): History { Keys(Rows(calls)) }

  function Lookup(counts: map<string, nat>, name: string): nat { if name in counts then counts[name] else 0 }

  /** What continue_run does with the rows of a run. */
  method RebuildCounts(rows: seq<Row>) returns (counts: map<string, nat>)
    ensures forall name :: Lookup(counts, name) == Count(Keys(rows), name)
  {
    counts := map[];
    for i := 0 to |rows|
      invariant forall name :: Lookup(counts, name) == Count(Keys(rows[..i]), name)
    {
      var row := rows[i];
      var key := if row.server != "" && row.server != "builtin" then row.server + "_" + row.tool else row.tool;
      counts := counts[key := Lookup(counts, key) + 1];
      assert rows[..i + 1][..i] == rows[..i];
      var keys := Keys(rows[..i]);
      assert (keys + [key])[..|keys|] == keys;
    }
    assert rows[..|rows|] == rows;
  }

  ghost predicate Unambiguous(calls: seq<Call>) {
    forall i | 0 <= i < |calls| && Stored(calls[i]).Some? :: Direct(calls[i]) || !Ambiguous(calls[i].name)
  }

  ghost predicate AllStored(calls: seq<Call>) {
    forall i | 0 <= i < |calls| :: Stored(calls[i]).Some?
  }

  /** Some call under the name left no row. */
  ghost predicate Lost(calls: seq<Call>, name: string) {
    exists i | 0 <= i < |calls| :: calls[i].name == name && Stored(calls[i]).None?
  }

  lemma CountAppend(h: History, x: string, name: string)
    ensures Count(h + [x], name) == Count(h, name) + if x == name then 1 else 0
  {
    assert (h + [x])[..|h|] == h;
  }

  lemma LostAppend(calls: seq<Call>, c: Call, name: string)
    ensures Lost(calls + [c], name) <==> Lost(calls, name) || (c.name == name && Stored(c).None?)
  {
    var longer := calls + [c];
    assert longer[|calls|] == c;
    if Lost(calls, name) {
      var i :| 0 <= i < |calls| && calls[i].name == name && Stored(calls[i]).None?;
      assert longer[i] == calls[i];
    }
  }

  lemma UnambiguousAppend(calls: seq<Call>, c: Call)
    ensures Unambiguous(calls + [c]) <==>
      Unambiguous(calls) && (Stored(c).Some? ==> Direct(c) || !Ambiguous(c.name))
  {
    var longer := calls + [c];
    assert longer[|calls|] == c;
    assert forall i | 0 <= i < |calls| :: longer[i] == calls[i];
  }

  lemma RebuiltAppend(calls: seq<Call>, c: Call)
    ensures Rebuilt(calls + [c]) == if Stored(c).Some? then Rebuilt(calls) + [Key(Stored(c).value)] else Rebuilt(calls)
  {
    assert (calls + [c])[..|calls|] == calls;
    if Stored(c).Some? {
      var rows := Rows(calls);
      assert (rows + [Stored(c).value])[..|rows|] == rows;
    }
  }

  /** What one more call adds to the rebuilt count. */
  lemma {:induction false} RebuiltCount(calls: seq<Call>, c: Call, name: string)
    requires Stored(c).Some? ==> Direct(c) || !Ambiguous(c.name)
    ensures Count(Rebuilt(calls + [c]), name) == Count(Rebuilt(calls), name)
            + if c.name == name && Stored(c).Some? then 1 else 0
  {
    RebuiltAppend(calls, c);
    if Stored(c).Some? {
      RejoinIff(c);
      CountAppend(Rebuilt(calls), c.name, name);
    }
  }

  /** The rows never count more than there were calls, and exactly as many unless one left no row. */
  lemma {:induction false} RowsCount(calls: seq<Call>, name: string)
    requires Unambiguous(calls)
    ensures Count(Rebuilt(calls), name) <= Count(Names(calls), name)
    ensures Count(Rebuilt(calls), name) == Count(Names(calls), name) <==> !Lost(calls, name)
    decreases |calls|
  {
    if calls != [] {
      var before, last := calls[..|calls| - 1], calls[|calls| - 1];
      assert calls == before + [last];
      RowsCount(before, name);
      LostAppend(before, last, name);
      CountAppend(Names(before), last.name, name);
      RebuiltCount(before, last, name);
    }
  }

  /** Over any chain of calls and resumes, the counts that the next resume would rebuild never exceed those in
      memory, and these never exceed the calls made; all three agree exactly when no call was lost. */
  lemma {:induction false} CountsSurvive(events: seq<Event>, name: string)
    requires Unambiguous(CallsOf(events))
    ensures Count(Rebuilt(CallsOf(events)), name) <= Count(Memory(events), name)
    ensures Count(Memory(events), name) <= Count(Names(CallsOf(events)), name)
    ensures Count(Rebuilt(CallsOf(events)), name) == Count(Names(CallsOf(events)), name)
            <==> !Lost(CallsOf(events), name)
    decreases |events|
  {
    RowsCount(CallsOf(events), name);
    if events != [] && events[|events| - 1].Called? {
      var before, c := events[..|events| - 1], events[|events| - 1].call;
      var calls := CallsOf(before);
      UnambiguousAppend(calls, c);
      CountsSurvive(before, name);
      CountAppend(Memory(before), c.name, name);
      assert Names(calls + [c]) == Names(calls) + [c.name] by { assert (calls + [c])[..|calls|] == calls; }
      CountAppend(Names(calls), c.name, name);
      RebuiltCount(calls, c, name);
    }
  }

  /** When every call left a row, the rows give the very same history exactly when no name is ambiguous. */
  lemma {:induction false} SameHistoryIff(calls: seq<Call>)
    requires AllStored(calls)
    ensures Rebuilt(calls) == Names(calls) <==> Unambiguous(calls)
    decreases |calls|
  {
    if calls != [] {
      var before, last := calls[..|calls| - 1], calls[|calls| - 1];
      assert calls == before + [last];
      SameHistoryIff(before);
      RejoinIff(last);
      RebuiltAppend(before, last);
      UnambiguousAppend(before, last);
      SameEnds(Rebuilt(before), Names(before), Key(Stored(last).value), last.name);
    }
  }

  lemma SameEnds(a: History, b: History, x: string, y: string)
    ensures a + [x] == b + [y] <==> a == b && x == y
  {
    if a + [x] == b + [y] {
      assert |a + [x]| == |b + [y]|;
      assert (a + [x])[..|a|] == a && (b + [y])[..|b|] == b;
      assert (a + [x])[|a|] == x && (b + [y])[|b|] == y;
    }
  }

  /** Then pausing and resuming changes no verdict on done, however often it happens. */
  lemma {:induction false} ResumeIsTransparent(events: seq<Event>, given: map<string, Json>, rules: Rules)
    requires Unambiguous(CallsOf(events)) && AllStored(CallsOf(events))
    ensures Memory(events) == Names(CallsOf(events))
    ensures Validate(given, rules, Memory(events)) == Validate(given, rules, Names(CallsOf(events)))
    decreases |events|
  {
    if events != [] {
      var before := events[..|events| - 1];
      if events[|events| - 1].Called? {
        var calls, c := CallsOf(before), events[|events| - 1].call;
        assert (calls + [c])[..|calls|] == calls;
        assert forall i | 0 <= i < |calls| :: calls[i] == CallsOf(events)[i];
        ResumeIsTransparent(before, given, rules);
      } else {
        SameHistoryIff(CallsOf(before));
      }
    }
  }
}
