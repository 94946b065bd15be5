/** Replacing references by the definitions they name, as ToolDefinition._inline_refs does. */
module SchemaRefs {
  import opened JsonSchema
  import opened Wrappers

  /** None when following the references would nest deeper than `fuel`, which is what happens for every
      `fuel` when a definition reaches itself. A reference that is not resolved is left as it stands; the
      keywords beside a resolved one are dropped. */
  function Inline(defs: Defs, fuel: nat, s: Schema): Option<Schema>
    decreases fuel, s
  {
    match s.ref
    case Foreign(_) => Some(s)
    case Local(name) =>
      if name !in defs then Some(s)
      else if fuel == 0 then None
      else Inline(defs, fuel - 1, defs[name].(title := ""))
    case NoRef =>
      if (s.props.Props? ==> forall p | p in s.props.list :: Inline(defs, fuel, p.schema).Some?)
         && (s.items.Items? ==> Inline(defs, fuel, s.items.schema).Some?)
         && (s.anyOf.AnyOf? ==> forall b | b in s.anyOf.list :: Inline(defs, fuel, b).Some?)
      then
        Some(s.(
             props := if s.props.NoProps? then NoProps else
               Props(seq(|s.props.list|, i requires 0 <= i < |s.props.list| =>
                 Prop(s.props.list[i].name, Inline(defs, fuel, s.props.list[i].schema).value))),
             items := if s.items.NoItems? then NoItems else Items(Inline(defs, fuel, s.items.schema).value),
             anyOf := if s.anyOf.NoAnyOf? then NoAnyOf else
               AnyOf(seq(|s.anyOf.list|, i requires 0 <= i < |s.anyOf.list| =>
                 Inline(defs, fuel, s.anyOf.list[i]).value))))
      else None
  }

  /** Deeper nesting changes nothing once the references are used up. */
  lemma {:induction false} InlineMoreFuel(defs: Defs, f: nat, g: nat, s: Schema)
    requires f <= g && Inline(defs, f, s).Some?
    ensures Inline(defs, g, s) == Inline(defs, f, s)
    decreases f, s
  {
    match s.ref
    case Foreign(_) =>
    case Local(name) =>
      if name in defs { InlineMoreFuel(defs, f - 1, g - 1, defs[name].(title := "")); }
    case NoRef =>
      if s.props.Props? {
        forall p | p in s.props.list ensures Inline(defs, g, p.schema) == Inline(defs, f, p.schema) {
          InlineMoreFuel(defs, f, g, p.schema);
        }
        assert Inline(defs, g, s).Some? ==>
            Inline(defs, g, s).value.props.list == Inline(defs, f, s).value.props.list;
      }
      if s.items.Items? { InlineMoreFuel(defs, f, g, s.items.schema); }
      if s.anyOf.AnyOf? {
        forall b | b in s.anyOf.list ensures Inline(defs, g, b) == Inline(defs, f, b) {
          InlineMoreFuel(defs, f, g, b);
        }
        assert Inline(defs, g, s).Some? ==>
            Inline(defs, g, s).value.anyOf.list == Inline(defs, f, s).value.anyOf.list;
      }
  }

  /** The title of a schema decides neither what it accepts nor whether it inlines. */
  lemma TitleIsIdle(defs: Defs, fuel: nat, s: Schema, v: Json)
    ensures Accepts(defs, fuel, s.(title := ""), v) == Accepts(defs, fuel, s, v)
    ensures Inline(defs, fuel, s.(title := "")).Some? == Inline(defs, fuel, s).Some?
  {
  }

  /** The names a schema refers to, apart from those beside a reference. */
  ghost predicate Mentions(s: Schema, name: string) {
    match s.ref
    case Foreign(_) => false
    case Local(n) => n == name
    case NoRef =>
      || (s.props.Props? && exists p | p in s.props.list :: Mentions(p.schema, name))
      || (s.items.Items? && Mentions(s.items.schema, name))
      || (s.anyOf.AnyOf? && exists b | b in s.anyOf.list :: Mentions(b, name))
  }

  /** No reference to a definition is left. */
  ghost predicate Resolved(defs: Defs, s: Schema) {
    forall name | name in defs :: !Mentions(s, name)
  }

  // ---------------------------------------------------------------- meaning

  lemma {:induction false} InlineAccepts(defs: Defs, f: nat, g: nat, s: Schema, v: Json)
    requires f <= g && Inline(defs, f, s).Some?
    ensures Accepts(defs, g, s, v) <==> Accepts(map[], 0, Inline(defs, f, s).value, v)
    decreases f, s, 1
  {
    match s.ref
    case Foreign(_) =>
    case Local(name) =>
      if name in defs {
        TitleIsIdle(defs, g - 1, defs[name], v);
        InlineAccepts(defs, f - 1, g - 1, defs[name].(title := ""), v);
      }
    case NoRef =>
      InlineBranches(defs, f, g, s, v);
      InlineProps(defs, f, g, s, v);
      InlineItems(defs, f, g, s, v);
      NodesAgree(defs, g, s, Inline(defs, f, s).value, v);
  }

  lemma {:induction false} InlineBranches(defs: Defs, f: nat, g: nat, s: Schema, v: Json)
    requires f <= g && Inline(defs, f, s).Some? && s.ref.NoRef?
    ensures BranchesAccept(defs, g, s, v) <==> BranchesAccept(map[], 0, Inline(defs, f, s).value, v)
    decreases f, s, 0
  {
    var r := Inline(defs, f, s).value;
    if s.anyOf.AnyOf? {
      forall i | 0 <= i < |s.anyOf.list|
        ensures Accepts(defs, g, s.anyOf.list[i], v) <==> Accepts(map[], 0, r.anyOf.list[i], v)
      {
        InlineAccepts(defs, f, g, s.anyOf.list[i], v);
      }
    }
    BranchesAgree(defs, g, s, r, v);
  }

  lemma {:induction false} InlineProps(defs: Defs, f: nat, g: nat, s: Schema, v: Json)
    requires f <= g && Inline(defs, f, s).Some? && s.ref.NoRef?
    ensures PropsAccept(defs, g, s, v) <==> PropsAccept(map[], 0, Inline(defs, f, s).value, v)
    ensures Names(Inline(defs, f, s).value.props) == Names(s.props)
    decreases f, s, 0
  {
    var r := Inline(defs, f, s).value;
    if v.Obj? && s.props.Props? {
      forall i | 0 <= i < |s.props.list| && s.props.list[i].name in v.fields
        ensures Accepts(defs, g, s.props.list[i].schema, v.fields[s.props.list[i].name])
           <==> Accepts(map[], 0, r.props.list[i].schema, v.fields[s.props.list[i].name])
      {
        InlineAccepts(defs, f, g, s.props.list[i].schema, v.fields[s.props.list[i].name]);
      }
    }
    PropsAgree(defs, g, s, r, v);
  }

  lemma {:induction false} InlineItems(defs: Defs, f: nat, g: nat, s: Schema, v: Json)
    requires f <= g && Inline(defs, f, s).Some? && s.ref.NoRef?
    ensures ItemsAccept(defs, g, s, v) <==> ItemsAccept(map[], 0, Inline(defs, f, s).value, v)
    decreases f, s, 0
  {
    var r := Inline(defs, f, s).value;
    if v.Arr? && s.items.Items? {
      forall i | 0 <= i < |v.elems|
        ensures Accepts(defs, g, s.items.schema, v.elems[i]) <==> Accepts(map[], 0, r.items.schema, v.elems[i])
      {
        InlineAccepts(defs, f, g, s.items.schema, v.elems[i]);
      }
    }
    ItemsAgree(defs, g, s, r, v);
  }

  ghost predicate BranchesAccept(defs: Defs, fuel: nat, s: Schema, v: Json) {
    s.anyOf.AnyOf? ==> exists i | 0 <= i < |s.anyOf.list| :: Accepts(defs, fuel, s.anyOf.list[i], v)
  }

  ghost predicate PropsAccept(defs: Defs, fuel: nat, s: Schema, v: Json) {
    v.Obj? && s.props.Props? ==>
      forall i | 0 <= i < |s.props.list| && s.props.list[i].name in v.fields ::
        Accepts(defs, fuel, s.props.list[i].schema, v.fields[s.props.list[i].name])
  }

  ghost predicate ItemsAccept(defs: Defs, fuel: nat, s: Schema, v: Json) {
    v.Arr? && s.items.Items? ==> forall i | 0 <= i < |v.elems| :: Accepts(defs, fuel, s.items.schema, v.elems[i])
  }

  lemma AcceptsByParts(defs: Defs, fuel: nat, s: Schema, v: Json)
    requires s.ref.NoRef?
    ensures Accepts(defs, fuel, s, v) <==>
      Shape(s, v) && BranchesAccept(defs, fuel, s, v) && PropsAccept(defs, fuel, s, v) && ItemsAccept(defs, fuel, s, v)
  {
  }

  lemma BranchesAgree(defs: Defs, g: nat, s: Schema, r: Schema, v: Json)
    requires s.anyOf.AnyOf? == r.anyOf.AnyOf?
    requires s.anyOf.AnyOf? ==>
      (|s.anyOf.list| == |r.anyOf.list| &&
      forall i :: 0 <= i < |s.anyOf.list| ==>
        (Accepts(defs, g, s.anyOf.list[i], v) <==> Accepts(map[], 0, r.anyOf.list[i], v)))
    ensures BranchesAccept(defs, g, s, v) <==> BranchesAccept(map[], 0, r, v)
  {
  }

  lemma PropsAgree(defs: Defs, g: nat, s: Schema, r: Schema, v: Json)
    requires s.props.Props? == r.props.Props?
    requires s.props.Props? ==>
      (|s.props.list| == |r.props.list| &&
      forall i :: 0 <= i < |s.props.list| ==>
        (s.props.list[i].name == r.props.list[i].name &&
        (v.Obj? && s.props.list[i].name in v.fields ==>
        (Accepts(defs, g, s.props.list[i].schema, v.fields[s.props.list[i].name])
        <==> Accepts(map[], 0, r.props.list[i].schema, v.fields[s.props.list[i].name])))))
    ensures PropsAccept(defs, g, s, v) <==> PropsAccept(map[], 0, r, v)
    ensures Names(r.props) == Names(s.props)
  {
  }

  lemma ItemsAgree(defs: Defs, g: nat, s: Schema, r: Schema, v: Json)
    requires s.items.Items? == r.items.Items?
    requires v.Arr? && s.items.Items? ==>
      forall i :: 0 <= i < |v.elems| ==>
        (Accepts(defs, g, s.items.schema, v.elems[i]) <==> Accepts(map[], 0, r.items.schema, v.elems[i]))
    ensures ItemsAccept(defs, g, s, v) <==> ItemsAccept(map[], 0, r, v)
  {
  }

  /** Schemas without a reference that differ only in their title and subschemas agree when those do. */
  lemma NodesAgree(defs: Defs, g: nat, s: Schema, r: Schema, v: Json)
    requires s.ref.NoRef? && r == s.(props := r.props, items := r.items, anyOf := r.anyOf, title := r.title)
    requires Names(r.props) == Names(s.props)
    requires BranchesAccept(defs, g, s, v) <==> BranchesAccept(map[], 0, r, v)
    requires PropsAccept(defs, g, s, v) <==> PropsAccept(map[], 0, r, v)
    requires ItemsAccept(defs, g, s, v) <==> ItemsAccept(map[], 0, r, v)
    ensures Accepts(defs, g, s, v) <==> Accepts(map[], 0, r, v)
  {
    assert Shape(s, v) == Shape(r, v);
    AcceptsByParts(defs, g, s, v);
    AcceptsByParts(map[], 0, r, v);
  }

  /** Inlining preserves meaning: a value meets the schema with its definitions exactly when it meets the
      inlined schema with none. */
  lemma InlineKeepsMeaning(defs: Defs, fuel: nat, s: Schema, v: Json)
    requires Inline(defs, fuel, s).Some?
    ensures Valid(defs, s, v) <==> Accepts(map[], 0, Inline(defs, fuel, s).value, v)
  {
    InlineAccepts(defs, fuel, fuel, s, v);
    if g: nat :| Accepts(defs, g, s, v) {
      var m := if g < fuel then fuel else g;
      MoreFuel(defs, g, m, s, v);
      InlineAccepts(defs, fuel, m, s, v);
    }
  }

  /** Inlining leaves no reference to a known definition. */
  lemma {:induction false} InlineResolves(defs: Defs, fuel: nat, s: Schema)
    requires Inline(defs, fuel, s).Some?
    ensures Resolved(defs, Inline(defs, fuel, s).value)
    decreases fuel, s
  {
    var r := Inline(defs, fuel, s).value;
    match s.ref
    case Foreign(_) =>
    case Local(name) =>
      if name in defs { InlineResolves(defs, fuel - 1, defs[name].(title := "")); }
    case NoRef =>
      if s.props.Props? {
        forall i | 0 <= i < |s.props.list| ensures Resolved(defs, r.props.list[i].schema) {
          InlineResolves(defs, fuel, s.props.list[i].schema);
        }
      }
      if s.items.Items? { InlineResolves(defs, fuel, s.items.schema); }
      if s.anyOf.AnyOf? {
        forall i | 0 <= i < |s.anyOf.list| ensures Resolved(defs, r.anyOf.list[i]) {
          InlineResolves(defs, fuel, s.anyOf.list[i]);
        }
      }
  }

  // ------------------------------------------------------------ termination

  /** Each ranked definition refers to lower ranked ones only. */
  ghost predicate Ranks(defs: Defs, rank: map<string, nat>) {
    && rank.Keys <= defs.Keys
    && forall n, m | n in rank && m in defs && Mentions(defs[n], m) :: m in rank && rank[m] < rank[n]
  }

  /** All definitions can be ranked. */
  ghost predicate Acyclic(defs: Defs) {
    exists rank :: Ranks(defs, rank) && rank.Keys == defs.Keys
  }

  /** The definitions that the schema reaches can be ranked. */
  ghost predicate ReachesAcyclic(defs: Defs, s: Schema) {
    exists rank :: Ranks(defs, rank) && forall m | m in defs && Mentions(s, m) :: m in rank
  }

  ghost predicate Terminates(defs: Defs, s: Schema) {
    exists fuel: nat :: Inline(defs, fuel, s).Some?
  }

  /** What a schema mentions was inlined one level below it. */
  lemma {:induction false} MentionedInlines(defs: Defs, fuel: nat, s: Schema, name: string)
    requires Inline(defs, fuel, s).Some? && name in defs && Mentions(s, name)
    ensures fuel > 0 && Inline(defs, fuel - 1, defs[name]).Some?
    decreases s
  {
    match s.ref
    case Local(_) => TitleIsIdle(defs, fuel - 1, defs[name], Null);
    case NoRef =>
      if s.props.Props? && exists p | p in s.props.list :: Mentions(p.schema, name) {
        var p :| p in s.props.list && Mentions(p.schema, name);
        MentionedInlines(defs, fuel, p.schema, name);
      } else if s.items.Items? && Mentions(s.items.schema, name) {
        MentionedInlines(defs, fuel, s.items.schema, name);
      } else {
        var b :| b in s.anyOf.list && Mentions(b, name);
        MentionedInlines(defs, fuel, b, name);
      }
  }

  /** A schema inlines one level above everything it mentions. */
  lemma {:induction false} InlinesAbove(defs: Defs, fuel: nat, s: Schema)
    requires forall name | name in defs && Mentions(s, name) :: Inline(defs, fuel, defs[name]).Some?
    ensures Inline(defs, fuel + 1, s).Some?
    decreases s
  {
    match s.ref
    case Foreign(_) =>
    case Local(name) => if name in defs { TitleIsIdle(defs, fuel, defs[name], Null); }
    case NoRef =>
      if s.props.Props? {
        forall p | p in s.props.list ensures Inline(defs, fuel + 1, p.schema).Some? {
          InlinesAbove(defs, fuel, p.schema);
        }
      }
      if s.items.Items? { InlinesAbove(defs, fuel, s.items.schema); }
      if s.anyOf.AnyOf? {
        forall b | b in s.anyOf.list ensures Inline(defs, fuel + 1, b).Some? {
          InlinesAbove(defs, fuel, b);
        }
      }
  }

  lemma {:induction false} RankedInlines(defs: Defs, rank: map<string, nat>, n: string)
    requires Ranks(defs, rank) && n in rank
    ensures Inline(defs, rank[n] + 1, defs[n]).Some?
    decreases rank[n]
  {
    forall m | m in defs && Mentions(defs[n], m) ensures Inline(defs, rank[n], defs[m]).Some? {
      RankedInlines(defs, rank, m);
      InlineMoreFuel(defs, rank[m] + 1, rank[n], defs[m]);
    }
    InlinesAbove(defs, rank[n], defs[n]);
  }

  /** The least nesting at which a terminating definition inlines. */
  ghost function Depth(defs: Defs, s: Schema, low: nat, high: nat): (d: nat)
    requires low <= high && Inline(defs, high, s).Some?
    ensures low <= d <= high && Inline(defs, d, s).Some?
    ensures forall f: nat :: low <= f < d ==> Inline(defs, f, s).None?
    decreases high - low
  {
    if Inline(defs, low, s).Some? then low else Depth(defs, s, low + 1, high)
  }

  ghost function LeastFuel(defs: Defs, s: Schema): (d: nat)
    requires Terminates(defs, s)
    ensures Inline(defs, d, s).Some?
    ensures forall f: nat | Inline(defs, f, s).Some? :: d <= f
  {
    var high: nat :| Inline(defs, high, s).Some?;
    Depth(defs, s, 0, high)
  }

  /** The definitions that inline, ranked by the nesting they take. */
  lemma LeastFuelRanks(defs: Defs) returns (rank: map<string, nat>)
    ensures Ranks(defs, rank) && forall n | n in defs :: n in rank <==> Terminates(defs, defs[n])
  {
    rank := map n | n in defs && Terminates(defs, defs[n]) :: LeastFuel(defs, defs[n]);
    forall n, m | n in rank && m in defs && Mentions(defs[n], m) ensures m in rank && rank[m] < rank[n] {
      MentionedInlines(defs, rank[n], defs[n], m);
    }
  }

  /** Inlining a schema ends exactly when the definitions it reaches can be ranked. */
  lemma InlinesIffReachesAcyclic(defs: Defs, s: Schema)
    ensures Terminates(defs, s) <==> ReachesAcyclic(defs, s)
  {
    if Terminates(defs, s) {
      var fuel: nat :| Inline(defs, fuel, s).Some?;
      var rank := LeastFuelRanks(defs);
      forall m | m in defs && Mentions(s, m) ensures m in rank { MentionedInlines(defs, fuel, s, m); }
    }
    if rank :| Ranks(defs, rank) && forall m | m in defs && Mentions(s, m) :: m in rank {
      var fuel := Highest(rank.Keys, rank) + 1;
      forall m | m in defs && Mentions(s, m) ensures Inline(defs, fuel, defs[m]).Some? {
        RankedInlines(defs, rank, m);
        InlineMoreFuel(defs, rank[m] + 1, fuel, defs[m]);
      }
      InlinesAbove(defs, fuel, s);
    }
  }

  /** Inlining every definition ends exactly when the definitions are acyclic. */
  lemma InliningEndsIffAcyclic(defs: Defs)
    ensures (forall n | n in defs :: Terminates(defs, defs[n])) <==> Acyclic(defs)
  {
    if Acyclic(defs) {
      var rank :| Ranks(defs, rank) && rank.Keys == defs.Keys;
      forall n | n in defs ensures Terminates(defs, defs[n]) { RankedInlines(defs, rank, n); }
    }
    if forall n | n in defs :: Terminates(defs, defs[n]) {
      var rank := LeastFuelRanks(defs);
      assert rank.Keys == defs.Keys;
    }
  }

  /** With acyclic definitions every schema inlines. */
  lemma AcyclicInlinesAll(defs: Defs, s: Schema)
    requires Acyclic(defs)
    ensures Terminates(defs, s)
  {
    InlinesIffReachesAcyclic(defs, s);
  }

  ghost function Highest(names: set<string>, rank: map<string, nat>): (top: nat)
    requires names <= rank.Keys
    ensures forall n | n in names :: rank[n] <= top
  {
    if names == {} then 0
    else
      var n :| n in names;
      var rest := Highest(names - {n}, rank);
      if rank[n] > rest then rank[n] else rest
  }
}
