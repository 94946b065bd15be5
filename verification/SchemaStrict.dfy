/** The schema a tool offers to the LLM: inlined, cleaned and rewritten for strict mode, as
    ToolDefinition.get_json_schema builds it, and what its answers mean for the schema of the tool. */
module SchemaStrict {
  import opened JsonSchema
  import opened Wrappers
  import SchemaRefs

  // ------------------------------------------------------------- the passes

  /** Null becomes a further choice, unless the schema has no type at all. */
  function Nullable(s: Schema): Schema {
    if s.types == One("null") then s
    else if s.anyOf.AnyOf? then
      if exists b | b in s.anyOf.list :: b.types == One("null") then s
      else s.(anyOf := AnyOf(s.anyOf.list + [TypeSchema("null")]))
    else
      match s.types
      case NoType => s
      case Union(names) => if "null" in names then s else s.(types := Union(names + ["null"]))
      case One(name) => s.(types := NoType, anyOf := AnyOf([TypeSchema(name), TypeSchema("null")]))
  }

  /** Strict mode for one schema, after it was made nullable if asked: objects are closed, every declared
      property is required, and the optional ones may be null. The branches of anyOf are left alone. */
  function Rewrite(s: Schema, nullable: bool): Schema
    decreases s
  {
    var t := if nullable then Nullable(s) else s;
    var items := if s.items.NoItems? then NoItems else Items(Rewrite(s.items.schema, false));
    if s.props.Props? then
      t.(closed := true, required := Names(s.props), items := items,
         props := Props(seq(|s.props.list|, i requires 0 <= i < |s.props.list| =>
           Prop(s.props.list[i].name,
                Rewrite(s.props.list[i].schema, s.props.list[i].name !in s.required)))))
    else if t.types == One("object") then t.(closed := true, items := items)
    else t.(items := items)
  }

  function Strict(s: Schema): Schema { Rewrite(s, false) }

  /** What strict mode makes of the i-th property. */
  function RewriteOf(s: Schema, i: nat): Schema
    requires s.props.Props? && i < |s.props.list|
  {
    Rewrite(s.props.list[i].schema, s.props.list[i].name !in s.required)
  }

  /** Titles are dropped, except in the branches of anyOf. */
  function Clean(s: Schema): Schema {
    s.(title := "",
       props := if s.props.NoProps? then NoProps else
         Props(seq(|s.props.list|, i requires 0 <= i < |s.props.list| =>
           Prop(s.props.list[i].name, Clean(s.props.list[i].schema)))),
       items := if s.items.NoItems? then NoItems else Items(Clean(s.items.schema)))
  }

  function WithBasics(s: Schema): Schema {
    s.(types := if s.types.NoType? then One("object") else s.types,
       props := if s.props.NoProps? then Props([]) else s.props)
  }

  /** The schema that is sent, when inlining ends. */
  function Sent(defs: Defs, fuel: nat, s: Schema): Option<Schema> {
    match SchemaRefs.Inline(defs, fuel, s)
    case None => None
    case Some(r) => Some(Strict(WithBasics(Clean(r))))
  }

  /** The arguments that are validated: null stands for an omitted one. */
  function DropNulls(args: map<string, Json>): map<string, Json> {
    map k | k in args && args[k] != Null :: args[k]
  }

  // ------------------------------------------------------------ idempotence

  /** A second strict rewrite changes nothing. */
  lemma {:induction false} StrictIsIdempotent(s: Schema, nullable: bool)
    ensures Strict(Rewrite(s, nullable)) == Rewrite(s, nullable)
    decreases s
  {
    var r := Rewrite(s, nullable);
    if s.items.Items? { StrictIsIdempotent(s.items.schema, false); }
    if s.props.Props? {
      assert Names(r.props) == Names(s.props);
      forall i | 0 <= i < |r.props.list|
        ensures Rewrite(r.props.list[i].schema, r.props.list[i].name !in r.required) == r.props.list[i].schema
      {
        assert Names(r.props)[i] in r.required;
        StrictIsIdempotent(s.props.list[i].schema, s.props.list[i].name !in s.required);
      }
      assert Strict(r).props.list == r.props.list;
    }
  }

  // -------------------------------------------------------------- soundness

  /** Acceptance without definitions. */
  ghost predicate Meets(s: Schema, v: Json) { Accepts(map[], 0, s, v) }

  predicate RequiredDeclared(s: Schema) { forall r | r in s.required :: r in Names(s.props) }

  /** Below this point no optional property holds a null that its own schema refuses, and no object is reached that
      declares properties and requires others. */
  ghost predicate NullsFit(s: Schema, v: Json)
    decreases s
  {
    && (v.Obj? && s.props.Props? ==> RequiredDeclared(s))
    && (v.Obj? && s.props.Props? ==>
          forall i | 0 <= i < |s.props.list| && s.props.list[i].name in v.fields :: PropFits(s, i, v))
    && (v.Arr? && s.items.Items? ==> forall i | 0 <= i < |v.elems| :: NullsFit(s.items.schema, v.elems[i]))
  }

  ghost predicate PropFits(s: Schema, i: nat, v: Json)
    requires s.props.Props? && i < |s.props.list| && v.Obj? && s.props.list[i].name in v.fields
    decreases s, 0
  {
    var p, w := s.props.list[i], v.fields[s.props.list[i].name];
    if w == Null && p.name !in s.required then Meets(p.schema, Null) else NullsFit(p.schema, w)
  }

  /** For arguments, where top-level nulls are dropped: what is required is declared and not null, the others fit,
      and the keywords that see the arguments as a whole take them without the nulls. */
  ghost predicate ArgsFit(s: Schema, args: map<string, Json>) {
    && RequiredDeclared(s)
    && (s.props.Props? ==>
          forall i | 0 <= i < |s.props.list| && s.props.list[i].name in args ::
            var p := s.props.list[i];
            if args[p.name] == Null then p.name !in s.required else NullsFit(p.schema, args[p.name]))
    && WholeFits(s, Obj(DropNulls(args)))
  }

  ghost predicate WholeFits(s: Schema, v: Json) { (s.enum.Enum? ==> v in s.enum.values) && MeetsAny(s, v) }

  ghost predicate MeetsAny(s: Schema, v: Json) {
    s.anyOf.AnyOf? ==> exists i | 0 <= i < |s.anyOf.list| :: Meets(s.anyOf.list[i], v)
  }

  ghost predicate FieldsMeet(s: Schema, fields: map<string, Json>) {
    && (forall r | r in s.required :: r in fields)
    && (s.closed ==> forall k | k in fields :: k in Names(s.props))
    && (s.props.Props? ==> forall i | 0 <= i < |s.props.list| && s.props.list[i].name in fields ::
          Meets(s.props.list[i].schema, fields[s.props.list[i].name]))
  }

  ghost predicate ElemsMeet(s: Schema, elems: seq<Json>) {
    s.items.Items? ==> forall i | 0 <= i < |elems| :: Meets(s.items.schema, elems[i])
  }

  /** Acceptance, keyword group by keyword group. */
  lemma MeetsByParts(s: Schema, v: Json)
    ensures Meets(s, v) <==>
      s.ref.NoRef? && TypeOk(s.types, v) && (s.enum.Enum? ==> v in s.enum.values) && MeetsAny(s, v)
      && (v.Obj? ==> FieldsMeet(s, v.fields)) && (v.Arr? ==> ElemsMeet(s, v.elems))
  {
  }

  /** Making a schema nullable adds no other value. */
  lemma NullableAddsOnlyNull(s: Schema, v: Json)
    requires v != Null
    ensures TypeOk(Nullable(s).types, v) && MeetsAny(Nullable(s), v) <==> TypeOk(s.types, v) && MeetsAny(s, v)
  {
    if Nullable(s) != s {
      if s.anyOf.AnyOf? { BranchForNull(s, v); }
      else if s.types.One? { TypeOrNull(s, v); }
      else { NameForNull(s.types.names, v); }
    }
  }

  lemma BranchForNull(s: Schema, v: Json)
    requires v != Null && s.anyOf.AnyOf?
    ensures MeetsAny(s.(anyOf := AnyOf(s.anyOf.list + [TypeSchema("null")])), v) <==> MeetsAny(s, v)
  {
    var t := s.(anyOf := AnyOf(s.anyOf.list + [TypeSchema("null")]));
    assert !Meets(TypeSchema("null"), v);
    assert forall i | 0 <= i < |s.anyOf.list| :: t.anyOf.list[i] == s.anyOf.list[i];
    assert t.anyOf.list[|s.anyOf.list|] == TypeSchema("null");
  }

  lemma TypeOrNull(s: Schema, v: Json)
    requires v != Null && s.types.One?
    ensures MeetsAny(s.(types := NoType, anyOf := AnyOf([TypeSchema(s.types.name), TypeSchema("null")])), v)
            <==> HasType(v, s.types.name)
  {
    var x, y := TypeSchema(s.types.name), TypeSchema("null");
    var t := s.(types := NoType, anyOf := AnyOf([x, y]));
    assert !Meets(y, v);
    assert Meets(x, v) <==> HasType(v, s.types.name);
    assert t.anyOf.list[0] == x && t.anyOf.list[1] == y;
  }

  lemma NameForNull(names: seq<string>, v: Json)
    requires v != Null
    ensures TypeOk(Union(names + ["null"]), v) <==> TypeOk(Union(names), v)
  {
    var more := names + ["null"];
    assert forall n | n in more :: n in names || n == "null";
    assert forall n | n in names :: n in more;
  }

  ghost predicate Head(s: Schema, v: Json) {
    && s.ref.NoRef? && TypeOk(s.types, v)
    && (s.enum.Enum? ==> v in s.enum.values)
    && MeetsAny(s, v)
  }

  /** The rewrite leaves type, enum and anyOf as they were, apart from null. */
  lemma StrictHead(s: Schema, nullable: bool, v: Json)
    requires Meets(Rewrite(s, nullable), v) && (nullable ==> v != Null)
    ensures Head(s, v)
    ensures v.Obj? && s.props.NoProps? ==> FieldsMeet(s, v.fields)
    ensures v.Arr? && s.items.Items? ==> ElemsMeet(Rewrite(s, nullable), v.elems)
  {
    MeetsByParts(Rewrite(s, nullable), v);
    SameHead(s, nullable, v);
    if nullable { NullableAddsOnlyNull(s, v); }
  }

  lemma {:induction false} SameHead(s: Schema, nullable: bool, v: Json)
    ensures var r, t := Rewrite(s, nullable), if nullable then Nullable(s) else s;
      r.ref == s.ref && r.enum == s.enum && r.types == t.types && (MeetsAny(r, v) <==> MeetsAny(t, v))
    ensures s.props.NoProps? ==> Rewrite(s, nullable).props.NoProps? && Rewrite(s, nullable).required == s.required
  {
    var r, t := Rewrite(s, nullable), if nullable then Nullable(s) else s;
    assert r.anyOf == t.anyOf;
  }

  /** What strict mode accepts, the schema itself accepts exactly when the nulls fit. */
  lemma {:induction false} StrictMeansNullsFit(s: Schema, nullable: bool, v: Json)
    requires Meets(Rewrite(s, nullable), v) && (nullable ==> v != Null)
    ensures Meets(s, v) <==> NullsFit(s, v)
    decreases s
  {
    StrictHead(s, nullable, v);
    MeetsByParts(s, v);
    if v.Obj? && s.props.Props? {
      StrictNames(s, nullable, v);
      forall i | 0 <= i < |s.props.list|
        ensures Meets(s.props.list[i].schema, v.fields[s.props.list[i].name]) <==> PropFits(s, i, v)
      {
        var p := s.props.list[i];
        if v.fields[p.name] != Null || p.name in s.required {
          StrictMeansNullsFit(p.schema, p.name !in s.required, v.fields[p.name]);
        }
      }
      FieldsFit(s, v);
    } else if v.Arr? && s.items.Items? {
      forall i | 0 <= i < |v.elems|
        ensures Meets(s.items.schema, v.elems[i]) <==> NullsFit(s.items.schema, v.elems[i])
      {
        StrictMeansNullsFit(s.items.schema, false, v.elems[i]);
      }
      ElemsFit(s, v);
    }
  }

  lemma ElemsFit(s: Schema, v: Json)
    requires v.Arr? && s.items.Items?
    requires forall i :: 0 <= i < |v.elems| ==>
      (Meets(s.items.schema, v.elems[i]) <==> NullsFit(s.items.schema, v.elems[i]))
    ensures ElemsMeet(s, v.elems) <==> NullsFit(s, v)
  {
  }

  lemma FieldsFit(s: Schema, v: Json)
    requires v.Obj? && s.props.Props?
    requires forall k :: k in v.fields <==> k in Names(s.props)
    requires forall i :: 0 <= i < |s.props.list| ==>
      (s.props.list[i].name in v.fields &&
      (Meets(s.props.list[i].schema, v.fields[s.props.list[i].name]) <==> PropFits(s, i, v)))
    ensures FieldsMeet(s, v.fields) <==> NullsFit(s, v)
  {
  }

  /** An object that meets a strict schema has exactly the declared properties, each meeting its rewrite. */
  lemma StrictNames(s: Schema, nullable: bool, v: Json)
    requires v.Obj? && s.props.Props? && Meets(Rewrite(s, nullable), v)
    ensures forall k :: k in v.fields <==> k in Names(s.props)
    ensures forall i :: 0 <= i < |s.props.list| ==>
      (s.props.list[i].name in v.fields && Meets(RewriteOf(s, i), v.fields[s.props.list[i].name]))
  {
    var r := Rewrite(s, nullable);
    assert Names(r.props) == Names(s.props);
    forall i | 0 <= i < |s.props.list|
      ensures s.props.list[i].name in v.fields && Meets(RewriteOf(s, i), v.fields[s.props.list[i].name])
    {
      assert Names(s.props)[i] in r.required;
      assert r.props.list[i].name == s.props.list[i].name;
    }
  }

  // --------------------------------------------------- from cleaned to raw

  /** Titles do not matter. */
  lemma {:induction false} CleanKeepsMeaning(s: Schema, v: Json)
    ensures Meets(Clean(s), v) <==> Meets(s, v)
    decreases s
  {
    var r := Clean(s);
    if v.Obj? && s.props.Props? {
      forall i | 0 <= i < |s.props.list| && s.props.list[i].name in v.fields
        ensures Meets(r.props.list[i].schema, v.fields[s.props.list[i].name])
           <==> Meets(s.props.list[i].schema, v.fields[s.props.list[i].name])
      {
        CleanKeepsMeaning(s.props.list[i].schema, v.fields[s.props.list[i].name]);
      }
    }
    if v.Arr? && s.items.Items? {
      forall i | 0 <= i < |v.elems| ensures Meets(r.items.schema, v.elems[i]) <==> Meets(s.items.schema, v.elems[i]) {
        CleanKeepsMeaning(s.items.schema, v.elems[i]);
      }
    }
    if s.ref.NoRef? {
      SchemaRefs.PropsAgree(map[], 0, s, r, v);
      SchemaRefs.ItemsAgree(map[], 0, s, r, v);
      SchemaRefs.NodesAgree(map[], 0, s, r, v);
    }
  }

  ghost predicate GivenMeet(s: Schema, args: map<string, Json>)
    requires s.props.Props?
  {
    forall i | 0 <= i < |s.props.list| && s.props.list[i].name in args ::
      args[s.props.list[i].name] != Null ==> Meets(s.props.list[i].schema, args[s.props.list[i].name])
  }

  /** No declared argument that must be there is null. */
  ghost predicate RequiredGiven(s: Schema, args: map<string, Json>)
    requires s.props.Props?
  {
    forall i | 0 <= i < |s.props.list| && s.props.list[i].name in args ::
      args[s.props.list[i].name] == Null ==> s.props.list[i].name !in s.required
  }

  lemma DroppedFields(s: Schema, args: map<string, Json>)
    requires s.props.Props?
    requires forall k :: k in args <==> k in Names(s.props)
    ensures FieldsMeet(s, DropNulls(args)) <==> RequiredDeclared(s) && RequiredGiven(s, args) && GivenMeet(s, args)
  {
    var kept := DropNulls(args);
    assert forall i | 0 <= i < |s.props.list| :: Names(s.props)[i] == s.props.list[i].name;
    if FieldsMeet(s, kept) {
      assert RequiredGiven(s, args);
      assert GivenMeet(s, args);
    }
    if RequiredDeclared(s) && RequiredGiven(s, args) && GivenMeet(s, args) {
      forall r | r in s.required ensures r in kept {
        var i :| 0 <= i < |s.props.list| && Names(s.props)[i] == r;
        assert s.props.list[i].name in args;
      }
    }
  }

  lemma {:induction false} StrictTop(s: Schema, args: map<string, Json>)
    requires Meets(Strict(s), Obj(args))
    ensures Meets(s, Obj(DropNulls(args))) <==> FieldsMeet(s, DropNulls(args)) && WholeFits(s, Obj(DropNulls(args)))
  {
    MeetsByParts(Strict(s), Obj(args));
    MeetsByParts(s, Obj(DropNulls(args)));
    SameHead(s, false, Obj(args));
  }

  /** Dropping null arguments asks each remaining one to meet its schema. */
  lemma {:induction false} StrictArguments(s: Schema, args: map<string, Json>)
    requires s.props.Props? && Meets(Strict(s), Obj(args))
    ensures Meets(s, Obj(DropNulls(args))) <==> ArgsFit(s, args)
  {
    StrictTop(s, args);
    StrictNames(s, false, Obj(args));
    DroppedFields(s, args);
    StrictProperties(s, args);
    ArgsFitParts(s, args);
  }

  /** Property by property, what is not null is accepted exactly when its nulls fit. */
  lemma {:induction false} StrictProperties(s: Schema, args: map<string, Json>)
    requires s.props.Props?
    requires forall i :: 0 <= i < |s.props.list| ==>
      (s.props.list[i].name in args && Meets(RewriteOf(s, i), args[s.props.list[i].name]))
    ensures forall i :: 0 <= i < |s.props.list| ==>
      (args[s.props.list[i].name] != Null ==>
      (Meets(s.props.list[i].schema, args[s.props.list[i].name])
      <==> NullsFit(s.props.list[i].schema, args[s.props.list[i].name])))
  {
    forall i | 0 <= i < |s.props.list| && args[s.props.list[i].name] != Null
      ensures Meets(s.props.list[i].schema, args[s.props.list[i].name])
         <==> NullsFit(s.props.list[i].schema, args[s.props.list[i].name])
    {
      StrictMeansNullsFit(s.props.list[i].schema, s.props.list[i].name !in s.required, args[s.props.list[i].name]);
    }
  }

  lemma ArgsFitParts(s: Schema, args: map<string, Json>)
    requires s.props.Props?
    requires forall i :: 0 <= i < |s.props.list| ==>
      (s.props.list[i].name in args && (args[s.props.list[i].name] != Null ==>
      (Meets(s.props.list[i].schema, args[s.props.list[i].name])
      <==> NullsFit(s.props.list[i].schema, args[s.props.list[i].name]))))
    ensures ArgsFit(s, args) <==>
      RequiredDeclared(s) && RequiredGiven(s, args) && GivenMeet(s, args) && WholeFits(s, Obj(DropNulls(args)))
  {
  }

  // ------------------------------------------------------- the whole pipeline

  lemma {:induction false} CleanKeepsFit(s: Schema, v: Json)
    ensures NullsFit(Clean(s), v) <==> NullsFit(s, v)
    decreases s
  {
    var r := Clean(s);
    assert Names(r.props) == Names(s.props);
    if v.Obj? && s.props.Props? {
      forall i | 0 <= i < |s.props.list| && s.props.list[i].name in v.fields
        ensures PropFits(r, i, v) <==> PropFits(s, i, v)
      {
        CleanKeepsMeaning(s.props.list[i].schema, Null);
        CleanKeepsFit(s.props.list[i].schema, v.fields[s.props.list[i].name]);
      }
    }
    if v.Arr? && s.items.Items? {
      forall i | 0 <= i < |v.elems|
        ensures NullsFit(r.items.schema, v.elems[i]) <==> NullsFit(s.items.schema, v.elems[i])
      {
        CleanKeepsFit(s.items.schema, v.elems[i]);
      }
    }
  }

  /** The basics cost no object its acceptance. */
  lemma BasicsKeepObjects(s: Schema, args: map<string, Json>)
    ensures Meets(WithBasics(s), Obj(args)) <==> Meets(s, Obj(args))
  {
    MeetsByParts(s, Obj(args));
    MeetsByParts(WithBasics(s), Obj(args));
  }

  /** Arguments that meet the schema sent to the LLM are valid for the schema of the tool, once nulls are
      dropped, exactly when they fit. */
  lemma SentArguments(defs: Defs, fuel: nat, s: Schema, args: map<string, Json>)
    requires SchemaRefs.Inline(defs, fuel, s).Some?
    requires Meets(Sent(defs, fuel, s).value, Obj(args))
    ensures Valid(defs, s, Obj(DropNulls(args))) <==> ArgsFit(SchemaRefs.Inline(defs, fuel, s).value, args)
  {
    var r := SchemaRefs.Inline(defs, fuel, s).value;
    StrictArguments(WithBasics(Clean(r)), args);
    BasicsKeepObjects(Clean(r), DropNulls(args));
    CleanKeepsMeaning(r, Obj(DropNulls(args)));
    SchemaRefs.InlineKeepsMeaning(defs, fuel, s, Obj(DropNulls(args)));
    CleanKeepsArgs(r, args);
  }

  lemma CleanKeepsArgs(r: Schema, args: map<string, Json>)
    ensures ArgsFit(WithBasics(Clean(r)), args) <==> ArgsFit(r, args)
  {
    var b := WithBasics(Clean(r));
    assert Names(b.props) == Names(r.props);
    if r.props.Props? {
      forall i | 0 <= i < |r.props.list| && r.props.list[i].name in args
        ensures NullsFit(b.props.list[i].schema, args[r.props.list[i].name])
           <==> NullsFit(r.props.list[i].schema, args[r.props.list[i].name])
      {
        CleanKeepsFit(r.props.list[i].schema, args[r.props.list[i].name]);
      }
    }
  }

  /** Every object at or below this point that declares properties requires just these. */
  ghost predicate AllRequired(s: Schema) {
    && (s.props.Props? ==> RequiredDeclared(s))
    && (s.props.Props? ==> forall i | 0 <= i < |s.props.list| ::
          s.props.list[i].name in s.required && AllRequired(s.props.list[i].schema))
    && (s.items.Items? ==> AllRequired(s.items.schema))
  }

  lemma {:induction false} AllRequiredFits(s: Schema, v: Json)
    requires AllRequired(s)
    ensures NullsFit(s, v)
    decreases s
  {
    if v.Obj? && s.props.Props? {
      forall i | 0 <= i < |s.props.list| && s.props.list[i].name in v.fields ensures PropFits(s, i, v) {
        AllRequiredFits(s.props.list[i].schema, v.fields[s.props.list[i].name]);
      }
    }
    if v.Arr? && s.items.Items? {
      forall i | 0 <= i < |v.elems| ensures NullsFit(s.items.schema, v.elems[i]) {
        AllRequiredFits(s.items.schema, v.elems[i]);
      }
    }
  }

  /** A property that refuses null receives none from the schema that is sent. */
  lemma {:induction false} RequiredStays(r: Schema, i: nat, args: map<string, Json>)
    requires r.props.Props? && i < |r.props.list| && r.props.list[i].name in r.required
    requires Meets(Strict(WithBasics(Clean(r))), Obj(args)) && !Meets(r.props.list[i].schema, Null)
    ensures r.props.list[i].name in args && args[r.props.list[i].name] != Null
  {
    var b := WithBasics(Clean(r));
    StrictNames(b, false, Obj(args));
    assert r.props.list[i].name == b.props.list[i].name;
    if args[r.props.list[i].name] == Null {
      StrictMeansNullsFit(b.props.list[i].schema, false, Null);
      CleanKeepsMeaning(r.props.list[i].schema, Null);
    }
  }

  /** Strict mode is sound for tools whose required parameters are declared and refuse null, and whose nested
      objects have no optional property. */
  lemma {:induction false} StrictIsSound(defs: Defs, fuel: nat, s: Schema, args: map<string, Json>)
    requires SchemaRefs.Inline(defs, fuel, s).Some?
    requires var r := SchemaRefs.Inline(defs, fuel, s).value;
      && r.enum.NoEnum? && r.anyOf.NoAnyOf? && RequiredDeclared(r)
      && (r.props.Props? ==> forall i | 0 <= i < |r.props.list| ::
        AllRequired(r.props.list[i].schema) &&
        (r.props.list[i].name in r.required ==> !Meets(r.props.list[i].schema, Null)))
    requires Meets(Sent(defs, fuel, s).value, Obj(args))
    ensures Valid(defs, s, Obj(DropNulls(args)))
  {
    var r := SchemaRefs.Inline(defs, fuel, s).value;
    if r.props.Props? {
      forall i | 0 <= i < |r.props.list| && r.props.list[i].name in args
        ensures if args[r.props.list[i].name] == Null then r.props.list[i].name !in r.required
                else NullsFit(r.props.list[i].schema, args[r.props.list[i].name])
      {
        if r.props.list[i].name in r.required { RequiredStays(r, i, args); }
        AllRequiredFits(r.props.list[i].schema, args[r.props.list[i].name]);
      }
    }
    SentArguments(defs, fuel, s, args);
  }

  // ----------------------------------------------------------- completeness

  /** A dictionary of properties has each name once. */
  ghost predicate Keyed(s: Schema) {
    && (s.props.Props? ==> forall i, j | 0 <= i < j < |s.props.list| :: s.props.list[i].name != s.props.list[j].name)
    && (s.props.Props? ==> forall i | 0 <= i < |s.props.list| :: Keyed(s.props.list[i].schema))
    && (s.items.Items? ==> Keyed(s.items.schema))
  }

  /** The value with a null for every declared property that it omits, at every depth. */
  function Fill(s: Schema, v: Json): Json
    decreases s, 1
  {
    match v
    case Obj(fields) => Obj(if s.props.Props? then FillFields(s, fields, |s.props.list|) else fields)
    case Arr(elems) =>
      if s.items.Items? then Arr(seq(|elems|, i requires 0 <= i < |elems| => Fill(s.items.schema, elems[i]))) else v
    case _ => v
  }

  /** The same for the first n properties of an object. */
  function FillFields(s: Schema, fields: map<string, Json>, n: nat): map<string, Json>
    requires s.props.Props? && n <= |s.props.list|
    decreases s, 0, n
  {
    if n == 0 then fields
    else
      var p := s.props.list[n - 1];
      FillFields(s, fields, n - 1)[p.name := if p.name in fields then Fill(p.schema, fields[p.name]) else Null]
  }

  /** What the i-th property is filled with. */
  function Filled(s: Schema, i: nat, fields: map<string, Json>): Json
    requires s.props.Props? && i < |s.props.list|
  {
    var p := s.props.list[i];
    if p.name in fields then Fill(p.schema, fields[p.name]) else Null
  }

  lemma {:induction false} FilledKeys(s: Schema, fields: map<string, Json>, n: nat)
    requires s.props.Props? && n <= |s.props.list|
    ensures forall k ::
      k in FillFields(s, fields, n) <==> k in fields || exists i | 0 <= i < n :: s.props.list[i].name == k
  {
    if n > 0 { FilledKeys(s, fields, n - 1); }
  }

  lemma {:induction false} FilledAt(s: Schema, fields: map<string, Json>, n: nat, i: nat)
    requires s.props.Props? && i < n <= |s.props.list|
    requires forall i, j | 0 <= i < j < |s.props.list| :: s.props.list[i].name != s.props.list[j].name
    ensures s.props.list[i].name in FillFields(s, fields, n)
    ensures FillFields(s, fields, n)[s.props.list[i].name] == Filled(s, i, fields)
  {
    if i < n - 1 { FilledAt(s, fields, n - 1, i); }
  }

  lemma {:induction false} FilledElse(s: Schema, fields: map<string, Json>, n: nat, k: string)
    requires s.props.Props? && n <= |s.props.list| && k in fields
    requires forall i | 0 <= i < n :: s.props.list[i].name != k
    ensures k in FillFields(s, fields, n) && FillFields(s, fields, n)[k] == fields[k]
  {
    if n > 0 { FilledElse(s, fields, n - 1, k); }
  }

  lemma {:induction false} FilledFields(s: Schema, fields: map<string, Json>, n: nat)
    requires s.props.Props? && n <= |s.props.list|
    requires forall i, j | 0 <= i < j < |s.props.list| :: s.props.list[i].name != s.props.list[j].name
    ensures forall k ::
      k in FillFields(s, fields, n) <==> k in fields || exists i | 0 <= i < n :: s.props.list[i].name == k
    ensures forall i | 0 <= i < n ::
      && s.props.list[i].name in FillFields(s, fields, n)
      && FillFields(s, fields, n)[s.props.list[i].name] == Filled(s, i, fields)
    ensures forall k | k in fields && forall i | 0 <= i < n :: s.props.list[i].name != k ::
      FillFields(s, fields, n)[k] == fields[k]
  {
    FilledKeys(s, fields, n);
    forall i | 0 <= i < n
      ensures s.props.list[i].name in FillFields(s, fields, n)
              && FillFields(s, fields, n)[s.props.list[i].name] == Filled(s, i, fields)
    {
      FilledAt(s, fields, n, i);
    }
    forall k | k in fields && forall i | 0 <= i < n :: s.props.list[i].name != k
      ensures FillFields(s, fields, n)[k] == fields[k]
    {
      FilledElse(s, fields, n, k);
    }
  }

  /** Null is accepted once a schema was made nullable exactly when no reference is left, its enum lists null if there
      is one, and, where it has alternatives, its own type allows null and an alternative for null, if it has one or is of
      type null itself, really takes it. */
  ghost predicate TakesNull(s: Schema) {
    && s.ref.NoRef?
    && (s.enum.Enum? ==> Null in s.enum.values)
    && (s.anyOf.AnyOf? ==> TypeOk(s.types, Null))
    && (s.anyOf.AnyOf? && (s.types == One("null") || exists b | b in s.anyOf.list :: b.types == One("null")) ==>
          MeetsAny(s, Null))
  }

  lemma {:induction false} NullableTakesNullIff(s: Schema)
    ensures Meets(Rewrite(s, true), Null) <==> TakesNull(s)
  {
    MeetsByParts(Rewrite(s, true), Null);
    SameHead(s, true, Null);
    var n := Nullable(s);
    if n != s {
      if s.anyOf.AnyOf? { NewBranch(s); } else if s.types.One? { NewType(s); } else { NewName(s.types.names); }
    }
  }

  lemma {:induction false} NewBranch(s: Schema)
    requires s.anyOf.AnyOf?
    ensures MeetsAny(s.(anyOf := AnyOf(s.anyOf.list + [TypeSchema("null")])), Null)
  {
    var t := s.(anyOf := AnyOf(s.anyOf.list + [TypeSchema("null")]));
    assert t.anyOf.list[|s.anyOf.list|] == TypeSchema("null") && Meets(TypeSchema("null"), Null);
  }

  lemma {:induction false} NewType(s: Schema)
    requires s.types.One?
    ensures MeetsAny(s.(types := NoType, anyOf := AnyOf([TypeSchema(s.types.name), TypeSchema("null")])), Null)
  {
    var t := s.(types := NoType, anyOf := AnyOf([TypeSchema(s.types.name), TypeSchema("null")]));
    assert t.anyOf.list[1] == TypeSchema("null") && Meets(TypeSchema("null"), Null);
  }

  lemma {:induction false} NewName(names: seq<string>)
    ensures TypeOk(Union(names + ["null"]), Null)
  {
    assert (names + ["null"])[|names|] == "null" && HasType(Null, "null");
  }

  /** Strict mode closes an object: it declares properties, or its type is just object and was left so. */
  predicate Closes(s: Schema, nullable: bool) {
    s.props.Props? || (s.types == One("object") && (!nullable || s.anyOf.AnyOf?))
  }

  /** What a value that the schema accepts must be like for the strict form to accept it once it is filled: closed
      objects have declared properties only, the omitted ones may be null, and an enum or alternatives over an object
      or array take it with what was filled in. */
  ghost predicate FillFits(s: Schema, nullable: bool, v: Json)
    decreases s, 2
  {
    && WholeFits(s, Fill(s, v))
    && (v.Obj? ==> FieldsFill(s, nullable, v))
    && (v.Arr? && s.items.Items? ==> forall i | 0 <= i < |v.elems| :: FillFits(s.items.schema, false, v.elems[i]))
  }

  ghost predicate FieldsFill(s: Schema, nullable: bool, v: Json)
    requires v.Obj?
    decreases s, 1
  {
    && (Closes(s, nullable) ==> forall k | k in v.fields :: k in Names(s.props))
    && (s.props.Props? ==> forall i | 0 <= i < |s.props.list| :: PropFills(s, i, v))
  }

  ghost predicate PropFills(s: Schema, i: nat, v: Json)
    requires s.props.Props? && i < |s.props.list| && v.Obj?
    decreases s, 0
  {
    var p := s.props.list[i];
    if p.name in v.fields && (v.fields[p.name] != Null || p.name in s.required)
    then FillFits(p.schema, p.name !in s.required, v.fields[p.name]) else TakesNull(p.schema)
  }

  lemma {:induction false} FillKeepsKind(s: Schema, v: Json)
    ensures Fill(s, v) == Null <==> v == Null
    ensures TypeOk(s.types, Fill(s, v)) <==> TypeOk(s.types, v)
  {
    assert forall name :: HasType(Fill(s, v), name) <==> HasType(v, name);
  }

  /** The part of the strict form that looks at the value as a whole. */
  lemma {:induction false} StrictHeadIff(s: Schema, nullable: bool, v: Json)
    requires Meets(s, v) && (nullable ==> v != Null)
    ensures Head(Rewrite(s, nullable), Fill(s, v)) <==> WholeFits(s, Fill(s, v))
  {
    MeetsByParts(s, v);
    FillKeepsKind(s, v);
    SameHead(s, nullable, Fill(s, v));
    if nullable { NullableAddsOnlyNull(s, Fill(s, v)); }
  }

  lemma {:induction false} RewriteShape(s: Schema, nullable: bool)
    ensures var r := Rewrite(s, nullable);
      && Names(r.props) == Names(s.props)
      && (r.closed <==> s.closed || Closes(s, nullable))
      && (s.props.Props? ==> r.props.Props? && |r.props.list| == |s.props.list| && r.required == Names(s.props))
      && (s.props.Props? ==> forall i | 0 <= i < |s.props.list| ::
            r.props.list[i].name == s.props.list[i].name && r.props.list[i].schema == RewriteOf(s, i))
      && (s.props.NoProps? ==> r.props.NoProps? && r.required == s.required)
      && (s.items.Items? <==> r.items.Items?)
      && (s.items.Items? ==> r.items.schema == Rewrite(s.items.schema, false))
  {
    var r := Rewrite(s, nullable);
    assert s.props.Props? ==> forall i | 0 <= i < |s.props.list| :: Names(r.props)[i] == Names(s.props)[i];
  }

  /** Arguments and other values that a schema accepts meet its strict form, with the omitted properties filled in,
      exactly when they fit. */
  lemma {:induction false} FilledMeetsIff(s: Schema, nullable: bool, v: Json)
    requires Keyed(s) && Meets(s, v) && (nullable ==> v != Null)
    ensures Meets(Rewrite(s, nullable), Fill(s, v)) <==> FillFits(s, nullable, v)
    decreases s
  {
    MeetsByParts(s, v);
    if v.Obj? && s.props.Props? {
      forall i: nat | i < |s.props.list| ensures PropAgrees(s, i, v) {
        var p := s.props.list[i];
        if p.name in v.fields && (v.fields[p.name] != Null || p.name in s.required) {
          FilledMeetsIff(p.schema, p.name !in s.required, v.fields[p.name]);
        } else {
          PropertyOmitted(s, i, v);
        }
      }
      ObjectFills(s, nullable, v);
    } else if v.Obj? {
      NoPropertyFills(s, nullable, v);
    } else if v.Arr? && s.items.Items? {
      forall i: nat | i < |v.elems| ensures ElemAgrees(s, i, v) {
        FilledMeetsIff(s.items.schema, false, v.elems[i]);
      }
      ArrayFills(s, nullable, v);
    }
    PartsFill(s, nullable, v);
  }

  /** The whole from its parts. */
  lemma {:induction false} PartsFill(s: Schema, nullable: bool, v: Json)
    requires Meets(s, v) && (nullable ==> v != Null)
    requires v.Obj? ==> (FieldsMeet(Rewrite(s, nullable), Fill(s, v).fields) <==> FieldsFill(s, nullable, v))
    requires v.Arr? && s.items.Items? ==>
      (ElemsMeet(Rewrite(s, nullable), Fill(s, v).elems) <==>
       forall i | 0 <= i < |v.elems| :: FillFits(s.items.schema, false, v.elems[i]))
    ensures Meets(Rewrite(s, nullable), Fill(s, v)) <==> FillFits(s, nullable, v)
  {
    MeetsByParts(Rewrite(s, nullable), Fill(s, v));
    StrictHeadIff(s, nullable, v);
    RewriteShape(s, nullable);
    SameHead(s, nullable, Fill(s, v));
  }

  ghost predicate ElemAgrees(s: Schema, i: nat, v: Json)
    requires v.Arr? && s.items.Items? && i < |v.elems|
  {
    Meets(Rewrite(s.items.schema, false), Fill(s.items.schema, v.elems[i]))
    <==> FillFits(s.items.schema, false, v.elems[i])
  }

  ghost predicate PropAgrees(s: Schema, i: nat, v: Json)
    requires v.Obj? && s.props.Props? && i < |s.props.list|
  {
    Meets(RewriteOf(s, i), Filled(s, i, v.fields)) <==> PropFills(s, i, v)
  }

  lemma {:induction false} ArrayFills(s: Schema, nullable: bool, v: Json)
    requires v.Arr? && s.items.Items? && forall i: nat | i < |v.elems| :: ElemAgrees(s, i, v)
    ensures ElemsMeet(Rewrite(s, nullable), Fill(s, v).elems) <==>
      forall i | 0 <= i < |v.elems| :: FillFits(s.items.schema, false, v.elems[i])
  {
    RewriteShape(s, nullable);
    var r, filled := Rewrite(s, nullable), Fill(s, v).elems;
    forall i: nat | i < |v.elems|
      ensures Meets(r.items.schema, filled[i]) <==> FillFits(s.items.schema, false, v.elems[i])
    {
      assert ElemAgrees(s, i, v);
    }
  }

  /** A null that is filled in, or stands for an optional property, must be taken. */
  lemma {:induction false} PropertyOmitted(s: Schema, i: nat, v: Json)
    requires v.Obj? && s.props.Props? && i < |s.props.list| && FieldsMeet(s, v.fields)
    requires var p := s.props.list[i]; p.name in v.fields ==> v.fields[p.name] == Null && p.name !in s.required
    ensures PropAgrees(s, i, v)
  {
    assert s.props.list[i].name !in s.required;
    NullableTakesNullIff(s.props.list[i].schema);
  }

  /** An object without declared properties is left as it is. */
  lemma {:induction false} NoPropertyFills(s: Schema, nullable: bool, v: Json)
    requires v.Obj? && s.props.NoProps? && FieldsMeet(s, v.fields)
    ensures FieldsMeet(Rewrite(s, nullable), Fill(s, v).fields) <==> FieldsFill(s, nullable, v)
  {
    RewriteShape(s, nullable);
  }

  /** The fields of an object that was filled. */
  ghost predicate IsFilled(s: Schema, fields: map<string, Json>, filled: map<string, Json>)
    requires s.props.Props?
  {
    && (forall k | k in Names(s.props) :: k in filled)
    && ((forall k | k in filled :: k in Names(s.props)) <==> (forall k | k in fields :: k in Names(s.props)))
    && forall i | 0 <= i < |s.props.list| ::
         s.props.list[i].name in filled && filled[s.props.list[i].name] == Filled(s, i, fields)
  }

  lemma {:induction false} FillTells(s: Schema, v: Json)
    requires v.Obj? && s.props.Props? && Keyed(s)
    ensures IsFilled(s, v.fields, Fill(s, v).fields)
  {
    FilledFields(s, v.fields, |s.props.list|);
    assert forall i | 0 <= i < |s.props.list| :: Names(s.props)[i] == s.props.list[i].name;
  }

  ghost predicate IsStrict(s: Schema, r: Schema)
    requires s.props.Props?
  {
    && r.props.Props? && |r.props.list| == |s.props.list|
    && r.closed && Names(r.props) == Names(s.props) && r.required == Names(s.props)
    && forall i | 0 <= i < |s.props.list| ::
         r.props.list[i].name == s.props.list[i].name && r.props.list[i].schema == RewriteOf(s, i)
  }

  lemma {:induction false} ObjectFills(s: Schema, nullable: bool, v: Json)
    requires v.Obj? && s.props.Props? && Keyed(s) && forall i: nat | i < |s.props.list| :: PropAgrees(s, i, v)
    ensures FieldsMeet(Rewrite(s, nullable), Fill(s, v).fields) <==> FieldsFill(s, nullable, v)
  {
    FillTells(s, v);
    RewriteShape(s, nullable);
    FilledProps(s, Rewrite(s, nullable), nullable, v, Fill(s, v).fields);
  }

  lemma {:induction false} FilledProps(s: Schema, r: Schema, nullable: bool, v: Json, filled: map<string, Json>)
    requires v.Obj? && s.props.Props? && IsStrict(s, r) && IsFilled(s, v.fields, filled)
    requires forall i: nat | i < |s.props.list| :: PropAgrees(s, i, v)
    ensures FieldsMeet(r, filled) <==> FieldsFill(s, nullable, v)
  {
    forall i: nat | i < |s.props.list|
      ensures Meets(r.props.list[i].schema, filled[r.props.list[i].name]) <==> PropFills(s, i, v)
    {
      assert PropAgrees(s, i, v);
    }
    if FieldsFill(s, nullable, v) {
      assert forall i: nat | i < |s.props.list| :: PropFills(s, i, v);
      assert forall k | k in filled :: k in Names(r.props);
    }
    if FieldsMeet(r, filled) {
      assert forall k | k in filled :: k in Names(r.props);
      assert forall i: nat | i < |s.props.list| :: Meets(r.props.list[i].schema, filled[r.props.list[i].name]);
    }
  }

  /** The schema that is sent takes objects only, also where the tool says nothing about the type. */
  lemma SentTakesObjects(defs: Defs, fuel: nat, s: Schema, v: Json)
    requires SchemaRefs.Inline(defs, fuel, s).Some?
    requires var types := SchemaRefs.Inline(defs, fuel, s).value.types; types.NoType? || types == One("object")
    requires Meets(Sent(defs, fuel, s).value, v)
    ensures v.Obj?
  {
    var b := WithBasics(Clean(SchemaRefs.Inline(defs, fuel, s).value));
    MeetsByParts(Strict(b), v);
    SameHead(b, false, v);
    assert HasType(v, "object");
  }

  // ------------------------------------------- what a tool takes can be sent

  lemma {:induction false} CleanKeyed(s: Schema)
    requires Keyed(s)
    ensures Keyed(Clean(s))
    decreases s
  {
    var r := Clean(s);
    if s.props.Props? {
      forall i | 0 <= i < |s.props.list|
        ensures r.props.list[i].name == s.props.list[i].name && Keyed(r.props.list[i].schema)
      {
        CleanKeyed(s.props.list[i].schema);
      }
    }
    if s.items.Items? { CleanKeyed(s.items.schema); }
  }

  lemma {:induction false} CleanFills(s: Schema, v: Json)
    ensures Fill(Clean(s), v) == Fill(s, v)
    decreases s, 1
  {
    if v.Obj? && s.props.Props? {
      CleanFillsFields(s, v.fields, |s.props.list|);
    } else if v.Arr? && s.items.Items? {
      forall i | 0 <= i < |v.elems|
        ensures Fill(Clean(s).items.schema, v.elems[i]) == Fill(s.items.schema, v.elems[i])
      {
        CleanFills(s.items.schema, v.elems[i]);
      }
    }
  }

  lemma {:induction false} CleanFillsFields(s: Schema, fields: map<string, Json>, n: nat)
    requires s.props.Props? && n <= |s.props.list|
    ensures FillFields(Clean(s), fields, n) == FillFields(s, fields, n)
    decreases s, 0, n
  {
    if n > 0 {
      var p := s.props.list[n - 1];
      assert Clean(s).props.list[n - 1] == Prop(p.name, Clean(p.schema));
      if p.name in fields { CleanFills(p.schema, fields[p.name]); }
      CleanFillsFields(s, fields, n - 1);
    }
  }

  lemma {:induction false} CleanTakesNull(s: Schema)
    ensures TakesNull(Clean(s)) <==> TakesNull(s)
  {
  }

  lemma {:induction false} CleanFillFits(s: Schema, nullable: bool, v: Json)
    ensures FillFits(Clean(s), nullable, v) <==> FillFits(s, nullable, v)
    decreases s
  {
    var r := Clean(s);
    CleanFills(s, v);
    assert Names(r.props) == Names(s.props);
    if v.Obj? {
      if s.props.Props? {
        forall i: nat | i < |s.props.list| ensures PropFills(r, i, v) <==> PropFills(s, i, v) {
          CleanPropFills(s, i, v);
        }
      }
      SameFieldsFill(s, r, nullable, v);
    } else if v.Arr? && s.items.Items? {
      forall i | 0 <= i < |v.elems|
        ensures FillFits(r.items.schema, false, v.elems[i]) <==> FillFits(s.items.schema, false, v.elems[i])
      {
        CleanFillFits(s.items.schema, false, v.elems[i]);
      }
    }
  }

  lemma {:induction false} SameFieldsFill(s: Schema, r: Schema, nullable: bool, v: Json)
    requires v.Obj? && Names(r.props) == Names(s.props) && (r.props.Props? <==> s.props.Props?)
    requires Closes(r, nullable) == Closes(s, nullable)
    requires s.props.Props? ==> |r.props.list| == |s.props.list|
    requires s.props.Props? ==> forall i: nat | i < |s.props.list| :: PropFills(r, i, v) <==> PropFills(s, i, v)
    ensures FieldsFill(r, nullable, v) <==> FieldsFill(s, nullable, v)
  {
    if s.props.Props? {
      if FieldsFill(s, nullable, v) { assert forall i: nat | i < |s.props.list| :: PropFills(s, i, v); }
      if FieldsFill(r, nullable, v) { assert forall i: nat | i < |s.props.list| :: PropFills(r, i, v); }
    }
  }

  lemma {:induction false} CleanPropFills(s: Schema, i: nat, v: Json)
    requires s.props.Props? && i < |s.props.list| && v.Obj?
    ensures PropFills(Clean(s), i, v) <==> PropFills(s, i, v)
    decreases s, 0
  {
    var p := s.props.list[i];
    assert Clean(s).props.list[i] == Prop(p.name, Clean(p.schema));
    CleanTakesNull(p.schema);
    if p.name in v.fields { CleanFillFits(p.schema, p.name !in s.required, v.fields[p.name]); }
  }

  /** For arguments, which are always closed: all are declared, the omitted ones may be null, the others fit, and the
      keywords that see the arguments as a whole take them with what was filled in. */
  ghost predicate ArgsFill(s: Schema, args: map<string, Json>) {
    && (forall k | k in args :: k in Names(s.props))
    && FieldsFill(s, false, Obj(args)) && WholeFits(s, Fill(s, Obj(args)))
  }

  lemma {:induction false} BasicsFill(s: Schema, args: map<string, Json>)
    ensures Fill(WithBasics(s), Obj(args)) == Fill(s, Obj(args))
    ensures FillFits(WithBasics(s), false, Obj(args)) <==> ArgsFill(s, args)
  {
    var b, v := WithBasics(s), Obj(args);
    assert Names(b.props) == Names(s.props);
    if s.props.Props? {
      SameFillFields(s, b, args, |s.props.list|);
      forall i: nat | i < |s.props.list| ensures PropFills(b, i, v) <==> PropFills(s, i, v) {}
      SameFieldsFill(s, b, false, v);
    } else {
      assert b.props.list == [];
      assert FieldsFill(b, false, v) <==> forall k | k in args :: k in Names(s.props);
    }
    assert WholeFits(b, Fill(s, v)) <==> WholeFits(s, Fill(s, v));
  }

  lemma {:induction false} SameFillFields(s: Schema, b: Schema, fields: map<string, Json>, n: nat)
    requires s.props.Props? && b.props == s.props && n <= |s.props.list|
    ensures FillFields(b, fields, n) == FillFields(s, fields, n)
  {
    if n > 0 { SameFillFields(s, b, fields, n - 1); }
  }

  /** Arguments that the tool takes meet the schema sent to the LLM, with a null for each omitted property, exactly when
      they fit. */
  lemma {:induction false} SentTakesIff(defs: Defs, fuel: nat, s: Schema, args: map<string, Json>)
    requires SchemaRefs.Inline(defs, fuel, s).Some? && Keyed(SchemaRefs.Inline(defs, fuel, s).value)
    requires Valid(defs, s, Obj(args))
    ensures var r := SchemaRefs.Inline(defs, fuel, s).value;
      Meets(Sent(defs, fuel, s).value, Fill(r, Obj(args))) <==> ArgsFill(r, args)
  {
    var r, v := SchemaRefs.Inline(defs, fuel, s).value, Obj(args);
    SchemaRefs.InlineKeepsMeaning(defs, fuel, s, v);
    CleanKeepsMeaning(r, v);
    BasicsKeepObjects(Clean(r), args);
    CleanKeyed(r);
    CleanFillsArgs(r, args);
    FilledMeetsIff(WithBasics(Clean(r)), false, v);
  }

  lemma {:induction false} CleanFillsArgs(r: Schema, args: map<string, Json>)
    ensures Fill(WithBasics(Clean(r)), Obj(args)) == Fill(r, Obj(args))
    ensures FillFits(WithBasics(Clean(r)), false, Obj(args)) <==> ArgsFill(r, args)
  {
    BasicsFill(Clean(r), args);
    CleanFills(r, Obj(args));
    assert Names(Clean(r).props) == Names(r.props);
    if r.props.Props? {
      forall i: nat | i < |r.props.list| ensures PropFills(Clean(r), i, Obj(args)) <==> PropFills(r, i, Obj(args)) {
        CleanPropFills(r, i, Obj(args));
      }
    }
    SameFieldsFill(r, Clean(r), false, Obj(args));
  }

  /** What was filled in at the top is dropped again: without omitted properties further down, the tool receives the
      arguments as they were. */
  lemma {:induction false} FilledThenDropped(r: Schema, args: map<string, Json>)
    requires Keyed(r) && forall k | k in args :: args[k] != Null
    ensures DropNulls(Fill(r, Obj(args)).fields).Keys == args.Keys
    ensures (r.props.Props? ==> forall i | 0 <= i < |r.props.list| && r.props.list[i].name in args ::
               Fill(r.props.list[i].schema, args[r.props.list[i].name]) == args[r.props.list[i].name]) ==>
      DropNulls(Fill(r, Obj(args)).fields) == args
  {
    if r.props.Props? {
      FilledFields(r, args, |r.props.list|);
      var filled := FillFields(r, args, |r.props.list|);
      forall k | k in filled ensures filled[k] == Null <==> k !in args {
        if i :| 0 <= i < |r.props.list| && r.props.list[i].name == k {
          if k in args { FillKeepsKind(r.props.list[i].schema, args[k]); }
        }
      }
    }
  }

  /** An optional parameter with alternatives of other types can be omitted: its null is taken. */
  lemma AlternativesTakeNull(alternatives: seq<Schema>)
    requires forall b | b in alternatives :: b.types != One("null")
    ensures Meets(Rewrite(TypeSchema("").(types := NoType, anyOf := AnyOf(alternatives)), true), Null)
  {
    NullableTakesNullIff(TypeSchema("").(types := NoType, anyOf := AnyOf(alternatives)));
  }

  // --------------------------------------------------------- where it fails

  function ObjectWith(name: string, schema: Schema, required: seq<string>): Schema {
    TypeSchema("object").(props := Props([Prop(name, schema)]), required := required)
  }

  lemma ObjectWithPasses(name: string, x: Schema, required: seq<string>)
    requires SchemaRefs.Inline(map[], 0, x) == Some(x) && Clean(x) == x
    ensures SchemaRefs.Inline(map[], 0, ObjectWith(name, x, required)) == Some(ObjectWith(name, x, required))
    ensures Clean(ObjectWith(name, x, required)) == ObjectWith(name, x, required)
  {
    var s := ObjectWith(name, x, required);
    assert SchemaRefs.Inline(map[], 0, s).value.props.list == s.props.list;
    assert Clean(s).props.list == s.props.list;
  }

  /** The strict form of an object with one property takes any value that the form of the property takes. */
  lemma StrictObjectWith(name: string, x: Schema, required: seq<string>, nullable: bool, v: Json)
    requires nullable == (name !in required) && Meets(Rewrite(x, nullable), v)
    ensures Meets(Strict(ObjectWith(name, x, required)), Obj(map[name := v]))
  {
    var t := Strict(ObjectWith(name, x, required));
    assert Names(ObjectWith(name, x, required).props) == [name];
    assert Names(t.props) == [name];
    assert t.props.list[0] == Prop(name, Rewrite(x, nullable));
    MeetsByParts(t, Obj(map[name := v]));
  }

  /** The strict form of a nested object takes a null for its optional property. */
  lemma StrictTakesNestedNull(outer: string, inner: string, leaf: string)
    ensures Meets(Strict(ObjectWith(outer, ObjectWith(inner, TypeSchema(leaf), []), [outer])),
                  Obj(map[outer := Obj(map[inner := Null])]))
  {
    var x := TypeSchema(leaf);
    assert Meets(Rewrite(x, true), Null) by {
      if leaf != "null" { assert Rewrite(x, true).anyOf.list[1] == TypeSchema("null"); }
    }
    StrictObjectWith(inner, x, [], true, Null);
    StrictObjectWith(outer, ObjectWith(inner, x, []), [outer], false, Obj(map[inner := Null]));
  }

  lemma NestedNullDoesNotFit(outer: string, inner: string, leaf: string)
    requires leaf != "null"
    ensures !ArgsFit(ObjectWith(outer, ObjectWith(inner, TypeSchema(leaf), []), [outer]),
                     map[outer := Obj(map[inner := Null])])
  {
    var x := TypeSchema(leaf);
    var nested := ObjectWith(inner, x, []);
    var s, v := ObjectWith(outer, nested, [outer]), Obj(map[inner := Null]);
    assert nested.props.list[0] == Prop(inner, x) && !Meets(x, Null) && !PropFits(nested, 0, v);
    assert s.props.list[0] == Prop(outer, nested);
  }

  /** Strict mode asks for an optional property of a nested object, and the null it may then receive there
      is not dropped: {outer: {inner: null}} meets the sent schema but not the tool's. */
  lemma NestedNullIsRefused(outer: string, inner: string, leaf: string)
    requires leaf != "null"
    ensures var s := ObjectWith(outer, ObjectWith(inner, TypeSchema(leaf), []), [outer]);
      var args := map[outer := Obj(map[inner := Null])];
      Sent(map[], 0, s).Some? && Meets(Sent(map[], 0, s).value, Obj(args))
      && !Valid(map[], s, Obj(DropNulls(args)))
  {
    var nested := ObjectWith(inner, TypeSchema(leaf), []);
    var s := ObjectWith(outer, nested, [outer]);
    ObjectWithPasses(inner, TypeSchema(leaf), []);
    ObjectWithPasses(outer, nested, [outer]);
    StrictTakesNestedNull(outer, inner, leaf);
    NestedNullDoesNotFit(outer, inner, leaf);
    assert Names(s.props) == [outer] && Names(nested.props) == [inner];
    SentArguments(map[], 0, s, map[outer := Obj(map[inner := Null])]);
  }

  /** An optional parameter with an enum can be omitted for the tool, but not by the LLM: it has to be sent, and its null
      is not in the enum. */
  lemma EnumCannotBeOmitted(name: string, kind: string, values: seq<Json>, args: map<string, Json>)
    requires Null !in values
    ensures var s := ObjectWith(name, TypeSchema(kind).(enum := Enum(values)), []);
      && Valid(map[], s, Obj(map[])) && Sent(map[], 0, s).Some?
      && (Meets(Sent(map[], 0, s).value, Obj(args)) ==> name in args && args[name] in values)
  {
    var x := TypeSchema(kind).(enum := Enum(values));
    var s := ObjectWith(name, x, []);
    ObjectWithPasses(name, x, []);
    assert Names(s.props) == [name];
    assert Accepts(map[], 0, s, Obj(map[]));
    if Meets(Sent(map[], 0, s).value, Obj(args)) {
      assert WithBasics(s) == s;
      StrictNames(s, false, Obj(args));
      assert s.props.list[0] == Prop(name, x) && RewriteOf(s, 0) == Rewrite(x, true);
      MeetsByParts(Rewrite(x, true), args[name]);
      SameHead(x, true, args[name]);
    }
  }
}
