/** JSON values, the fragment of JSON Schema that tool parameters use, and when a value is accepted. */
module JsonSchema {

  datatype Json =
    | Null
    | Bool(b: bool)
    | Num(n: int)
    | Str(s: string)
    | Arr(elems: seq<Json>)
    | Obj(fields: map<string, Json>)

  /** The "type" keyword: absent, one name, or a list of names. */
  datatype Types = NoType | One(name: string) | Union(names: seq<string>)

  /** The "properties" keyword; the order of the dictionary is kept. */
  datatype Props = NoProps | Props(list: seq<Prop>)

  datatype Prop = Prop(name: string, schema: Schema)

  datatype Items = NoItems | Items(schema: Schema)

  datatype Branches = NoAnyOf | AnyOf(list: seq<Schema>)

  datatype Enum = NoEnum | Enum(values: seq<Json>)

  /** Local(n) is the reference "#/$defs/n"; Foreign is any other reference. */
  datatype Ref = NoRef | Local(name: string) | Foreign(path: string)

  /** closed is "additionalProperties": false; an absent "required" is the empty list. */
  datatype Schema = Schema(types: Types, props: Props, required: seq<string>, closed: bool,
                           items: Items, enum: Enum, anyOf: Branches, ref: Ref, title: string)

  type Defs = map<string, Schema>

  function TypeSchema(name: string): Schema {
    Schema(One(name), NoProps, [], false, NoItems, NoEnum, NoAnyOf, NoRef, "")
  }

  predicate HasType(v: Json, name: string) {
    match v
    case Null => name == "null"
    case Bool(_) => name == "boolean"
    case Num(_) => name == "integer" || name == "number"
    case Str(_) => name == "string"
    case Arr(_) => name == "array"
    case Obj(_) => name == "object"
  }

  predicate TypeOk(t: Types, v: Json) {
    match t
    case NoType => true
    case One(name) => HasType(v, name)
    case Union(names) => exists name | name in names :: HasType(v, name)
  }

  function Names(props: Props): (names: seq<string>)
    ensures props.NoProps? ==> names == []
    ensures props.Props? ==> |names| == |props.list|
                             && forall i | 0 <= i < |names| :: names[i] == props.list[i].name
  {
    if props.NoProps? then [] else seq(|props.list|, i requires 0 <= i < |props.list| => props.list[i].name)
  }

  /** The keywords that look at one value without its parts. */
  predicate Shape(s: Schema, v: Json) {
    && TypeOk(s.types, v)
    && (s.enum.Enum? ==> v in s.enum.values)
    && (v.Obj? ==>
          && (forall r | r in s.required :: r in v.fields)
          && (s.closed ==> forall k | k in v.fields :: k in Names(s.props)))
  }

  /** A value meets a schema when at most `fuel` references are followed on any path. By section 8.3 of
      JSON Schema Core draft-07 the keywords beside a reference are ignored. */
  ghost predicate Accepts(defs: Defs, fuel: nat, s: Schema, v: Json)
    decreases fuel, s
  {
    match s.ref
    case Local(name) => name in defs && fuel > 0 && Accepts(defs, fuel - 1, defs[name], v)
    case Foreign(_) => false
    case NoRef =>
      && Shape(s, v)
      && (s.anyOf.AnyOf? ==> exists i | 0 <= i < |s.anyOf.list| :: Accepts(defs, fuel, s.anyOf.list[i], v))
      && (v.Obj? && s.props.Props? ==>
            forall i | 0 <= i < |s.props.list| && s.props.list[i].name in v.fields ::
              Accepts(defs, fuel, s.props.list[i].schema, v.fields[s.props.list[i].name]))
      && (v.Arr? && s.items.Items? ==>
            forall i | 0 <= i < |v.elems| :: Accepts(defs, fuel, s.items.schema, v.elems[i]))
  }

  /** A value meets a schema. */
  ghost predicate Valid(defs: Defs, s: Schema, v: Json) {
    exists fuel: nat :: Accepts(defs, fuel, s, v)
  }

  /** Following more references never loses a value. */
  lemma {:induction false} MoreFuel(defs: Defs, f: nat, g: nat, s: Schema, v: Json)
    requires f <= g && Accepts(defs, f, s, v)
    ensures Accepts(defs, g, s, v)
    decreases f, s
  {
    match s.ref
    case Local(name) => MoreFuel(defs, f - 1, g - 1, defs[name], v);
    case NoRef =>
      if s.anyOf.AnyOf? {
        var i :| 0 <= i < |s.anyOf.list| && Accepts(defs, f, s.anyOf.list[i], v);
        MoreFuel(defs, f, g, s.anyOf.list[i], v);
      }
      if v.Obj? && s.props.Props? {
        forall i | 0 <= i < |s.props.list| && s.props.list[i].name in v.fields
          ensures Accepts(defs, g, s.props.list[i].schema, v.fields[s.props.list[i].name])
        {
          MoreFuel(defs, f, g, s.props.list[i].schema, v.fields[s.props.list[i].name]);
        }
      }
      if v.Arr? && s.items.Items? {
        forall i | 0 <= i < |v.elems| ensures Accepts(defs, g, s.items.schema, v.elems[i]) {
          MoreFuel(defs, f, g, s.items.schema, v.elems[i]);
        }
      }
  }
}
