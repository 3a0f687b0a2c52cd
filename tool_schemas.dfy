/** The tool input validators of lib/schemas/tools.ts (`GetPokemonInput`,
    `MoveRecommenderInput`) as parsers from a parsed JSON value to typed arguments, and
    the JSON Schemas the tools are registered with. */
module ToolSchemas {
  import opened Wrappers
  import opened JsValue
  import opened JsonSchema

  // ===========================================================================
  // GetPokemonInput

  /** `pokemon`: a name or a national-dex id. */
  datatype PokemonRef = ByName(name: string) | ById(id: nat)

  datatype GetPokemonArgs = GetPokemonArgs(pokemon: PokemonRef, includeEvolution: bool)

  /** `z.union([z.string().min(1), z.number().int().nonnegative()])` */
  function ParsePokemonRef(v: Value): (r: Option<PokemonRef>)
    ensures r.Some? && r.value.ByName? ==> v == Str(r.value.name) && r.value.name != ""
    ensures r.Some? && r.value.ById? ==> v == Num(r.value.id as real)
  {
    if v.Str? && v.s != "" then Some(ByName(v.s))
    else if v.Num? && IsInteger(v.n) && v.n >= 0.0 then Some(ById(v.n.Floor))
    else None
  }

  /** `z.boolean().default(false).optional()`: a missing member reads as `false`. */
  function ParseFlag(v: Value, default: bool): (r: Option<bool>)
    ensures r.Some? <==> v.Undefined? || v.Bool?
    ensures v.Bool? ==> r == Some(v.b)
  {
    match v
    case Undefined => Some(default)
    case Bool(b) => Some(b)
    case _ => None
  }

  /** `GetPokemonInput.safeParse(v)`: an object (unknown members are ignored), with a
      valid `pokemon` and, if present, a boolean `includeEvolution`. */
  function ParseGetPokemon(v: Value): (r: Option<GetPokemonArgs>)
  {
    if !v.Obj? then None
    else
      match (ParsePokemonRef(Get(v, "pokemon")), ParseFlag(Get(v, "includeEvolution"), false))
      case (Some(p), Some(e)) => Some(GetPokemonArgs(p, e))
      case _ => None
  }

  // ===========================================================================
  // MoveRecommenderInput

  datatype MoveRecommenderArgs = MoveRecommenderArgs(opponentTypes: seq<string>, topK: nat)

  /** The value `.default(5)` supplies for a missing `topK`. */
  const DefaultTopK: nat := 5

  /** `z.array(z.string().min(1)).min(1)` */
  function ParseTypeList(v: Value): (r: Option<seq<string>>)
    ensures r.Some? ==> v.Arr? && |r.value| == |v.items| >= 1
    ensures r.Some? ==> forall k :: 0 <= k < |r.value| ==> v.items[k] == Str(r.value[k]) && r.value[k] != ""
  {
    if v.Arr? && |v.items| >= 1 && forall k :: 0 <= k < |v.items| ==> v.items[k].Str? && v.items[k].s != "" then
      Some(seq(|v.items|, k requires 0 <= k < |v.items| => v.items[k].s))
    else None
  }

  /** `z.number().int().min(1).max(10).default(5).optional()` */
  function ParseTopK(v: Value): (r: Option<nat>)
    ensures r.Some? ==> 1 <= r.value <= 10
  {
    if v.Undefined? then Some(DefaultTopK)
    else if v.Num? && IsInteger(v.n) && 1.0 <= v.n <= 10.0 then Some(v.n.Floor)
    else None
  }

  /** `MoveRecommenderInput.safeParse(v)` */
  function ParseMoveRecommender(v: Value): (r: Option<MoveRecommenderArgs>)
  {
    if !v.Obj? then None
    else
      match (ParseTypeList(Get(v, "opponentTypes")), ParseTopK(Get(v, "topK")))
      case (Some(ts), Some(k)) => Some(MoveRecommenderArgs(ts, k))
      case _ => None
  }

  // ===========================================================================
  // The JSON Schemas registered with the model

  const GetPokemonJsonSchema: Schema := SObject(
    [ Prop("pokemon", SAnyOf([SString(1), SInteger(Some(0), None)]),
           "Name (string) or id (integer) of the Pok\U{00E9}mon"),
      Prop("includeEvolution", SBoolean, "Include evolution chain data") ],
    ["pokemon"], false)

  const MoveRecommenderJsonSchema: Schema := SObject(
    [ Prop("opponentTypes", SArray(SString(1), 1), "Defending types, e.g., ['fire','flying']"),
      Prop("topK", SInteger(Some(1), Some(10)), "Top-N types to return") ],
    ["opponentTypes"], false)

  /** Every member of the object is one of `names`. */
  predicate OnlyMembers(v: Value, names: seq<string>)
    requires v.Obj?
  {
    forall k :: 0 <= k < |v.fields| ==> v.fields[k].key in names
  }

  // ===========================================================================
  // Properties

  /** `pokemon` is accepted exactly when it is a non-empty string or a non-negative
      integer; `includeEvolution` is accepted exactly when missing or boolean, and
      defaults to `false`. */
  lemma GetPokemonAccepts(v: Value)
    requires v.Obj?
    ensures ParseGetPokemon(v).Some? <==>
      && ((Get(v, "pokemon").Str? && Get(v, "pokemon").s != "")
          || (Get(v, "pokemon").Num? && IsInteger(Get(v, "pokemon").n) && Get(v, "pokemon").n >= 0.0))
      && (Get(v, "includeEvolution").Undefined? || Get(v, "includeEvolution").Bool?)
    ensures ParseGetPokemon(v).Some? && Get(v, "includeEvolution").Undefined? ==>
      !ParseGetPokemon(v).value.includeEvolution
  {
  }

  /** `opponentTypes` is accepted exactly when it is a non-empty array of non-empty
      strings; `topK` exactly when missing (then 5) or an integer in 1..10. */
  lemma MoveRecommenderAccepts(v: Value)
    requires v.Obj?
    ensures ParseMoveRecommender(v).Some? <==>
      && Get(v, "opponentTypes").Arr? && |Get(v, "opponentTypes").items| >= 1
      && (forall k :: 0 <= k < |Get(v, "opponentTypes").items| ==>
            Get(v, "opponentTypes").items[k].Str? && Get(v, "opponentTypes").items[k].s != "")
      && (Get(v, "topK").Undefined?
          || (Get(v, "topK").Num? && IsInteger(Get(v, "topK").n) && 1.0 <= Get(v, "topK").n <= 10.0))
    ensures ParseMoveRecommender(v).Some? && Get(v, "topK").Undefined? ==>
      ParseMoveRecommender(v).value.topK == DefaultTopK
  {
  }

  /** An object schema with two declared members, the first one required and no others
      allowed, spelled out member by member. */
  lemma TwoMemberObject(v: Value, n0: string, s0: Schema, d0: string, n1: string, s1: Schema, d1: string)
    requires n0 != n1
    ensures Conforms(v, SObject([Prop(n0, s0, d0), Prop(n1, s1, d1)], [n0], false)) <==>
      && v.Obj?
      && Get(v, n0) != Undefined && Conforms(Get(v, n0), s0)
      && (Get(v, n1) != Undefined ==> Conforms(Get(v, n1), s1))
      && OnlyMembers(v, [n0, n1])
  {
    var props := [Prop(n0, s0, d0), Prop(n1, s1, d1)];
    if v.Obj? {
      assert props[0] == Prop(n0, s0, d0) && props[1] == Prop(n1, s1, d1);
      assert (forall r :: r in [n0] ==> Get(v, r) != Undefined) <==> Get(v, n0) != Undefined;
      TwoPropsConform(v, props);
      TwoPropsDeclare(v, props);
    }
  }

  lemma TwoPropsConform(v: Value, props: seq<Prop>)
    requires |props| == 2
    ensures (forall i :: 0 <= i < |props| ==>
               Get(v, props[i].name) != Undefined ==> Conforms(Get(v, props[i].name), props[i].schema)) <==>
            && (Get(v, props[0].name) != Undefined ==> Conforms(Get(v, props[0].name), props[0].schema))
            && (Get(v, props[1].name) != Undefined ==> Conforms(Get(v, props[1].name), props[1].schema))
  {
  }

  lemma TwoPropsDeclare(v: Value, props: seq<Prop>)
    requires v.Obj? && |props| == 2
    ensures (forall k :: 0 <= k < |v.fields| ==> Declares(props, v.fields[k].key)) <==>
            OnlyMembers(v, [props[0].name, props[1].name])
  {
    forall k | 0 <= k < |v.fields|
      ensures Declares(props, v.fields[k].key) <==> v.fields[k].key in [props[0].name, props[1].name]
    {
      if v.fields[k].key == props[0].name {
        assert props[0].name == v.fields[k].key;
      } else if v.fields[k].key == props[1].name {
        assert props[1].name == v.fields[k].key;
      }
    }
  }

  /** `pokemon`'s schema accepts exactly what the union accepts. */
  lemma PokemonRefSchemaAgrees(p: Value)
    ensures Conforms(p, SAnyOf([SString(1), SInteger(Some(0), None)])) <==> ParsePokemonRef(p).Some?
  {
    AnyOfTwo(p, SString(1), SInteger(Some(0), None));
    assert Conforms(p, SString(1)) <==> p.Str? && p.s != "";
    assert Conforms(p, SInteger(Some(0), None)) <==> p.Num? && IsInteger(p.n) && p.n >= 0.0;
  }

  /** A value conforms to a two-way `anyOf` when it conforms to either option. */
  lemma AnyOfTwo(p: Value, a: Schema, b: Schema)
    ensures Conforms(p, SAnyOf([a, b])) <==> Conforms(p, a) || Conforms(p, b)
  {
    var options := [a, b];
    assert options[0] == a && options[1] == b;
  }

  /** The validator and the JSON Schema agree, except that the schema also forbids
      members it does not declare while the validator ignores them. */
  lemma GetPokemonSchemaAgrees(v: Value)
    ensures Conforms(v, GetPokemonJsonSchema) <==>
      ParseGetPokemon(v).Some? && OnlyMembers(v, ["pokemon", "includeEvolution"])
  {
    assert |"pokemon"| != |"includeEvolution"|;
    TwoMemberObject(v, "pokemon", SAnyOf([SString(1), SInteger(Some(0), None)]),
      "Name (string) or id (integer) of the Pok\U{00E9}mon",
      "includeEvolution", SBoolean, "Include evolution chain data");
    PokemonRefSchemaAgrees(Get(v, "pokemon"));
    assert Conforms(Get(v, "includeEvolution"), SBoolean) <==> Get(v, "includeEvolution").Bool?;
  }

  lemma MoveRecommenderSchemaAgrees(v: Value)
    ensures Conforms(v, MoveRecommenderJsonSchema) <==>
      ParseMoveRecommender(v).Some? && OnlyMembers(v, ["opponentTypes", "topK"])
  {
    assert |"opponentTypes"| != |"topK"|;
    TwoMemberObject(v, "opponentTypes", SArray(SString(1), 1), "Defending types, e.g., ['fire','flying']",
      "topK", SInteger(Some(1), Some(10)), "Top-N types to return");
    TypeListSchemaAgrees(Get(v, "opponentTypes"));
    TopKSchemaAgrees(Get(v, "topK"));
  }

  /** `opponentTypes`' schema accepts exactly what the validator accepts. */
  lemma TypeListSchemaAgrees(x: Value)
    ensures Conforms(x, SArray(SString(1), 1)) <==> ParseTypeList(x).Some?
  {
    if x.Arr? {
      assert Conforms(x, SArray(SString(1), 1)) <==>
        |x.items| >= 1 && forall k :: 0 <= k < |x.items| ==> Conforms(x.items[k], SString(1));
    }
  }

  /** A present `topK` conforms to its schema exactly when the validator accepts it. */
  lemma TopKSchemaAgrees(x: Value)
    ensures x != Undefined ==> (Conforms(x, SInteger(Some(1), Some(10))) <==> ParseTopK(x).Some?)
  {
  }

  /** Reading either member of a two-member object. */
  lemma GetOfPair(k0: string, v0: Value, k1: string, v1: Value)
    requires k0 != k1
    ensures Get(Obj([Field(k0, v0), Field(k1, v1)]), k0) == v0
    ensures Get(Obj([Field(k0, v0), Field(k1, v1)]), k1) == v1
  {
    var fields := [Field(k0, v0), Field(k1, v1)];
    assert fields[..1] == [Field(k0, v0)];
    assert LastBinding(fields[..1], k0) == v0;
  }

  /** The arguments written back as a JSON object. */
  function PokemonRefValue(p: PokemonRef): Value
  {
    match p
    case ByName(name) => Str(name)
    case ById(id) => Num(id as real)
  }

  function GetPokemonValue(a: GetPokemonArgs): Value
  {
    Obj([Field("pokemon", PokemonRefValue(a.pokemon)), Field("includeEvolution", Bool(a.includeEvolution))])
  }

  function MoveRecommenderValue(a: MoveRecommenderArgs): Value
  {
    Obj([Field("opponentTypes", TypeListValue(a.opponentTypes)), Field("topK", Num(a.topK as real))])
  }

  /** Type names written as a JSON array of strings. */
  function TypeListValue(ts: seq<string>): Value
  {
    Arr(seq(|ts|, k requires 0 <= k < |ts| => Str(ts[k])))
  }

  /** Arguments the validator can produce: a non-empty name. */
  predicate ValidGetPokemon(a: GetPokemonArgs)
  {
    a.pokemon.ByName? ==> a.pokemon.name != ""
  }

  predicate ValidMoveRecommender(a: MoveRecommenderArgs)
  {
    && |a.opponentTypes| >= 1
    && (forall k :: 0 <= k < |a.opponentTypes| ==> a.opponentTypes[k] != "")
    && 1 <= a.topK <= 10
  }

  /** Parsing the written-back arguments gives them back, and the object conforms to the
      registered schema. */
  lemma GetPokemonRoundTrip(a: GetPokemonArgs)
    requires ValidGetPokemon(a)
    ensures ParseGetPokemon(GetPokemonValue(a)) == Some(a)
    ensures Conforms(GetPokemonValue(a), GetPokemonJsonSchema)
  {
    var v := GetPokemonValue(a);
    assert |"pokemon"| != |"includeEvolution"|;
    GetOfPair("pokemon", PokemonRefValue(a.pokemon), "includeEvolution", Bool(a.includeEvolution));
    assert ParseGetPokemon(v) == Some(a);
    OnlyMembersOfPair("pokemon", PokemonRefValue(a.pokemon), "includeEvolution", Bool(a.includeEvolution));
    GetPokemonSchemaAgrees(v);
  }

  /** The move recommender's arguments, written back, parse to themselves. */
  lemma MoveRecommenderRoundTrip(a: MoveRecommenderArgs)
    requires ValidMoveRecommender(a)
    ensures ParseMoveRecommender(MoveRecommenderValue(a)) == Some(a)
  {
    var v := MoveRecommenderValue(a);
    assert |"opponentTypes"| != |"topK"|;
    GetOfPair("opponentTypes", TypeListValue(a.opponentTypes), "topK", Num(a.topK as real));
    TypeListRoundTrip(a.opponentTypes);
    assert ParseTopK(Num(a.topK as real)) == Some(a.topK);
  }

  /** The written-back arguments conform to the registered schema. */
  lemma MoveRecommenderValueConforms(a: MoveRecommenderArgs)
    requires ValidMoveRecommender(a)
    ensures Conforms(MoveRecommenderValue(a), MoveRecommenderJsonSchema)
  {
    var v := MoveRecommenderValue(a);
    MoveRecommenderRoundTrip(a);
    assert ParseMoveRecommender(v).Some?;
    OnlyMembersOfPair("opponentTypes", TypeListValue(a.opponentTypes), "topK", Num(a.topK as real));
    MoveRecommenderSchemaAgrees(v);
  }

  /** A two-member object has only its two members. */
  lemma OnlyMembersOfPair(k0: string, v0: Value, k1: string, v1: Value)
    ensures OnlyMembers(Obj([Field(k0, v0), Field(k1, v1)]), [k0, k1])
  {
  }

  /** A list of non-empty type names, written as a JSON array, parses back to itself. */
  lemma TypeListRoundTrip(ts: seq<string>)
    requires |ts| >= 1 && forall k :: 0 <= k < |ts| ==> ts[k] != ""
    ensures ParseTypeList(TypeListValue(ts)) == Some(ts)
  {
    var items := TypeListValue(ts).items;
    assert forall k :: 0 <= k < |items| ==> items[k].Str? && items[k].s != "";
    var r := ParseTypeList(TypeListValue(ts));
    assert r.Some?;
    assert r.value == ts;
  }

  /** The `GetPokemonInput` inputs the unit tests accept, with the default flag. */
  lemma GetPokemonExamples()
    ensures ParseGetPokemon(Obj([Field("pokemon", Str("pikachu"))])) == Some(GetPokemonArgs(ByName("pikachu"), false))
    ensures ParseGetPokemon(Obj([Field("pokemon", Num(25.0))])) == Some(GetPokemonArgs(ById(25), false))
    ensures ParseGetPokemon(Obj([Field("pokemon", Str("bulbasaur")), Field("includeEvolution", Bool(true))]))
         == Some(GetPokemonArgs(ByName("bulbasaur"), true))
  {
    assert |"pokemon"| != |"includeEvolution"|;
    GetOfPair("pokemon", Str("bulbasaur"), "includeEvolution", Bool(true));
  }

  /** The `GetPokemonInput` inputs the unit tests reject. */
  lemma GetPokemonRejections()
    ensures ParseGetPokemon(Obj([Field("pokemon", Str(""))])) == None
    ensures ParseGetPokemon(Obj([Field("pokemon", Num(-1.0))])) == None
    ensures ParseGetPokemon(Obj([])) == None
  {
  }

  /** The `MoveRecommenderInput` inputs the unit tests accept, with the default `topK`. */
  lemma MoveRecommenderExamples()
    ensures ParseMoveRecommender(Obj([Field("opponentTypes", Arr([Str("fire"), Str("flying")]))]))
         == Some(MoveRecommenderArgs(["fire", "flying"], 5))
    ensures ParseMoveRecommender(Obj([Field("opponentTypes", Arr([Str("water")])), Field("topK", Num(3.0))]))
         == Some(MoveRecommenderArgs(["water"], 3))
  {
    var two := Obj([Field("opponentTypes", Arr([Str("fire"), Str("flying")]))]);
    assert ParseTypeList(Get(two, "opponentTypes")).value == ["fire", "flying"];
    assert |"opponentTypes"| != |"topK"|;
    GetOfPair("opponentTypes", Arr([Str("water")]), "topK", Num(3.0));
    var one := Obj([Field("opponentTypes", Arr([Str("water")])), Field("topK", Num(3.0))]);
    assert ParseTypeList(Get(one, "opponentTypes")).value == ["water"];
  }

  /** The `MoveRecommenderInput` inputs the unit tests reject for their type list. */
  lemma MoveRecommenderRejections()
    ensures ParseMoveRecommender(Obj([Field("opponentTypes", Arr([]))])) == None
    ensures ParseMoveRecommender(Obj([Field("opponentTypes", Arr([Str("fire"), Str("")]))])) == None
    ensures ParseMoveRecommender(Obj([])) == None
  {
    var bad := Obj([Field("opponentTypes", Arr([Str("fire"), Str("")]))]);
    assert Get(bad, "opponentTypes").items[1] == Str("");
  }

  /** The `topK` values the unit tests reject as out of range. */
  lemma TopKOutOfRange()
    ensures ParseMoveRecommender(Obj([Field("opponentTypes", Arr([Str("fire")])), Field("topK", Num(0.0))])) == None
    ensures ParseMoveRecommender(Obj([Field("opponentTypes", Arr([Str("fire")])), Field("topK", Num(11.0))])) == None
  {
    assert |"opponentTypes"| != |"topK"|;
    GetOfPair("opponentTypes", Arr([Str("fire")]), "topK", Num(0.0));
    GetOfPair("opponentTypes", Arr([Str("fire")]), "topK", Num(11.0));
  }

}
