/** The tool registry of lib/tools/index.ts: a fixed array of tool specifications and a
    first-match lookup by exact name. */
module ToolRegistry {
  import opened Wrappers
  import opened JsonSchema
  import opened ChatTypes
  import opened JsValue
  import PokeApi
  import StreamDecoder

  /** `i` is the index of the first specification named `name`. */
  predicate FirstMatch(tools: seq<ToolSpec>, name: string, i: int)
  {
    0 <= i < |tools| && tools[i].name == name && forall j :: 0 <= j < i ==> tools[j].name != name
  }

  /** `tools.find((t) => t.name === name)`: the first specification with that exact name. */
  function FindTool(tools: seq<ToolSpec>, name: string): (r: Option<ToolSpec>)
    ensures r.None? <==> forall i :: 0 <= i < |tools| ==> tools[i].name != name
    ensures r.Some? ==> exists i :: FirstMatch(tools, name, i) && tools[i] == r.value
  {
    if tools == [] then None
    else if tools[0].name == name then
      assert FirstMatch(tools, name, 0);
      Some(tools[0])
    else
      var r := FindTool(tools[1..], name);
      if r.Some? then
        var i :| FirstMatch(tools[1..], name, i) && tools[1..][i] == r.value;
        assert FirstMatch(tools, name, i + 1);
        r
      else r
  }

  /** Tool names are pairwise different. */
  predicate UniqueNames(tools: seq<ToolSpec>)
  {
    forall i, j :: 0 <= i < j < |tools| ==> tools[i].name != tools[j].name
  }

  /** With unique names, looking up any registered tool's name returns that tool. */
  lemma FindRegistered(tools: seq<ToolSpec>, i: nat)
    requires UniqueNames(tools) && i < |tools|
    ensures FindTool(tools, tools[i].name) == Some(tools[i])
  {
    var r := FindTool(tools, tools[i].name);
    var k :| FirstMatch(tools, tools[i].name, k) && tools[k] == r.value;
    assert k == i;
  }

  // ===========================================================================
  // The registry as shipped

  /** `const tools: ToolSpec[] = []` */
  const ShippedTools: seq<ToolSpec> := []

  /** `listTools()`: the shipped array, which nothing fills. */
  function ListTools(): (r: seq<ToolSpec>)
    ensures |r| == 0
  {
    ShippedTools
  }

  /** `getToolByName(name)`: the first listed tool with that exact name; none exactly when
      no listed tool has it. */
  function GetToolByName(name: string): (r: Option<ToolSpec>)
    ensures r.None? <==> forall i :: 0 <= i < |ListTools()| ==> ListTools()[i].name != name
    ensures r.Some? ==> r.value.name == name && r.value in ListTools()
  {
    FindTool(ListTools(), name)
  }

  /** As shipped, every lookup comes back empty, although the registry tests expect the
      two tools to be listed and found. */
  lemma ShippedRegistryFindsNothing(name: string)
    ensures |ListTools()| == 0
    ensures GetToolByName(name) == None
  {
  }

  /** `createMoveRecommenderTool()`: the move recommender under the name
      lib/tools/move-recommender.ts gives it; `jsonSchema: {}` accepts anything. Its stub
      `execute` is not part of this model. */
  function CreateMoveRecommenderTool(): (r: ToolSpec)
    ensures r.name == ShippedMoveRecommenderName && r.name != MoveRecommenderToolName
    ensures |r.description| > 0
    ensures forall v :: Conforms(v, r.jsonSchema)
  {
    ToolSpec(ShippedMoveRecommenderName, MoveRecommenderDescription, SAny)
  }

  const ShippedMoveRecommenderName: string := "advice.moveRecommender"
  const MoveRecommenderDescription: string := "Recommend attacking types vs opponent types (stub)"

  // ===========================================================================
  // The registry as the chat page and the tests expect it

  /** The move recommender's name as the chat page, the tool call list and the tests spell it. */
  const MoveRecommenderToolName: string := "advice_move_recommender"

  /** Both tools, each under the name the rest of the application compares against. */
  function IntendedRegistry(): (r: seq<ToolSpec>)
    ensures |r| == 2 && UniqueNames(r)
    ensures r[0].name == StreamDecoder.PokemonToolName && r[1].name == MoveRecommenderToolName
    ensures r[0] == PokeApi.CreatePokeTools()[0].(name := StreamDecoder.PokemonToolName)
    ensures r[1] == CreateMoveRecommenderTool().(name := MoveRecommenderToolName)
    ensures forall i :: 0 <= i < |r| ==> |r[i].name| > 0 && |r[i].description| > 0
  {
    var r := [PokeApi.CreatePokeTools()[0].(name := StreamDecoder.PokemonToolName),
              CreateMoveRecommenderTool().(name := MoveRecommenderToolName)];
    assert r[0].name[0] != r[1].name[0];
    r
  }

  /** A lookup in the intended registry: the tool with that exact name; none exactly when
      neither tool has it. */
  function IntendedLookup(name: string): (r: Option<ToolSpec>)
    ensures r.None? <==> forall i :: 0 <= i < |IntendedRegistry()| ==> IntendedRegistry()[i].name != name
    ensures r.Some? ==> r.value.name == name && r.value in IntendedRegistry()
  {
    FindTool(IntendedRegistry(), name)
  }

  /** The intended registry lists both tools, finds each under its exact name, and finds
      nothing under an unknown one. */
  lemma RegistryLookups()
    ensures IntendedLookup(StreamDecoder.PokemonToolName) == Some(IntendedRegistry()[0])
    ensures IntendedLookup(MoveRecommenderToolName) == Some(IntendedRegistry()[1])
    ensures IntendedLookup("nonexistent_tool") == None
  {
    var tools := IntendedRegistry();
    FindRegistered(tools, 0);
    FindRegistered(tools, 1);
    assert tools[0].name[0] != 'n' && tools[1].name[0] != 'n';
  }

  // ===========================================================================
  // Tool names and the chat page

  /** Under the name lib/tools/pokeapi.ts gives the tool, a Pokémon result is announced
      with the type-effectiveness placeholder. */
  lemma ShippedNameGetsTypePlaceholder()
    ensures StreamDecoder.Placeholder(PokeApi.CreatePokeTools()[0].name) == StreamDecoder.TypePlaceholder
  {
  }

  /** Under the intended name, it gets the Pokémon placeholder. */
  lemma RegisteredNameGetsPokemonPlaceholder()
    ensures StreamDecoder.Placeholder(IntendedRegistry()[0].name) == StreamDecoder.PokemonPlaceholder
  {
  }

  /** The card the chat page draws under a kept tool result. */
  datatype Card = PokemonCardView | TypeEffectivenessView

  /** `result.toolName === "…" && result.data && <Card/>`, for the two names. */
  function CardFor(result: StreamDecoder.ShownResult): (r: Option<Card>)
    ensures r == Some(PokemonCardView) <==>
              Truthy(result.data) && result.toolName == StreamDecoder.PokemonToolName
    ensures r == Some(TypeEffectivenessView) <==>
              Truthy(result.data) && result.toolName == MoveRecommenderToolName
    ensures r.None? <==>
              !Truthy(result.data) ||
              (result.toolName != StreamDecoder.PokemonToolName && result.toolName != MoveRecommenderToolName)
  {
    if !Truthy(result.data) then None
    else if result.toolName == StreamDecoder.PokemonToolName then Some(PokemonCardView)
    else if result.toolName == MoveRecommenderToolName then Some(TypeEffectivenessView)
    else None
  }

  /** Under the names the shipped code registers, no result of either tool gets a card:
      the type-effectiveness card in particular is never drawn for the move recommender. */
  lemma ShippedNamesGetNoCard(data: Value)
    ensures CardFor(StreamDecoder.ShownResult(CreateMoveRecommenderTool().name, data)) == None
    ensures CardFor(StreamDecoder.ShownResult(PokeApi.CreatePokeTools()[0].name, data)) == None
  {
    assert ShippedMoveRecommenderName[6] != MoveRecommenderToolName[6];
    assert ShippedMoveRecommenderName[0] != StreamDecoder.PokemonToolName[0];
    assert PokeApi.ShippedToolName[0] != MoveRecommenderToolName[0];
  }

  /** Under the intended names, each tool's results get their own card. */
  lemma IntendedNamesGetTheirCards(data: Value)
    requires Truthy(data)
    ensures CardFor(StreamDecoder.ShownResult(IntendedRegistry()[0].name, data)) == Some(PokemonCardView)
    ensures CardFor(StreamDecoder.ShownResult(IntendedRegistry()[1].name, data)) == Some(TypeEffectivenessView)
  {
    assert MoveRecommenderToolName[0] != StreamDecoder.PokemonToolName[0];
  }
}
