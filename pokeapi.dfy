/** The PokéAPI tool of lib/tools/pokeapi.ts: reshaping the fetched JSON into the
    normalised record, flattening the evolution tree, the cached lookup
    `getPokemonNormalized`, and `execute`, which turns every failure into a result. */
module PokeApi {
  import opened Wrappers
  import opened Seqs
  import opened JsText
  import opened JsValue
  import opened JsonSchema
  import opened ChatTypes
  import opened ToolSchemas
  import opened PokeApiCache
  import StreamDecoder

  // ===========================================================================
  // Failures

  /** Why `getPokemonNormalized` throws: the input fails validation (a `ZodError`), a
      property is read from `null`/`undefined` or a non-array is mapped or iterated (a
      `TypeError`), the server answers with a non-2xx status, or `fetch` itself rejects. */
  datatype Fault =
    | InvalidInput
    | TypeErrorFault
    | HttpFault(status: int, url: string)
    | NetworkFault(message: string)

  /** What a `fetch` followed by `res.json()` gives back. */
  datatype Fetched<T> = Ok(body: T) | HttpError(status: int) | NetworkError(message: string)

  /** The `message` of the thrown error; the texts that zod and the JavaScript engine
      compose are supplied by `engineText`. */
  function ErrorMessage(f: Fault, engineText: Fault -> string): string
  {
    match f
    case HttpFault(status, url) => "HTTP " + IntToString(status) + " fetching " + url
    case NetworkFault(message) => message
    case _ => engineText(f)
  }

  // ===========================================================================
  // Base stats

  /** The six stats, each a JSON value (`lookup[name] ?? 0`). */
  datatype BaseStats = BaseStats(hp: Value, atk: Value, def: Value, spa: Value, spd: Value, spe: Value)

  /** The property key a value becomes in `lookup[v]`. Only string keys are tracked: the
      string forms of `undefined`, `null`, booleans, numbers and objects are never one of
      the six stat names, so their writes are never read back. */
  function PropertyKey(v: Value): Option<string>
  {
    match v
    case Str(s) => Some(s)
    case Undefined => Some("undefined")
    case Null => Some("null")
    case Bool(b) => Some(if b then "true" else "false")
    case _ => None
  }

  /** What `for (const s of stats)` walks over: an array's elements, a string's characters
      (each a one-character string), and a `TypeError` for anything else. */
  function Elements(v: Value): (r: Result<seq<Value>, Fault>)
    ensures v.Arr? ==> r == Success(v.items)
  {
    match v
    case Arr(items) => Success(items)
    case Str(s) => Success(seq(|s|, i requires 0 <= i < |s| => Str([s[i]])))
    case _ => Failure(TypeErrorFault)
  }

  /** `s.stat?.name` as a property key. */
  function StatName(s: Value): Option<string>
  {
    PropertyKey(Get(Get(s, "stat"), "name"))
  }

  /** The `lookup` record after the loop has seen `stats`, or the fault it stops at
      (`s.stat` on a `null` or `undefined` element). */
  function StatLookup(stats: seq<Value>): Result<map<string, Value>, Fault>
  {
    if stats == [] then Success(map[])
    else
      match StatLookup(stats[..|stats| - 1])
      case Failure(f) => Failure(f)
      case Success(lookup) =>
        var s := stats[|stats| - 1];
        if IsNullish(s) then Failure(TypeErrorFault)
        else
          match StatName(s)
          case Some(k) => Success(lookup[k := Get(s, "base_stat")])
          case None => Success(lookup)
  }

  function Read(lookup: map<string, Value>, name: string): Value
  {
    Coalesce(if name in lookup then lookup[name] else Undefined, Num(0.0))
  }

  function StatsOf(lookup: map<string, Value>): BaseStats
  {
    BaseStats(Read(lookup, "hp"), Read(lookup, "attack"), Read(lookup, "defense"),
              Read(lookup, "special-attack"), Read(lookup, "special-defense"), Read(lookup, "speed"))
  }

  /** `mapBaseStats(stats)` over the elements of `p.stats || []`. */
  method MapBaseStats(stats: seq<Value>) returns (r: Result<BaseStats, Fault>)
    ensures r == match StatLookup(stats) case Success(lookup) => Success(StatsOf(lookup)) case Failure(f) => Failure(f)
  {
    var lookup: map<string, Value> := map[];
    for i := 0 to |stats|
      invariant StatLookup(stats[..i]) == Success(lookup)
    {
      assert stats[..i + 1][..i] == stats[..i];
      var s := stats[i];
      if IsNullish(s) {
        assert StatLookup(stats[..i + 1]) == Failure(TypeErrorFault);
        FaultPersists(stats, i + 1);
        return Failure(TypeErrorFault);
      }
      var key := StatName(s);
      if key.Some? {
        lookup := lookup[key.value := Get(s, "base_stat")];
      }
    }
    assert stats[..|stats|] == stats;
    r := Success(StatsOf(lookup));
  }

  /** Once the loop has thrown, later elements do not matter. */
  lemma {:induction false} FaultPersists(stats: seq<Value>, n: nat)
    requires n <= |stats|
    requires StatLookup(stats[..n]).Failure?
    ensures StatLookup(stats) == StatLookup(stats[..n])
    decreases |stats| - n
  {
    if n < |stats| {
      assert stats[..n + 1][..n] == stats[..n];
      FaultPersists(stats, n + 1);
    } else {
      assert stats[..n] == stats;
    }
  }

  /** A stat that no element names reads as 0. */
  lemma {:induction false} MissingStatIsZero(stats: seq<Value>, name: string)
    requires StatLookup(stats).Success?
    requires forall k :: 0 <= k < |stats| ==> StatName(stats[k]) != Some(name)
    ensures name !in StatLookup(stats).value
    ensures Read(StatLookup(stats).value, name) == Num(0.0)
  {
    if stats != [] {
      var init := stats[..|stats| - 1];
      assert StatLookup(init).Success?;
      MissingStatIsZero(init, name);
    }
  }

  /** When the element at `k` is the last to name a stat, the stat reads as that
      element's `base_stat`, or 0 when that is `null` or `undefined`. */
  lemma {:induction false} LastStatWins(stats: seq<Value>, name: string, k: nat)
    requires StatLookup(stats).Success?
    requires k < |stats| && StatName(stats[k]) == Some(name)
    requires forall j :: k < j < |stats| ==> StatName(stats[j]) != Some(name)
    ensures name in StatLookup(stats).value && StatLookup(stats).value[name] == Get(stats[k], "base_stat")
    ensures Read(StatLookup(stats).value, name) == Coalesce(Get(stats[k], "base_stat"), Num(0.0))
  {
    var init := stats[..|stats| - 1];
    assert StatLookup(init).Success?;
    if k < |stats| - 1 {
      assert StatName(stats[|stats| - 1]) != Some(name);
      assert init[k] == stats[k];
      LastStatWins(init, name, k);
    }
  }

  // ===========================================================================
  // Sprite, types and abilities

  /** `sprites?.other?.["official-artwork"]?.front_default || sprites?.front_default || null` */
  function PickSprite(sprites: Value): (r: Value)
    ensures r == Null || Truthy(r)
    ensures Truthy(Get(Get(Get(sprites, "other"), "official-artwork"), "front_default")) ==>
      r == Get(Get(Get(sprites, "other"), "official-artwork"), "front_default")
    ensures !Truthy(Get(Get(Get(sprites, "other"), "official-artwork"), "front_default")) ==>
      r == if Truthy(Get(sprites, "front_default")) then Get(sprites, "front_default") else Null
  {
    var artwork := Get(Get(Get(sprites, "other"), "official-artwork"), "front_default");
    var front := Get(sprites, "front_default");
    if Truthy(artwork) then artwork else if Truthy(front) then front else Null
  }

  /** `(list || []).map((x) => x[member]?.name).filter(Boolean)`, as for `p.types` with
      `type` and `p.abilities` with `ability`. */
  function Names(list: Value, member: string): (r: Result<seq<Value>, Fault>)
  {
    if !Truthy(list) then Success([])
    else if !list.Arr? then Failure(TypeErrorFault)
    else if exists k :: 0 <= k < |list.items| && IsNullish(list.items[k]) then Failure(TypeErrorFault)
    else
      var mapped := seq(|list.items|, k requires 0 <= k < |list.items| => Get(Get(list.items[k], member), "name"));
      Success(Filter(mapped, Truthy))
  }

  /** The names keep their order, are all truthy, and are exactly the truthy ones. */
  lemma NamesAreTruthyInOrder(list: Value, member: string)
    requires list.Arr? && forall k :: 0 <= k < |list.items| ==> !IsNullish(list.items[k])
    ensures Names(list, member).Success?
    ensures var mapped := seq(|list.items|, k requires 0 <= k < |list.items| => Get(Get(list.items[k], member), "name"));
      && IsSubsequence(Names(list, member).value, mapped)
      && (forall x :: multiset(Names(list, member).value)[x] == if Truthy(x) then multiset(mapped)[x] else 0)
      && (forall k :: 0 <= k < |Names(list, member).value| ==> Truthy(Names(list, member).value[k]))
  {
    var mapped := seq(|list.items|, k requires 0 <= k < |list.items| => Get(Get(list.items[k], member), "name"));
    assert Names(list, member) == Success(Filter(mapped, Truthy));
    FilterExact(mapped, Truthy);
  }

  // ===========================================================================
  // Evolution chain

  /** A node of the evolution tree: `{ species: { name }, evolves_to: [...] }`. */
  datatype EvoNode = EvoNode(name: string, children: seq<EvoNode>)

  /** One entry of `evolutionChain`. */
  datatype EvoEntry = EvoEntry(name: string, evolvesTo: seq<string>)

  /** `node.evolves_to.map((n) => n.species.name)` */
  function ChildNames(children: seq<EvoNode>): seq<string>
  {
    seq(|children|, i requires 0 <= i < |children| => children[i].name)
  }

  function Entry(node: EvoNode): EvoEntry
  {
    EvoEntry(node.name, ChildNames(node.children))
  }

  /** The entries `visit` pushes for a node: the node's own, then each child's subtree in
      order. */
  function Flatten(node: EvoNode): (r: seq<EvoEntry>)
    ensures |r| >= 1 && r[0] == Entry(node)
    decreases node, 1
  {
    [Entry(node)] + FlattenAll(node.children)
  }

  function FlattenAll(nodes: seq<EvoNode>): seq<EvoEntry>
    decreases nodes, 0
  {
    if nodes == [] then [] else FlattenAll(nodes[..|nodes| - 1]) + Flatten(nodes[|nodes| - 1])
  }

  /** `visit(node)`: push the node's entry, then `node.evolves_to.forEach(visit)`. */
  method Visit(node: EvoNode, result: seq<EvoEntry>) returns (out: seq<EvoEntry>)
    ensures out == result + Flatten(node)
    decreases node
  {
    out := result + [Entry(node)];
    for i := 0 to |node.children|
      invariant out == result + [Entry(node)] + FlattenAll(node.children[..i])
    {
      assert node.children[..i + 1][..i] == node.children[..i];
      out := Visit(node.children[i], out);
    }
    assert node.children[..|node.children|] == node.children;
  }

  /** `getEvolutionChain` once the chain JSON is in hand. */
  method GetEvolutionChain(root: EvoNode) returns (result: seq<EvoEntry>)
    ensures result == Flatten(root)
  {
    result := Visit(root, []);
  }

  /** The names in a subtree, root first. */
  function TreeNames(node: EvoNode): seq<string>
  {
    var entries := Flatten(node);
    seq(|entries|, i requires 0 <= i < |entries| => entries[i].name)
  }

  /** Some entry before position `k` lists the name at `k` as an evolution. */
  predicate HasParent(f: seq<EvoEntry>, k: int)
    requires 0 <= k < |f|
  {
    exists j :: 0 <= j < k && f[k].name in f[j].evolvesTo
  }

  /** The name of every entry after the first is listed in the `evolvesTo` of an earlier
      entry: pre-order puts every parent before its children. */
  lemma {:induction false} ParentPrecedes(node: EvoNode)
    ensures forall k :: 0 < k < |Flatten(node)| ==> HasParent(Flatten(node), k)
    decreases node, 1
  {
    ParentPrecedesAll(node.children);
    var all := FlattenAll(node.children);
    var f := Flatten(node);
    assert f == [Entry(node)] + all;
    forall k | 0 < k < |f|
      ensures HasParent(f, k)
    {
      assert f[k] == all[k - 1];
      var c := k - 1;
      if IsSubtreeRoot(node.children, c) {
        var i := SubtreeRootIndex(node.children, c);
        assert f[k].name == node.children[i].name;
        assert f[0].evolvesTo[i] == node.children[i].name;
      } else {
        assert HasParent(all, c);
        var j :| 0 <= j < c && all[c].name in all[j].evolvesTo;
        assert f[j + 1] == all[j];
      }
    }
  }

  /** Where each child's subtree starts inside `FlattenAll(nodes)`. */
  function Offset(nodes: seq<EvoNode>, i: nat): nat
    requires i <= |nodes|
  {
    |FlattenAll(nodes[..i])|
  }

  predicate IsSubtreeRoot(nodes: seq<EvoNode>, c: nat)
  {
    exists i :: 0 <= i < |nodes| && Offset(nodes, i) == c
  }

  ghost function SubtreeRootIndex(nodes: seq<EvoNode>, c: nat): (i: nat)
    requires IsSubtreeRoot(nodes, c)
    ensures i < |nodes| && Offset(nodes, i) == c
    ensures c < |FlattenAll(nodes)| && FlattenAll(nodes)[c].name == nodes[i].name
  {
    var i :| 0 <= i < |nodes| && Offset(nodes, i) == c;
    SubtreeStart(nodes, i);
    i
  }

  /** The subtree of `nodes[i]` starts at `Offset(nodes, i)`. */
  lemma {:induction false} SubtreeStart(nodes: seq<EvoNode>, i: nat)
    requires i < |nodes|
    ensures Offset(nodes, i) < |FlattenAll(nodes)|
    ensures FlattenAll(nodes)[Offset(nodes, i)] == Entry(nodes[i])
    decreases |nodes|
  {
    var n := |nodes|;
    var init := nodes[..n - 1];
    assert FlattenAll(nodes) == FlattenAll(init) + Flatten(nodes[n - 1]);
    if i == n - 1 {
      assert init == nodes[..i];
    } else {
      assert init[..i] == nodes[..i];
      SubtreeStart(init, i);
    }
  }

  /** Dropping the last tree moves no other tree's start. */
  lemma InitOffsets(nodes: seq<EvoNode>)
    requires nodes != []
    ensures forall i :: 0 <= i < |nodes| - 1 ==> Offset(nodes[..|nodes| - 1], i) == Offset(nodes, i)
  {
    forall i | 0 <= i < |nodes| - 1
      ensures Offset(nodes[..|nodes| - 1], i) == Offset(nodes, i)
    {
      assert nodes[..|nodes| - 1][..i] == nodes[..i];
    }
  }

  /** Within a forest, each entry is a subtree root or has an earlier parent entry. */
  lemma {:induction false} ParentPrecedesAll(nodes: seq<EvoNode>)
    ensures forall c :: 0 <= c < |FlattenAll(nodes)| && !IsSubtreeRoot(nodes, c) ==> HasParent(FlattenAll(nodes), c)
    decreases nodes, 0
  {
    if nodes != [] {
      var n := |nodes|;
      var init := nodes[..n - 1];
      var last := nodes[n - 1];
      ParentPrecedesAll(init);
      ParentPrecedes(last);
      var a := FlattenAll(init);
      var b := Flatten(last);
      var all := FlattenAll(nodes);
      assert all == a + b;
      InitOffsets(nodes);
      assert Offset(nodes, n - 1) == |a| by { assert nodes[..n - 1] == init; }
      forall c | 0 <= c < |all| && !IsSubtreeRoot(nodes, c)
        ensures HasParent(all, c)
      {
        if c < |a| {
          assert all[c] == a[c];
          assert !IsSubtreeRoot(init, c) by {
            forall i | 0 <= i < |init| ensures Offset(init, i) != c {
              assert Offset(init, i) == Offset(nodes, i);
            }
          }
          assert HasParent(a, c);
          var j :| 0 <= j < c && a[c].name in a[j].evolvesTo;
          assert all[j] == a[j];
        } else {
          var d := c - |a|;
          assert all[c] == b[d];
          assert d != 0;
          assert HasParent(b, d);
          var j :| 0 <= j < d && b[d].name in b[j].evolvesTo;
          assert all[j + |a|] == b[j];
        }
      }
    }
  }

  /** Every name an entry lists in `evolvesTo` is the name of a later entry: the child's
      own entry follows its parent's. */
  lemma {:induction false} ChildrenFollow(node: EvoNode)
    ensures forall j, c :: 0 <= j < |Flatten(node)| && c in Flatten(node)[j].evolvesTo ==>
      exists k :: j < k < |Flatten(node)| && Flatten(node)[k].name == c
    decreases node, 1
  {
    ChildrenFollowAll(node.children);
    var all := FlattenAll(node.children);
    var f := Flatten(node);
    assert f == [Entry(node)] + all;
    forall j, c | 0 <= j < |f| && c in f[j].evolvesTo
      ensures exists k :: j < k < |f| && f[k].name == c
    {
      if j == 0 {
        var names := ChildNames(node.children);
        var i :| 0 <= i < |names| && names[i] == c;
        SubtreeStart(node.children, i);
        var k := 1 + Offset(node.children, i);
        assert f[k] == all[k - 1];
      } else {
        assert f[j] == all[j - 1];
        var k :| j - 1 < k < |all| && all[k].name == c;
        assert f[k + 1] == all[k];
      }
    }
  }

  lemma {:induction false} ChildrenFollowAll(nodes: seq<EvoNode>)
    ensures forall j, c :: 0 <= j < |FlattenAll(nodes)| && c in FlattenAll(nodes)[j].evolvesTo ==>
      exists k :: j < k < |FlattenAll(nodes)| && FlattenAll(nodes)[k].name == c
    decreases nodes, 0
  {
    if nodes != [] {
      var n := |nodes|;
      var init := nodes[..n - 1];
      ChildrenFollowAll(init);
      ChildrenFollow(nodes[n - 1]);
      var a := FlattenAll(init);
      var b := Flatten(nodes[n - 1]);
      var all := FlattenAll(nodes);
      assert all == a + b;
      forall j, c | 0 <= j < |all| && c in all[j].evolvesTo
        ensures exists k :: j < k < |all| && all[k].name == c
      {
        if j < |a| {
          assert all[j] == a[j];
          var k :| j < k < |a| && a[k].name == c;
          assert all[k] == a[k];
        } else {
          var d := j - |a|;
          assert all[j] == b[d];
          var k :| d < k < |b| && b[k].name == c;
          assert all[k + |a|] == b[k];
        }
      }
    }
  }

  // ===========================================================================
  // The normalised record and the cached lookup

  datatype Normalized = Normalized(
    id: Value,
    name: Value,
    types: seq<Value>,
    abilities: seq<Value>,
    baseStats: BaseStats,
    sprite: Value,
    evolutionChain: Option<seq<EvoEntry>>)

  /** `String(parsed.pokemon)` */
  function RefText(p: PokemonRef): string
  {
    match p
    case ByName(name) => name
    case ById(id) => NatToString(id)
  }

  /** `${parsed.pokemon}|${parsed.includeEvolution ? 1 : 0}`: the input as given, before
      lower-casing. */
  function CacheKey(a: GetPokemonArgs): (key: string)
    ensures key == RefText(a.pokemon) + "|" + (if a.includeEvolution then "1" else "0")
    ensures key != ""
  {
    RefText(a.pokemon) + "|" + (if a.includeEvolution then "1" else "0")
  }

  /** Equal cache keys mean the same spelled input and the same flag. `ByName("25")` and
      `ById(25)` share a key, and the lookup treats them as one. */
  lemma CacheKeyInjective(a: GetPokemonArgs, b: GetPokemonArgs)
    requires ValidGetPokemon(a) && ValidGetPokemon(b)
    requires CacheKey(a) == CacheKey(b)
    ensures RefText(a.pokemon) == RefText(b.pokemon) && a.includeEvolution == b.includeEvolution
  {
    var ka, kb := CacheKey(a), CacheKey(b);
    assert ka[|ka| - 1] == kb[|kb| - 1];
    assert ka[..|ka| - 2] == RefText(a.pokemon);
    assert kb[..|kb| - 2] == RefText(b.pokemon);
  }

  const PokemonEndpoint: string := "https://pokeapi.co/api/v2/pokemon/"

  function PokemonUrl(p: PokemonRef): string
  {
    PokemonEndpoint + EncodeUriComponent(AsciiLower(RefText(p)))
  }

  /** The record built from the pokemon JSON `p`, in the order the object literal
      evaluates its members; `p.id` on `null` or `undefined` throws. */
  function Normalize(p: Value, evolution: Option<seq<EvoEntry>>): Result<Normalized, Fault>
  {
    if IsNullish(p) then Failure(TypeErrorFault)
    else
      match (Names(Get(p, "types"), "type"), Names(Get(p, "abilities"), "ability"))
      case (Failure(f), _) => Failure(f)
      case (_, Failure(f)) => Failure(f)
      case (Success(types), Success(abilities)) =>
        var statsList := if Truthy(Get(p, "stats")) then Elements(Get(p, "stats")) else Success([]);
        match statsList
        case Failure(f) => Failure(f)
        case Success(stats) =>
          match StatLookup(stats)
          case Failure(f) => Failure(f)
          case Success(lookup) =>
            Success(Normalized(Get(p, "id"), Get(p, "name"), types, abilities, StatsOf(lookup),
                               PickSprite(Get(p, "sprites")), evolution))
  }

  /** The fetches behind the lookup: the pokemon JSON, the species JSON at `p.species?.url`,
      and the chain at `species?.evolution_chain?.url`. A chain response whose shape is not
      the declared one throws inside the `try`, which is a failed fetch here. */
  datatype Network = Network(
    pokemon: string -> Fetched<Value>,
    species: Value -> Fetched<Value>,
    chain: Value -> Fetched<EvoNode>)

  /** The `try { … } catch { }` around the evolution lookup: any failure leaves the chain
      out. Also the number of `fetch` calls it made. */
  function Evolution(p: Value, net: Network): (Option<seq<EvoEntry>>, nat)
  {
    match net.species(Get(Get(p, "species"), "url"))
    case Ok(species) =>
      var chainUrl := Get(Get(species, "evolution_chain"), "url");
      if !Truthy(chainUrl) then (None, 1)
      else if net.chain(chainUrl).Ok? then (Some(Flatten(net.chain(chainUrl).body)), 2)
      else (None, 2)
    case _ => (None, 1)
  }

  /** What a cache miss computes, and the number of `fetch` calls it makes. */
  function Uncached(a: GetPokemonArgs, net: Network): (Result<Normalized, Fault>, nat)
  {
    var url := PokemonUrl(a.pokemon);
    match net.pokemon(url)
    case HttpError(status) => (Failure(HttpFault(status, url)), 1)
    case NetworkError(message) => (Failure(NetworkFault(message)), 1)
    case Ok(p) => Completed(a, p, Normalize(p, None), net)
  }

  /** The miss path once the pokemon JSON `p` has arrived and been normalised: if asked,
      attach the evolution chain. The count includes the fetch of `p`. */
  function Completed(a: GetPokemonArgs, p: Value, normalized: Result<Normalized, Fault>, net: Network)
    : (Result<Normalized, Fault>, nat)
  {
    match normalized
    case Failure(f) => (Failure(f), 1)
    case Success(n) =>
      if a.includeEvolution then
        var evolution := Evolution(p, net);
        (Success(n.(evolutionChain := evolution.0)), 1 + evolution.1)
      else (Success(n), 1)
  }

  /** One lookup on the cache state `m`: its outcome, the number of `fetch` calls, and the
      cache it leaves. Invalid input throws before the cache is read. `t0` and `t1` are
      the clock at the read and at the write. */
  function Lookup(m: MapState<CacheEntry<Normalized>>, input: Value, t0: int, t1: int, net: Network)
    : (Result<Normalized, Fault>, nat, MapState<CacheEntry<Normalized>>)
  {
    match ParseGetPokemon(input)
    case None => (Failure(InvalidInput), 0, m)
    case Some(a) => LookupValid(m, a, t0, t1, net)
  }

  /** A lookup of valid arguments: a hit returns the stored record with no fetch; a miss
      fetches, and only a success is written back. */
  function LookupValid(m: MapState<CacheEntry<Normalized>>, a: GetPokemonArgs, t0: int, t1: int, net: Network)
    : (Result<Normalized, Fault>, nat, MapState<CacheEntry<Normalized>>)
  {
    var read := CacheGet(m, CacheKey(a), t0);
    if read.1.Some? then (Success(read.1.value), 0, read.0)
    else Missed(read.0, CacheKey(a), Uncached(a, net), t1)
  }

  /** After a miss: the fetched outcome and count, and the cache with a success stored. */
  function Missed(afterRead: MapState<CacheEntry<Normalized>>, key: string,
                  miss: (Result<Normalized, Fault>, nat), t1: int)
    : (Result<Normalized, Fault>, nat, MapState<CacheEntry<Normalized>>)
  {
    (miss.0, miss.1, if miss.0.Success? then CacheSet(afterRead, key, miss.0.value, t1) else afterRead)
  }

  /** `getPokemonNormalized(input)`: validate, try the cache under the un-lowercased key,
      otherwise fetch and normalise and store the result, as `Lookup` says. */
  method GetPokemonNormalized(cache: JsMap<CacheEntry<Normalized>>, input: Value, t0: int, t1: int, net: Network)
    returns (r: Result<Normalized, Fault>, fetches: nat)
    requires cache.Valid()
    modifies cache
    ensures cache.Valid()
    ensures (r, fetches, cache.State()) == Lookup(old(cache.State()), input, t0, t1, net)
  {
    var parsed := ParseGetPokemon(input);
    if parsed.None? {
      return Failure(InvalidInput), 0;
    }
    var a := parsed.value;
    var key := CacheKey(a);
    var cached := GetCache(cache, key, t0);
    if cached.Some? {
      return Success(cached.value), 0;
    }
    r, fetches := FetchNormalized(a, net);
    if r.Success? {
      SetCache(cache, key, r.value, t1);
    }
  }

  /** The cache-miss path: fetch the pokemon, build the record, and on request add the
      evolution chain, swallowing any failure there. */
  method FetchNormalized(a: GetPokemonArgs, net: Network) returns (r: Result<Normalized, Fault>, fetches: nat)
    ensures (r, fetches) == Uncached(a, net)
  {
    var url := PokemonUrl(a.pokemon);
    var response := net.pokemon(url);
    if response.HttpError? {
      return Failure(HttpFault(response.status, url)), 1;
    } else if response.NetworkError? {
      return Failure(NetworkFault(response.message)), 1;
    }
    var normalized := Normalize(response.body, None);
    r, fetches := Complete(a, response.body, normalized, net);
  }

  /** After normalising the fetched record: if asked, fetch and attach the evolution chain. */
  method Complete(a: GetPokemonArgs, p: Value, normalized: Result<Normalized, Fault>, net: Network)
    returns (r: Result<Normalized, Fault>, fetches: nat)
    ensures (r, fetches) == Completed(a, p, normalized, net)
  {
    fetches := 1;
    if normalized.Failure? {
      return Failure(normalized.error), fetches;
    }
    if !a.includeEvolution {
      return normalized, fetches;
    }
    var evolution, more := FetchEvolution(p, net);
    r := Success(normalized.value.(evolutionChain := evolution));
    fetches := fetches + more;
  }

  /** The optional evolution lookup: the species, then the chain it points to; any
      failure leaves the chain out. */
  method FetchEvolution(p: Value, net: Network) returns (evolution: Option<seq<EvoEntry>>, fetches: nat)
    ensures (evolution, fetches) == Evolution(p, net)
  {
    evolution := None;
    var species := net.species(Get(Get(p, "species"), "url"));
    fetches := 1;
    if species.Ok? {
      var chainUrl := Get(Get(species.body, "evolution_chain"), "url");
      if Truthy(chainUrl) {
        var chain := net.chain(chainUrl);
        fetches := fetches + 1;
        if chain.Ok? {
          var entries := GetEvolutionChain(chain.body);
          evolution := Some(entries);
        }
      }
    }
  }

  /** `execute(input)`: a success carries the record; any failure becomes
      `{ ok: false, error: message }` instead of a rejection. */
  method Execute(cache: JsMap<CacheEntry<Normalized>>, input: Value, t0: int, t1: int, net: Network,
                 engineText: Fault -> string)
    returns (result: ToolResult<Normalized>, outcome: Result<Normalized, Fault>)
    requires cache.Valid()
    modifies cache
    ensures cache.Valid()
    ensures outcome == Lookup(old(cache.State()), input, t0, t1, net).0
    ensures cache.State() == Lookup(old(cache.State()), input, t0, t1, net).2
    ensures result.ok <==> outcome.Success?
    ensures outcome.Success? ==> result == ToolResult(true, Some(outcome.value), None)
    ensures outcome.Failure? ==> result == ToolResult(false, None, Some(ErrorMessage(outcome.error, engineText)))
  {
    var fetches;
    outcome, fetches := GetPokemonNormalized(cache, input, t0, t1, net);
    match outcome
    case Success(value) =>
      result := ToolResult(true, Some(value), None);
    case Failure(f) =>
      result := ToolResult(false, None, Some(ErrorMessage(f, engineText)));
  }

  // ===========================================================================
  // Properties of the lookup

  /** A failed evolution lookup only leaves the chain out: the record is the one built
      without it. */
  lemma EvolutionFailureIsHarmless(a: GetPokemonArgs, net: Network, p: Value)
    requires net.pokemon(PokemonUrl(a.pokemon)) == Ok(p)
    requires a.includeEvolution && Normalize(p, None).Success?
    requires !net.species(Get(Get(p, "species"), "url")).Ok?
    ensures Uncached(a, net) == (Normalize(p, None), 2)
  {
  }

  /** With the evolution chain requested and every fetch answering, the lookup makes
      three fetches (pokemon, species, chain) and carries the flattened chain. */
  lemma FullLookupFetchesThree(a: GetPokemonArgs, net: Network, p: Value, species: Value, root: EvoNode)
    requires net.pokemon(PokemonUrl(a.pokemon)) == Ok(p)
    requires a.includeEvolution && Normalize(p, None).Success?
    requires net.species(Get(Get(p, "species"), "url")) == Ok(species)
    requires Truthy(Get(Get(species, "evolution_chain"), "url"))
    requires net.chain(Get(Get(species, "evolution_chain"), "url")) == Ok(root)
    ensures Uncached(a, net).1 == 3
    ensures Uncached(a, net).0 == Success(Normalize(p, None).value.(evolutionChain := Some(Flatten(root))))
  {
  }

  /** A non-2xx answer fails with the message `HTTP <status> fetching <url>`. */
  lemma HttpFailureMessage(a: GetPokemonArgs, net: Network, status: int, engineText: Fault -> string)
    requires net.pokemon(PokemonUrl(a.pokemon)) == HttpError(status)
    ensures Uncached(a, net).0.Failure?
    ensures ErrorMessage(Uncached(a, net).0.error, engineText)
         == "HTTP " + IntToString(status) + " fetching " + PokemonUrl(a.pokemon)
  {
    var url := PokemonUrl(a.pokemon);
    assert Uncached(a, net).0 == Failure(HttpFault(status, url));
  }

  /** Every key the tool writes is non-empty, so the cache's eviction always fires and the
      bound of 200 entries holds across any sequence of calls. */
  lemma {:induction false} LookupKeepsBound(m: MapState<CacheEntry<Normalized>>, a: GetPokemonArgs, t0: int, t1: int, v: Normalized)
    requires WellFormed(m) && |m.entries| <= CacheMaxEntries
    requires forall k :: k in m.entries ==> k != ""
    ensures var afterRead := CacheGet(m, CacheKey(a), t0).0;
      && WellFormed(afterRead) && |afterRead.entries| <= CacheMaxEntries
      && (forall k :: k in afterRead.entries ==> k != "")
      && WellFormed(CacheSet(afterRead, CacheKey(a), v, t1))
      && |CacheSet(afterRead, CacheKey(a), v, t1).entries| <= CacheMaxEntries
  {
    var key := CacheKey(a);
    if key in m.entries {
      MapOpsKeepWellFormed(m, key, m.entries[key]);
      var d := MapDelete(m, key);
      MapOpsKeepWellFormed(d, key, m.entries[key]);
    }
    var afterRead := CacheGet(m, key, t0).0;
    SetKeepsBound(afterRead, key, v, t1);
  }

  /** A second call with the same input within the lifetime of the first call's entry is
      served from the cache: the same record, and no fetch. */
  lemma RepeatIsCached(m: MapState<CacheEntry<Normalized>>, a: GetPokemonArgs, t0: int, t1: int, t2: int, v: Normalized)
    requires WellFormed(m) && |m.entries| <= CacheMaxEntries
    requires forall k :: k in m.entries ==> k != ""
    requires t2 <= t1 + CacheTtlMs
    ensures var afterRead := CacheGet(m, CacheKey(a), t0).0;
      CacheGet(CacheSet(afterRead, CacheKey(a), v, t1), CacheKey(a), t2).1 == Some(v)
  {
    LookupKeepsBound(m, a, t0, t1, v);
    var afterRead := CacheGet(m, CacheKey(a), t0).0;
    SetThenGet(afterRead, CacheKey(a), v, t1, t2);
  }

  /** The cache invariant: well formed, at most 200 entries, no empty key. */
  ghost predicate CacheInvariant(m: MapState<CacheEntry<Normalized>>)
  {
    WellFormed(m) && |m.entries| <= CacheMaxEntries && forall k :: k in m.entries ==> k != ""
  }

  /** Reading the cache keeps the invariant. */
  lemma ReadKeepsInvariant(m: MapState<CacheEntry<Normalized>>, key: string, now: int)
    requires CacheInvariant(m)
    ensures CacheInvariant(CacheGet(m, key, now).0)
  {
    if key in m.entries {
      MapOpsKeepWellFormed(m, key, m.entries[key]);
      var d := MapDelete(m, key);
      MapOpsKeepWellFormed(d, key, m.entries[key]);
    }
  }

  /** Storing the outcome of a miss under a non-empty key keeps the invariant. */
  lemma MissKeepsInvariant(afterRead: MapState<CacheEntry<Normalized>>, key: string,
                           miss: (Result<Normalized, Fault>, nat), t1: int)
    requires CacheInvariant(afterRead) && key != ""
    ensures CacheInvariant(Missed(afterRead, key, miss, t1).2)
  {
    if miss.0.Success? {
      SetKeepsBound(afterRead, key, miss.0.value, t1);
    }
  }

  /** Every lookup, whatever its input and whatever the network answers, keeps the cache
      invariant, so the bound of 200 entries holds across any sequence of calls. */
  lemma LookupKeepsInvariant(m: MapState<CacheEntry<Normalized>>, input: Value, t0: int, t1: int, net: Network)
    requires CacheInvariant(m)
    ensures CacheInvariant(Lookup(m, input, t0, t1, net).2)
  {
    var parsed := ParseGetPokemon(input);
    if parsed.Some? {
      var a := parsed.value;
      var read := CacheGet(m, CacheKey(a), t0);
      ReadKeepsInvariant(m, CacheKey(a), t0);
      if read.1.None? {
        MissKeepsInvariant(read.0, CacheKey(a), Uncached(a, net), t1);
      }
    }
  }

  /** After a call that fetched and succeeded, the same input within five minutes of the
      write is answered from the cache: the same record, no fetch, whatever the network
      would now answer. */
  lemma RepeatLookupIsCached(m: MapState<CacheEntry<Normalized>>, input: Value, t0: int, t1: int,
                             t2: int, t3: int, net: Network, net2: Network)
    requires CacheInvariant(m)
    requires Lookup(m, input, t0, t1, net).0.Success? && Lookup(m, input, t0, t1, net).1 > 0
    requires t2 <= t1 + CacheTtlMs
    ensures Lookup(Lookup(m, input, t0, t1, net).2, input, t2, t3, net2).0 == Lookup(m, input, t0, t1, net).0
    ensures Lookup(Lookup(m, input, t0, t1, net).2, input, t2, t3, net2).1 == 0
  {
    var a := ParseGetPokemon(input).value;
    var v := Uncached(a, net).0.value;
    RepeatIsCached(m, a, t0, t1, t2, v);
  }

  // ===========================================================================
  // The tool as registered

  /** The tool name as lib/tools/pokeapi.ts spells it. */
  const ShippedToolName: string := "pokeapi.getPokemon"

  const Description: string := "Fetch normalized Pok\U{00E9}mon data by name or id with optional evolution chain"

  /** `createPokeTools()`: the one tool, under the name lib/tools/pokeapi.ts gives it, with
      the manifest schema of the lookup's arguments. */
  function CreatePokeTools(): (tools: seq<ToolSpec>)
    ensures |tools| == 1
    ensures tools[0].name == ShippedToolName && tools[0].name != StreamDecoder.PokemonToolName
    ensures tools[0].jsonSchema == GetPokemonJsonSchema
  {
    assert ShippedToolName[7] != StreamDecoder.PokemonToolName[7];
    [ToolSpec(ShippedToolName, Description, GetPokemonJsonSchema)]
  }
}
