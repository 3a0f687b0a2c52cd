/** The values app/components/PokemonCard.tsx derives from a normalised record before
    rendering: the evolution roots, the stat total, the stat bar colour and the id label. */
module PokemonCard {
  import opened Wrappers
  import opened Seqs
  import opened JsText
  import opened PokeApi

  // ===========================================================================
  // Evolution display

  /** The names in `s`, as a set. */
  function ElemSet(s: seq<string>): (r: set<string>)
    ensures forall c :: c in r <==> c in s
  {
    if s == [] then {} else ElemSet(s[..|s| - 1]) + {s[|s| - 1]}
  }

  /** `allChildren`: every name listed in some entry's `evolvesTo`. */
  function ChildSet(nodes: seq<EvoEntry>): set<string>
  {
    if nodes == [] then {}
    else ChildSet(nodes[..|nodes| - 1]) + ElemSet(nodes[|nodes| - 1].evolvesTo)
  }

  /** Some entry lists `name` as an evolution. */
  predicate Listed(nodes: seq<EvoEntry>, name: string)
  {
    exists j :: 0 <= j < |nodes| && name in nodes[j].evolvesTo
  }

  lemma {:induction false} ChildSetMeans(nodes: seq<EvoEntry>, name: string)
    ensures name in ChildSet(nodes) <==> Listed(nodes, name)
  {
    if nodes != [] {
      var init := nodes[..|nodes| - 1];
      ChildSetMeans(init, name);
      if Listed(init, name) {
        var j :| 0 <= j < |init| && name in init[j].evolvesTo;
        assert nodes[j] == init[j];
      }
      if Listed(nodes, name) && name !in nodes[|nodes| - 1].evolvesTo {
        var j :| 0 <= j < |nodes| && name in nodes[j].evolvesTo;
        assert init[j] == nodes[j];
      }
    }
  }

  /** `nodes.filter((n) => !allChildren.has(n.name))` */
  function KeepRoots(nodes: seq<EvoEntry>, children: set<string>): seq<EvoEntry>
  {
    if nodes == [] then []
    else (if nodes[0].name !in children then [nodes[0]] else []) + KeepRoots(nodes[1..], children)
  }

  lemma {:induction false} KeepRootsIsFilter(nodes: seq<EvoEntry>, children: set<string>)
    ensures KeepRoots(nodes, children) == Filter(nodes, (n: EvoEntry) => n.name !in children)
  {
    if nodes != [] {
      KeepRootsIsFilter(nodes[1..], children);
    }
  }

  /** What the card shows: the roots, and all entries for the arrows. */
  datatype EvolutionView = EvolutionView(roots: seq<EvoEntry>, nodes: seq<EvoEntry>)

  /** The entries no entry evolves into. */
  function RootsOf(nodes: seq<EvoEntry>): seq<EvoEntry>
  {
    KeepRoots(nodes, ChildSet(nodes))
  }

  /** No chain, or an empty one, shows nothing. */
  function Evolution(chain: Option<seq<EvoEntry>>): Option<EvolutionView>
  {
    if chain.None? || |chain.value| == 0 then None
    else Some(EvolutionView(RootsOf(chain.value), chain.value))
  }

  /** `evolutionDisplay`: fill `allChildren` in the nested loops, then keep the entries
      whose name is not in it. */
  method EvolutionDisplay(chain: Option<seq<EvoEntry>>) returns (view: Option<EvolutionView>)
    ensures view == Evolution(chain)
  {
    if chain.None? || |chain.value| == 0 {
      return None;
    }
    var nodes := chain.value;
    var allChildren: set<string> := {};
    for i := 0 to |nodes|
      invariant allChildren == ChildSet(nodes[..i])
    {
      var kids := nodes[i].evolvesTo;
      for j := 0 to |kids|
        invariant allChildren == ChildSet(nodes[..i]) + ElemSet(kids[..j])
      {
        assert kids[..j + 1][..j] == kids[..j];
        allChildren := allChildren + {kids[j]};
      }
      assert kids[..|kids|] == kids;
      assert nodes[..i + 1][..i] == nodes[..i];
    }
    assert nodes[..|nodes|] == nodes;
    view := Some(EvolutionView(KeepRoots(nodes, allChildren), nodes));
  }

  /** The roots are the entries whose name no entry lists as an evolution, every one of
      them, in their original order. */
  lemma RootsAreUnlisted(nodes: seq<EvoEntry>)
    ensures IsSubsequence(RootsOf(nodes), nodes)
    ensures forall n :: multiset(RootsOf(nodes))[n] == if Listed(nodes, n.name) then 0 else multiset(nodes)[n]
  {
    var children := ChildSet(nodes);
    KeepRootsIsFilter(nodes, children);
    FilterExact(nodes, (n: EvoEntry) => n.name !in children);
    forall n: EvoEntry
      ensures multiset(RootsOf(nodes))[n] == if Listed(nodes, n.name) then 0 else multiset(nodes)[n]
    {
      ChildSetMeans(nodes, n.name);
    }
  }

  /** No two entries share a name. */
  predicate DistinctNames(nodes: seq<EvoEntry>)
  {
    forall i, j :: 0 <= i < j < |nodes| ==> nodes[i].name != nodes[j].name
  }

  /** For a chain flattened from one tree with distinct species names, the only root is
      the first entry, the tree's root. */
  lemma FlattenedChainHasOneRoot(root: EvoNode)
    requires DistinctNames(Flatten(root))
    ensures RootsOf(Flatten(root)) == [Flatten(root)[0]]
    ensures Evolution(Some(Flatten(root))) == Some(EvolutionView([Flatten(root)[0]], Flatten(root)))
  {
    var f := Flatten(root);
    var children := ChildSet(f);
    ParentPrecedes(root);
    ChildrenFollow(root);
    forall j, c | 0 <= j < |f| && c in f[j].evolvesTo
      ensures c != f[0].name
    {
      var k :| j < k < |f| && f[k].name == c;
    }
    ChildSetMeans(f, f[0].name);
    forall k | 0 < k < |f|
      ensures f[k].name in children
    {
      assert HasParent(f, k);
      var j :| 0 <= j < k && f[k].name in f[j].evolvesTo;
      ChildSetMeans(f, f[k].name);
    }
    assert f[1..] == f[1..];
    forall k | 0 <= k < |f[1..]|
      ensures f[1..][k].name in children
    {
      assert f[1..][k] == f[k + 1];
    }
    AllListed(f[1..], children);
  }

  /** When every entry is a child, none is kept. */
  lemma {:induction false} AllListed(nodes: seq<EvoEntry>, children: set<string>)
    requires forall k :: 0 <= k < |nodes| ==> nodes[k].name in children
    ensures KeepRoots(nodes, children) == []
  {
    if nodes != [] {
      AllListed(nodes[1..], children);
    }
  }

  // ===========================================================================
  // Stats

  /** The six base stats as the card receives them. */
  datatype Stats = Stats(hp: real, atk: real, def: real, spa: real, spd: real, spe: real)

  /** `Object.values(data.baseStats)`, in the order the record's keys were written. */
  function StatValues(s: Stats): seq<real>
  {
    [s.hp, s.atk, s.def, s.spa, s.spd, s.spe]
  }

  /** `Object.values(data.baseStats).reduce((a, b) => a + b, 0)` */
  function TotalStats(s: Stats): real
  {
    Sum(StatValues(s))
  }

  lemma TotalIsSumOfSix(s: Stats)
    ensures TotalStats(s) == s.hp + s.atk + s.def + s.spa + s.spd + s.spe
  {
    var v := StatValues(s);
    assert Sum([s.hp]) == s.hp by { assert [s.hp][..0] == []; }
    assert Sum(v[..2]) == s.hp + s.atk by { assert v[..2][..1] == [s.hp]; }
    assert Sum(v[..3]) == s.hp + s.atk + s.def by { assert v[..3][..2] == v[..2]; }
    assert Sum(v[..4]) == s.hp + s.atk + s.def + s.spa by { assert v[..4][..3] == v[..3]; }
    assert Sum(v[..5]) == s.hp + s.atk + s.def + s.spa + s.spd by { assert v[..5][..4] == v[..4]; }
  }

  /** `max` as `StatBar` is always called. */
  const StatMax: real := 255.0

  /** `(value / max) * 100` */
  function Percentage(value: real): real
  {
    (value / StatMax) * 100.0
  }

  /** The bar colour, with each percentage threshold compared by cross-multiplication. */
  function StatBarColor(value: real): string
  {
    if value * 100.0 > 80.0 * StatMax then "bg-green-500"
    else if value * 100.0 > 60.0 * StatMax then "bg-yellow-500"
    else if value * 100.0 > 40.0 * StatMax then "bg-orange-500"
    else "bg-red-500"
  }

  /** The colour is the one the percentage chain picks: above 80 green, above 60 yellow,
      above 40 orange, otherwise red. */
  lemma StatBarColorByPercentage(value: real)
    ensures Percentage(value) > 80.0 ==> StatBarColor(value) == "bg-green-500"
    ensures 60.0 < Percentage(value) <= 80.0 ==> StatBarColor(value) == "bg-yellow-500"
    ensures 40.0 < Percentage(value) <= 60.0 ==> StatBarColor(value) == "bg-orange-500"
    ensures Percentage(value) <= 40.0 ==> StatBarColor(value) == "bg-red-500"
  {
  }

  /** Red, orange, yellow and green as 0 to 3. */
  function ColorRank(color: string): nat
  {
    if color == "bg-green-500" then 3
    else if color == "bg-yellow-500" then 2
    else if color == "bg-orange-500" then 1
    else 0
  }

  /** A higher stat never gets a lower colour. */
  lemma StatBarMonotone(v: real, w: real)
    requires v <= w
    ensures ColorRank(StatBarColor(v)) <= ColorRank(StatBarColor(w))
  {
  }

  // ===========================================================================
  // Header and type badges

  /** `String(data.id).padStart(3, '0')` */
  function IdLabel(id: int): (padded: string)
    ensures |padded| == if |IntToString(id)| >= 3 then |IntToString(id)| else 3
    ensures padded[|padded| - |IntToString(id)|..] == IntToString(id)
    ensures forall k :: 0 <= k < |padded| - |IntToString(id)| ==> padded[k] == '0'
  {
    PadStart(IntToString(id), 3, '0')
  }

  /** A single-digit id gets two leading zeros. */
  lemma IdLabelOfDigit(id: nat)
    requires id < 10
    ensures IdLabel(id) == ['0', '0', DigitChar(id)]
  {
    assert IntToString(id) == NatToString(id);
    assert NatToString(id) == [DigitChar(id)];
  }

  /** `typeColors[type] || "bg-gray-400"`: a type without a (non-empty) colour class in
      `colors` gets grey. */
  function TypeBadgeColor(colors: map<string, string>, typeName: string): (cls: string)
    ensures typeName !in colors ==> cls == "bg-gray-400"
    ensures typeName in colors && colors[typeName] != "" ==> cls == colors[typeName]
  {
    if typeName in colors && colors[typeName] != "" then colors[typeName] else "bg-gray-400"
  }
}
