/** The derivations in app/components/TypeEffectivenessCard.tsx: the three buckets a list
    of recommendations is split into, and the colour and label of a multiplier. */
module TypeEffectiveness {
  import opened Seqs

  /** One `TypeRecommendation`; multipliers are exact, so 0.5 and 0.25 compare equal. */
  datatype Recommendation = Recommendation(typeName: string, multiplier: real, rationale: string)

  /** `data.filter(d => d.multiplier >= 2)` */
  function SuperEffective(data: seq<Recommendation>): seq<Recommendation>
  {
    Filter(data, (d: Recommendation) => d.multiplier >= 2.0)
  }

  /** `data.filter(d => d.multiplier === 1)` */
  function Neutral(data: seq<Recommendation>): seq<Recommendation>
  {
    Filter(data, (d: Recommendation) => d.multiplier == 1.0)
  }

  /** `data.filter(d => d.multiplier < 1 && d.multiplier > 0)` */
  function NotVeryEffective(data: seq<Recommendation>): seq<Recommendation>
  {
    Filter(data, (d: Recommendation) => d.multiplier < 1.0 && d.multiplier > 0.0)
  }

  /** Each bucket holds, in input order, every entry of its range and no other. */
  lemma BucketsAreExact(data: seq<Recommendation>)
    ensures IsSubsequence(SuperEffective(data), data)
    ensures IsSubsequence(Neutral(data), data)
    ensures IsSubsequence(NotVeryEffective(data), data)
    ensures forall d: Recommendation :: multiset(SuperEffective(data))[d] == if d.multiplier >= 2.0 then multiset(data)[d] else 0
    ensures forall d: Recommendation :: multiset(Neutral(data))[d] == if d.multiplier == 1.0 then multiset(data)[d] else 0
    ensures forall d: Recommendation ::
      multiset(NotVeryEffective(data))[d] == if 0.0 < d.multiplier < 1.0 then multiset(data)[d] else 0
  {
    FilterExact(data, (d: Recommendation) => d.multiplier >= 2.0);
    FilterExact(data, (d: Recommendation) => d.multiplier == 1.0);
    FilterExact(data, (d: Recommendation) => d.multiplier < 1.0 && d.multiplier > 0.0);
  }

  /** No entry is in two buckets, and an entry with a multiplier of at most 0, or strictly
      between 1 and 2, is in none. */
  lemma BucketsAreDisjoint(data: seq<Recommendation>)
    ensures forall d: Recommendation :: d in SuperEffective(data) ==> d !in Neutral(data) && d !in NotVeryEffective(data)
    ensures forall d: Recommendation :: d in Neutral(data) ==> d !in NotVeryEffective(data)
    ensures forall d: Recommendation ::
      (d.multiplier <= 0.0 || 1.0 < d.multiplier < 2.0) ==> d !in SuperEffective(data) && d !in Neutral(data) && d !in NotVeryEffective(data)
  {
    BucketsAreExact(data);
  }

  /** `getColor()` */
  function Color(multiplier: real): string
  {
    if multiplier >= 2.0 then "text-green-600"
    else if multiplier == 1.0 then "text-yellow-600"
    else if multiplier > 0.0 then "text-orange-600"
    else "text-red-600"
  }

  /** What `getLabel()` returns: a fixed text, or the template `${multiplier}×`, whose
      number-to-text conversion is left to `Render`. */
  datatype Label = Fixed(text: string) | Numeric(multiplier: real)

  function GetLabel(multiplier: real): Label
  {
    if multiplier >= 4.0 then Fixed("4\U{00D7}")
    else if multiplier >= 2.0 then Fixed("2\U{00D7}")
    else if multiplier == 1.0 then Fixed("1\U{00D7}")
    else if multiplier == 0.5 then Fixed("\U{00BD}\U{00D7}")
    else if multiplier == 0.25 then Fixed("\U{00BC}\U{00D7}")
    else Numeric(multiplier)
  }

  /** The label's text, given JavaScript's number formatting. */
  function Render(l: Label, numberText: real -> string): string
  {
    match l
    case Fixed(text) => text
    case Numeric(m) => numberText(m) + "\U{00D7}"
  }

  /** The text `getLabel()` shows, threshold by threshold: `4×` from 4 up, `2×` from 2 up,
      the fixed texts for 1, 0.5 and 0.25, and otherwise the number followed by `×`; every
      label ends in `×`. */
  lemma RenderedLabel(multiplier: real, numberText: real -> string)
    ensures Render(GetLabel(multiplier), numberText) ==
      if multiplier >= 4.0 then "4\U{00D7}"
      else if 2.0 <= multiplier then "2\U{00D7}"
      else if multiplier == 1.0 then "1\U{00D7}"
      else if multiplier == 0.5 then "\U{00BD}\U{00D7}"
      else if multiplier == 0.25 then "\U{00BC}\U{00D7}"
      else numberText(multiplier) + "\U{00D7}"
    ensures var text := Render(GetLabel(multiplier), numberText); |text| >= 1 && text[|text| - 1] == '\U{00D7}'
  {
  }

  /** Colour and label agree with the buckets: super-effective entries are green and
      labelled 4× or 2×, neutral ones yellow and 1×, not-very-effective ones orange, and
      entries in no bucket orange (between 1 and 2) or red (at most 0). */
  lemma IndicatorMatchesBucket(data: seq<Recommendation>, d: Recommendation)
    ensures d in SuperEffective(data) ==>
      Color(d.multiplier) == "text-green-600" && GetLabel(d.multiplier) in {Fixed("4\U{00D7}"), Fixed("2\U{00D7}")}
    ensures d in Neutral(data) ==> Color(d.multiplier) == "text-yellow-600" && GetLabel(d.multiplier) == Fixed("1\U{00D7}")
    ensures d in NotVeryEffective(data) ==> Color(d.multiplier) == "text-orange-600"
    ensures d in data && d !in SuperEffective(data) && d !in Neutral(data) && d !in NotVeryEffective(data) ==>
      Color(d.multiplier) == if d.multiplier > 0.0 then "text-orange-600" else "text-red-600"
  {
    BucketsAreExact(data);
    if d in data {
      assert multiset(data)[d] > 0;
    }
  }

  /** A label is the number followed by × exactly when the multiplier is none of the five
      named values and below 2. */
  lemma LabelIsNumericExactly(multiplier: real)
    ensures GetLabel(multiplier).Numeric? <==>
      multiplier < 2.0 && multiplier != 1.0 && multiplier != 0.5 && multiplier != 0.25
  {
  }
}
