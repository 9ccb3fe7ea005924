/**
 * The aggregator of the GDP dashboard: the reconstructed GDP of a year is the
 * sum of every component's projected value for that year, converted from
 * millions to billions of hryvnias by dividing by 1000.
 */
module Aggregation {
  import Projection

  /** Converts the components' unit (million UAH) to the total's (billion UAH). */
  const UnitDivisor: real := 1000.0

  /** Every listed component has a recorded series covering the first nYears years. */
  predicate Aligned(adjusted: map<string, seq<real>>, components: seq<string>, nYears: nat)
  {
    forall c :: c in components ==> c in adjusted && nYears <= |adjusted[c]|
  }

  /** The sum over components of their values at year index i, added from
      left to right starting at zero. */
  function ComponentSum(adjusted: map<string, seq<real>>, components: seq<string>, i: nat): (s: real)
    requires Aligned(adjusted, components, i + 1)
    ensures (forall c :: c in components ==> adjusted[c][i] >= 0.0) ==> s >= 0.0
    ensures (forall c :: c in components ==> adjusted[c][i] <= 0.0) ==> s <= 0.0
    decreases |components|
  {
    if components == [] then 0.0
    else
      var last := components[|components| - 1];
      ComponentSum(adjusted, components[..|components| - 1], i) + adjusted[last][i]
  }

  /** Adding one more component to the list adds its value to the sum. */
  lemma ComponentSumAppend(adjusted: map<string, seq<real>>, components: seq<string>, c: string, i: nat)
    requires Aligned(adjusted, components + [c], i + 1)
    ensures Aligned(adjusted, components, i + 1)
    ensures ComponentSum(adjusted, components + [c], i) == ComponentSum(adjusted, components, i) + adjusted[c][i]
  {
    assert (components + [c])[..|components|] == components;
  }

  /** The reconstructed GDP series over the first nYears years. */
  function RecalculatedGdp(adjusted: map<string, seq<real>>, components: seq<string>, nYears: nat): (gdp: seq<real>)
    requires Aligned(adjusted, components, nYears)
    ensures |gdp| == nYears
  {
    seq(nYears, i requires 0 <= i < nYears => ComponentSum(adjusted, components, i) / UnitDivisor)
  }

  /** Summing two component sets year by year and then aggregating gives the
      sum of the two aggregates. */
  lemma {:induction false} SumLinear(a: map<string, seq<real>>, b: map<string, seq<real>>, s: map<string, seq<real>>,
                                     components: seq<string>, i: nat)
    requires Aligned(a, components, i + 1) && Aligned(b, components, i + 1) && Aligned(s, components, i + 1)
    requires forall c :: c in components ==> s[c][i] == a[c][i] + b[c][i]
    ensures ComponentSum(s, components, i) == ComponentSum(a, components, i) + ComponentSum(b, components, i)
    decreases |components|
  {
    if components != [] {
      SumLinear(a, b, s, components[..|components| - 1], i);
    }
  }

  /** Aggregation is linear: the reconstructed GDP of the year-by-year sum of
      two component sets is the sum of their reconstructed GDPs. */
  lemma GdpLinear(a: map<string, seq<real>>, b: map<string, seq<real>>, s: map<string, seq<real>>,
                  components: seq<string>, nYears: nat)
    requires Aligned(a, components, nYears) && Aligned(b, components, nYears) && Aligned(s, components, nYears)
    requires forall c, i :: c in components && 0 <= i < nYears ==> s[c][i] == a[c][i] + b[c][i]
    ensures forall i :: 0 <= i < nYears ==>
      RecalculatedGdp(s, components, nYears)[i] == RecalculatedGdp(a, components, nYears)[i] + RecalculatedGdp(b, components, nYears)[i]
  {
    forall i | 0 <= i < nYears
      ensures RecalculatedGdp(s, components, nYears)[i] == RecalculatedGdp(a, components, nYears)[i] + RecalculatedGdp(b, components, nYears)[i]
    {
      SumLinear(a, b, s, components, i);
    }
  }

  /** The sum at year i depends only on the listed components' values at year i. */
  lemma {:induction false} SumCongruent(a: map<string, seq<real>>, b: map<string, seq<real>>, components: seq<string>, i: nat)
    requires Aligned(a, components, i + 1) && Aligned(b, components, i + 1)
    requires forall c :: c in components ==> a[c][i] == b[c][i]
    ensures ComponentSum(a, components, i) == ComponentSum(b, components, i)
    decreases |components|
  {
    if components != [] {
      SumCongruent(a, b, components[..|components| - 1], i);
    }
  }

  /** With every slider at zero the reconstructed GDP is the sum of the
      historical component values divided by 1000. */
  lemma NeutralGdp(table: map<string, seq<real>>, adjs: map<string, real>, components: seq<string>, nYears: nat)
    requires forall c :: c in components ==> c in table && c in adjs && adjs[c] == 0.0
    requires Aligned(table, components, nYears)
    ensures Aligned(Projection.Scenario(table, adjs, components), components, nYears)
    ensures RecalculatedGdp(Projection.Scenario(table, adjs, components), components, nYears)
         == RecalculatedGdp(table, components, nYears)
  {
    var adjusted := Projection.Scenario(table, adjs, components);
    Projection.NeutralScenario(table, adjs, components);
    forall i | 0 <= i < nYears
      ensures RecalculatedGdp(adjusted, components, nYears)[i] == RecalculatedGdp(table, components, nYears)[i]
    {
      SumCongruent(adjusted, table, components, i);
    }
  }

  /** The first year's reconstructed GDP does not depend on the sliders: every
      projection starts at its component's first historical value. */
  lemma AnchorYearGdp(table: map<string, seq<real>>, adjs: map<string, real>, components: seq<string>, nYears: nat)
    requires forall c :: c in components ==> c in table && c in adjs
    requires Aligned(table, components, nYears)
    requires nYears > 0
    ensures Aligned(Projection.Scenario(table, adjs, components), components, nYears)
    ensures RecalculatedGdp(Projection.Scenario(table, adjs, components), components, nYears)[0]
         == RecalculatedGdp(table, components, nYears)[0]
  {
    var adjusted := Projection.Scenario(table, adjs, components);
    forall c | c in components
      ensures adjusted[c][0] == table[c][0]
    {
      Projection.AnchorInvariance(table[c], adjs[c]);
    }
    SumCongruent(adjusted, table, components, 0);
  }
}
