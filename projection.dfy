/**
 * The scenario projector of the GDP dashboard: for one expenditure
 * component, the slider adjustment (a percentage) rescales the deviation of
 * each historical value from the first one (the anchor), and a heuristic
 * uncertainty envelope of 3% of the historical magnitude per year of horizon
 * brackets every projected value. The projected series of every component is
 * then recorded under the component's name.
 *
 * Values are modelled as exact reals; the source computes in floating point.
 */
module Projection {

  /** Relative half-width of the uncertainty envelope per year of horizon. */
  const NoiseRate: real := 0.03

  function Abs(x: real): (r: real)
    ensures r >= 0.0 && (r == x || r == -x)
  {
    if x < 0.0 then -x else x
  }

  /** The factor applied to a deviation from the anchor for a slider value adj. */
  function GrowthFactor(adj: real): (g: real)
    ensures g == 1.0 <==> adj == 0.0
    ensures g > 0.0 <==> adj > -100.0
    ensures -50.0 <= adj <= 50.0 ==> 0.5 <= g <= 1.5
  {
    1.0 + adj / 100.0
  }

  /** The projected value at index t: the anchor itself at t = 0, afterwards the
      anchor plus the historical deviation scaled by the growth factor. */
  function ScaledAt(original: seq<real>, adj: real, t: nat): (v: real)
    requires t < |original|
    ensures t == 0 ==> v == original[0]
    ensures adj == 0.0 ==> v == original[t]
  {
    if t == 0 then original[0]
    else original[0] + (original[t] - original[0]) * GrowthFactor(adj)
  }

  /** The half-width of the envelope at index t: zero at t = 0, afterwards
      3% of the historical magnitude for every year of horizon. */
  function NoiseAt(original: seq<real>, t: nat): (n: real)
    requires t < |original|
    ensures n >= 0.0
    ensures n == 0.0 <==> t == 0 || original[t] == 0.0
  {
    if t > 0 then Abs(original[t]) * NoiseRate * (t as real) else 0.0
  }

  /** The projected series of one component. */
  function Scaled(original: seq<real>, adj: real): (s: seq<real>)
    ensures |s| == |original|
  {
    seq(|original|, t requires 0 <= t < |original| => ScaledAt(original, adj, t))
  }

  /** The lower edge of the envelope. */
  function Lower(original: seq<real>, adj: real): (s: seq<real>)
    ensures |s| == |original|
  {
    seq(|original|, t requires 0 <= t < |original| => ScaledAt(original, adj, t) - NoiseAt(original, t))
  }

  /** The upper edge of the envelope. */
  function Upper(original: seq<real>, adj: real): (s: seq<real>)
    ensures |s| == |original|
  {
    seq(|original|, t requires 0 <= t < |original| => ScaledAt(original, adj, t) + NoiseAt(original, t))
  }

  /** Builds the three series of one component, one append per year. */
  method Project(original: seq<real>, adj: real) returns (scaled: seq<real>, lower: seq<real>, upper: seq<real>)
    ensures |scaled| == |lower| == |upper| == |original|
    ensures scaled == Scaled(original, adj)
    ensures lower == Lower(original, adj)
    ensures upper == Upper(original, adj)
  {
    scaled, lower, upper := [], [], [];
    for t := 0 to |original|
      invariant scaled == Scaled(original, adj)[..t]
      invariant lower == Lower(original, adj)[..t]
      invariant upper == Upper(original, adj)[..t]
    {
      var scaledVal: real;
      if t == 0 {
        scaledVal := original[0];
      } else {
        var growthFactor := GrowthFactor(adj);
        scaledVal := original[0] + (original[t] - original[0]) * growthFactor;
      }
      var noise := if t > 0 then Abs(original[t]) * NoiseRate * (t as real) else 0.0;
      ProjectStep(original, adj, t, scaledVal, noise);
      scaled := scaled + [scaledVal];
      lower := lower + [scaledVal - noise];
      upper := upper + [scaledVal + noise];
    }
  }

  /** One iteration's value and half-width are the next entries of the
      projected series and of its two bounds. */
  lemma ProjectStep(original: seq<real>, adj: real, t: nat, scaledVal: real, noise: real)
    requires t < |original|
    requires scaledVal == if t == 0 then original[0] else original[0] + (original[t] - original[0]) * GrowthFactor(adj)
    requires noise == if t > 0 then Abs(original[t]) * NoiseRate * (t as real) else 0.0
    ensures Scaled(original, adj)[..t] + [scaledVal] == Scaled(original, adj)[..t + 1]
    ensures Lower(original, adj)[..t] + [scaledVal - noise] == Lower(original, adj)[..t + 1]
    ensures Upper(original, adj)[..t] + [scaledVal + noise] == Upper(original, adj)[..t + 1]
  {
    assert scaledVal == ScaledAt(original, adj, t) && noise == NoiseAt(original, t);
    assert Scaled(original, adj)[..t + 1] == Scaled(original, adj)[..t] + [Scaled(original, adj)[t]];
    assert Lower(original, adj)[..t + 1] == Lower(original, adj)[..t] + [Lower(original, adj)[t]];
    assert Upper(original, adj)[..t + 1] == Upper(original, adj)[..t] + [Upper(original, adj)[t]];
  }

  // ---------------------------------------------------------------------
  // Properties of one component's projection
  // ---------------------------------------------------------------------

  /** Whatever the adjustment, the projection and both bounds start at the
      first historical value. */
  lemma AnchorInvariance(original: seq<real>, adj: real)
    requires |original| >= 1
    ensures Scaled(original, adj)[0] == original[0]
    ensures Lower(original, adj)[0] == original[0] == Upper(original, adj)[0]
  {
  }

  /** After the anchor, the projection's deviation from the anchor is the
      historical deviation times 1 + adj/100 (a rescaling, not a compounding). */
  lemma DeviationScaling(original: seq<real>, adj: real, t: nat)
    requires 0 < t < |original|
    ensures Scaled(original, adj)[t] - original[0] == (original[t] - original[0]) * (1.0 + adj / 100.0)
  {
  }

  /** With the slider at zero the projection reproduces history exactly. */
  lemma NeutralIdentity(original: seq<real>)
    ensures Scaled(original, 0.0) == original
  {
  }

  /** Every projected value lies inside its envelope, the envelope is
      symmetric around it, and it is a single point at the anchor. */
  lemma Bracketing(original: seq<real>, adj: real, t: nat)
    requires t < |original|
    ensures Lower(original, adj)[t] <= Scaled(original, adj)[t] <= Upper(original, adj)[t]
    ensures Scaled(original, adj)[t] - Lower(original, adj)[t] == Upper(original, adj)[t] - Scaled(original, adj)[t]
    ensures t == 0 ==> Lower(original, adj)[t] == Scaled(original, adj)[t] == Upper(original, adj)[t]
  {
  }

  /** With the slider at zero the envelope brackets the historical value and
      collapses onto it at the anchor. */
  lemma NeutralEnvelope(original: seq<real>, t: nat)
    requires t < |original|
    ensures Lower(original, 0.0)[t] <= original[t] <= Upper(original, 0.0)[t]
    ensures t == 0 ==> Lower(original, 0.0)[t] == original[t] == Upper(original, 0.0)[t]
  {
    NeutralIdentity(original);
    Bracketing(original, 0.0, t);
  }

  /** The envelope's width is 2 * |original[t]| * 0.03 * t and so does not
      depend on the adjustment. */
  lemma EnvelopeWidth(original: seq<real>, adj: real, adj': real, t: nat)
    requires t < |original|
    ensures Upper(original, adj)[t] - Lower(original, adj)[t] == 2.0 * Abs(original[t]) * 0.03 * (t as real)
    ensures Upper(original, adj)[t] - Lower(original, adj)[t] == Upper(original, adj')[t] - Lower(original, adj')[t]
  {
    assert Upper(original, adj)[t] - Lower(original, adj)[t] == 2.0 * NoiseAt(original, t);
    assert Upper(original, adj')[t] - Lower(original, adj')[t] == 2.0 * NoiseAt(original, t);
  }

  /** The envelope widens over the horizon wherever the historical magnitude
      does not shrink. */
  lemma {:induction false} EnvelopeMonotone(original: seq<real>, adj: real, s: nat, t: nat)
    requires s <= t < |original|
    requires Abs(original[s]) <= Abs(original[t])
    ensures Upper(original, adj)[s] - Lower(original, adj)[s] <= Upper(original, adj)[t] - Lower(original, adj)[t]
  {
    var a, b := Abs(original[s]) * NoiseRate, Abs(original[t]) * NoiseRate;
    assert 0.0 <= a <= b;
    calc {
      NoiseAt(original, s);
    ==  a * (s as real);
    <=  { MulMonotone(a, s as real, b); }
        b * (s as real);
    <=  { MulMonotone(s as real, b, t as real); }
        b * (t as real);
    ==  NoiseAt(original, t);
    }
  }

  /** x * y <= z * y for 0 <= x <= z and y >= 0, and the same with the factors
      swapped. */
  lemma MulMonotone(x: real, y: real, z: real)
    requires 0.0 <= x <= z && 0.0 <= y
    ensures x * y <= z * y && y * x <= y * z
  {
  }

  /** For any adjustment above -100% the projection deviates from the anchor in
      the same direction as history did; inside the slider's range of
      [-50, 50] its deviation is between half and one and a half times the
      historical one. */
  lemma SliderRange(original: seq<real>, adj: real, t: nat)
    requires 0 < t < |original|
    ensures adj > -100.0 ==>
      (Scaled(original, adj)[t] > original[0] <==> original[t] > original[0]) &&
      (Scaled(original, adj)[t] < original[0] <==> original[t] < original[0])
    ensures -50.0 <= adj <= 50.0 ==>
      0.5 * Abs(original[t] - original[0]) <= Abs(Scaled(original, adj)[t] - original[0])
                                           <= 1.5 * Abs(original[t] - original[0])
  {
    var d, g := original[t] - original[0], GrowthFactor(adj);
    assert Scaled(original, adj)[t] - original[0] == d * g;
    if adj > -100.0 {
      SignOfProduct(d, g);
    }
    if -50.0 <= adj <= 50.0 {
      DeviationBounds(d, g);
    }
  }

  lemma DeviationBounds(d: real, g: real)
    requires 0.5 <= g <= 1.5
    ensures 0.5 * Abs(d) <= Abs(d * g) <= 1.5 * Abs(d)
  {
    var e := Abs(d);
    MulMonotone(0.5, e, g);
    MulMonotone(g, e, 1.5);
    assert 0.5 * e <= g * e <= 1.5 * e;
    assert Abs(d * g) == g * e by {
      if d < 0.0 {
        assert d * g == -(g * e);
      } else {
        assert d * g == g * e;
      }
    }
  }

  lemma SignOfProduct(d: real, g: real)
    requires g > 0.0
    ensures d * g > 0.0 <==> d > 0.0
    ensures d * g < 0.0 <==> d < 0.0
  {
  }

  // ---------------------------------------------------------------------
  // Recording every component's projection
  // ---------------------------------------------------------------------

  /** The end of a pass over the components: either it went through all of
      them, or the growth-rate call raised for the named component and the
      script stopped there. */
  datatype Outcome<T> = Completed(value: T) | Raised(component: string)

  /** The growth-rate call made for every component before its projection,
      (series[-1] / series[0]) ** (1 / (n_years - 1)) - 1, returns instead of
      raising: the series has a first and a last value, the first is not
      zero, n_years is not 1, and with n_years = 0 (exponent -1) the ratio
      raised to it is not 0 ** -1. */
  predicate GrowthRateDefined(series: seq<real>, nYears: nat): (ok: bool)
    ensures nYears == 1 ==> !ok
    ensures nYears >= 2 ==> (ok <==> |series| > 0 && series[0] != 0.0)
  {
    && |series| > 0
    && series[0] != 0.0
    && nYears != 1
    && (nYears == 0 ==> series[|series| - 1] != 0.0)
  }

  /** The position of the first component whose growth-rate call raises, or
      the number of components when none does. */
  function FirstFailing(table: map<string, seq<real>>, components: seq<string>, nYears: nat): (k: nat)
    requires forall c :: c in components ==> c in table
    ensures k <= |components|
    ensures forall j :: 0 <= j < k ==> GrowthRateDefined(table[components[j]], nYears)
    ensures k < |components| ==> !GrowthRateDefined(table[components[k]], nYears)
    decreases |components|
  {
    if components == [] || !GrowthRateDefined(table[components[0]], nYears) then 0
    else 1 + FirstFailing(table, components[1..], nYears)
  }

  /** The dictionary of projected series after every component in
      components has been processed. */
  function Scenario(table: map<string, seq<real>>, adjs: map<string, real>, components: seq<string>): (m: map<string, seq<real>>)
    requires forall c :: c in components ==> c in table && c in adjs
    ensures m.Keys == set c | c in components
  {
    map c | c in components :: Scaled(table[c], adjs[c])
  }

  /** Processes the components in order: calls the growth-rate estimate on the
      component's history (stopping if it raises), projects the history with
      the component's slider value, and records only the projected series
      under the component's name. */
  method BuildScenario(table: map<string, seq<real>>, adjs: map<string, real>, components: seq<string>, nYears: nat)
    returns (outcome: Outcome<map<string, seq<real>>>)
    requires forall c :: c in components ==> c in table && c in adjs
    ensures var k := FirstFailing(table, components, nYears);
      if k == |components| then outcome == Completed(Scenario(table, adjs, components))
      else outcome == Raised(components[k])
    ensures outcome.Completed? ==> outcome.value.Keys == set c | c in components
    ensures outcome.Completed? ==> forall c :: c in components ==> outcome.value[c] == Scaled(table[c], adjs[c])
  {
    var adjusted := map[];
    for i := 0 to |components|
      invariant i <= FirstFailing(table, components, nYears)
      invariant adjusted == Scenario(table, adjs, components[..i])
    {
      var component := components[i];
      if !GrowthRateDefined(table[component], nYears) {
        return Raised(component);
      }
      var scaled, lowerBound, upperBound := Project(table[component], adjs[component]);
      ScenarioStep(table, adjs, components, i);
      adjusted := adjusted[component := scaled];
    }
    assert components[..|components|] == components;
    outcome := Completed(adjusted);
  }

  /** Processing one more component adds or overwrites that component's entry
      and leaves every other entry as it was. */
  lemma ScenarioStep(table: map<string, seq<real>>, adjs: map<string, real>, components: seq<string>, i: nat)
    requires i < |components|
    requires forall c :: c in components ==> c in table && c in adjs
    ensures Scenario(table, adjs, components[..i + 1])
         == Scenario(table, adjs, components[..i])[components[i] := Scaled(table[components[i]], adjs[components[i]])]
  {
  }

  /** With every slider at zero, every recorded series is the history itself. */
  lemma NeutralScenario(table: map<string, seq<real>>, adjs: map<string, real>, components: seq<string>)
    requires forall c :: c in components ==> c in table && c in adjs && adjs[c] == 0.0
    ensures forall c :: c in components ==> Scenario(table, adjs, components)[c] == table[c]
  {
    forall c | c in components
      ensures Scenario(table, adjs, components)[c] == table[c]
    {
      NeutralIdentity(table[c]);
    }
  }
}
