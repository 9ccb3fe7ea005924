/**
 * The dashboard script as a whole: the fixed data table of GDP by the
 * expenditure approach, the recomputation that runs on every slider change
 * (project every component, then aggregate), and worked examples on the
 * table's own figures.
 */
module Dashboard {
  import Projection
  import Aggregation

  /** The years of the table; n_years is their number. */
  const Years: seq<int> := [2019, 2020, 2021, 2022, 2023, 2024, 2025, 2026, 2027]
  const NYears: nat := |Years|

  /** The recorded nominal GDP by expenditure, in billion UAH. */
  const TrueGdp: seq<real> := [5937.143, 5924.972, 7740.73, 7960.907, 9865.014, 11754.332, 13741.219, 16520.025, 19913.083]

  /** The five expenditure components, in the order the sliders show them. */
  const Components: seq<string> := ["priv_cons_uah_mln", "publ_cons", "inv", "exports_gs", "invent"]

  /** The components' historical series, in million UAH. */
  const PrivateConsumption: seq<real> := [2958119.0, 3094144.0, 3767172.0, 3382196.0, 4191487.0, 5102641.0, 6123169.0, 7347803.0, 8890842.0]
  const PublicConsumption: seq<real> := [746939.0, 814644.0, 967099.0, 2087072.0, 2725227.0, 3289418.0, 3552571.0, 3765726.0, 4029327.0]
  const Investment: seq<real> := [700617.0, 564315.0, 719771.0, 621856.0, 1104704.0, 1096886.0, 1369668.0, 2117607.0, 2980470.0]
  const Exports: seq<real> := [1639866.0, 1639060.0, 2217860.0, 1857010.0, 1868904.0, 2265387.0, 2695811.0, 3288889.0, 4012444.0]
  const Inventories: seq<real> := [-108398.0, -187191.0, 68828.0, 12773.0, -25308.0, -364215.766, -430601.499, -143625.4334, 130853.4676]

  /** The data table, keyed by component name. */
  const Table: map<string, seq<real>> := map[
    "priv_cons_uah_mln" := PrivateConsumption,
    "publ_cons" := PublicConsumption,
    "inv" := Investment,
    "exports_gs" := Exports,
    "invent" := Inventories
  ]

  /** One recomputation of the page: every component is projected with its own
      slider value and recorded, then the reconstructed GDP is aggregated from
      the recorded series. The recomputation stops at the first component whose
      growth-rate call raises, and then no GDP is produced. */
  method Recalculate(table: map<string, seq<real>>, adjs: map<string, real>, components: seq<string>, nYears: nat)
    returns (page: Projection.Outcome<seq<real>>)
    requires forall c :: c in components ==> c in table && c in adjs
    requires Aggregation.Aligned(table, components, nYears)
    ensures Aggregation.Aligned(Projection.Scenario(table, adjs, components), components, nYears)
    ensures var k := Projection.FirstFailing(table, components, nYears);
      if k == |components|
      then page == Projection.Completed(Aggregation.RecalculatedGdp(Projection.Scenario(table, adjs, components), components, nYears))
      else page == Projection.Raised(components[k])
    ensures page.Completed? ==> |page.value| == nYears
    ensures page.Completed? && nYears > 0 ==> page.value[0] == Aggregation.RecalculatedGdp(table, components, nYears)[0]
    ensures page.Completed? && (forall c :: c in components ==> adjs[c] == 0.0) ==>
      page.value == Aggregation.RecalculatedGdp(table, components, nYears)
  {
    var outcome := Projection.BuildScenario(table, adjs, components, nYears);
    if outcome.Raised? {
      return Projection.Raised(outcome.component);
    }
    page := Projection.Completed(Aggregation.RecalculatedGdp(outcome.value, components, nYears));
    if nYears > 0 {
      Aggregation.AnchorYearGdp(table, adjs, components, nYears);
    }
    if forall c :: c in components ==> adjs[c] == 0.0 {
      Aggregation.NeutralGdp(table, adjs, components, nYears);
    }
  }

  /** With the dashboard's five components, each reconstructed value is the
      five components' values at that year added up and divided by 1000. */
  lemma FiveComponentGdp(adjusted: map<string, seq<real>>, nYears: nat, i: nat)
    requires Aggregation.Aligned(adjusted, Components, nYears)
    requires i < nYears
    ensures Aggregation.RecalculatedGdp(adjusted, Components, nYears)[i]
         == (adjusted["priv_cons_uah_mln"][i] + adjusted["publ_cons"][i] + adjusted["inv"][i]
             + adjusted["exports_gs"][i] + adjusted["invent"][i]) / 1000.0
  {
    var p, g, v, x, n := "priv_cons_uah_mln", "publ_cons", "inv", "exports_gs", "invent";
    assert Components == [] + [p] + [g] + [v] + [x] + [n];
    Aggregation.ComponentSumAppend(adjusted, [] + [p] + [g] + [v] + [x], n, i);
    Aggregation.ComponentSumAppend(adjusted, [] + [p] + [g] + [v], x, i);
    Aggregation.ComponentSumAppend(adjusted, [] + [p] + [g], v, i);
    Aggregation.ComponentSumAppend(adjusted, [] + [p], g, i);
    Aggregation.ComponentSumAppend(adjusted, [], p, i);
  }

  /** The table's five columns sit under the five component names, and each
      covers every year. */
  lemma TableColumns()
    ensures Aggregation.Aligned(Table, Components, NYears)
    ensures Table["priv_cons_uah_mln"] == PrivateConsumption && Table["publ_cons"] == PublicConsumption
    ensures Table["inv"] == Investment && Table["exports_gs"] == Exports && Table["invent"] == Inventories
  {
  }

  /** On the repository's table the growth-rate call never raises: every
      column starts at a non-zero value and there are nine years, so every
      recomputation of the page completes. */
  lemma TableCompletes()
    ensures Projection.FirstFailing(Table, Components, NYears) == |Components|
  {
  }

  /** With every slider at zero, the reconstructed GDP equals the recorded
      total for 2019-2023; for 2024-2027 it differs from the recorded total by
      the change in inventories divided by 1000, which the recorded total
      leaves out (below it in 2024-2026, where inventories fall, and above it
      in 2027). */
  lemma NeutralReconstructionOfTable(adjs: map<string, real>)
    requires forall c :: c in Components ==> c in adjs && adjs[c] == 0.0
    ensures Aggregation.Aligned(Projection.Scenario(Table, adjs, Components), Components, NYears)
    ensures var gdp := Aggregation.RecalculatedGdp(Projection.Scenario(Table, adjs, Components), Components, NYears);
      && (forall i :: 0 <= i < 5 ==> gdp[i] == TrueGdp[i])
      && (forall i :: 5 <= i < NYears ==> gdp[i] == TrueGdp[i] + Inventories[i] / 1000.0)
  {
    TableColumns();
    Aggregation.NeutralGdp(Table, adjs, Components, NYears);
    var gdp := Aggregation.RecalculatedGdp(Table, Components, NYears);
    forall i | 0 <= i < NYears
      ensures gdp[i] == if i < 5 then TrueGdp[i] else TrueGdp[i] + Inventories[i] / 1000.0
    {
      FiveComponentGdp(Table, NYears, i);
      ColumnSums(i);
    }
  }

  /** The five columns of a year, in million UAH, add up, divided by 1000, to
      the recorded total through 2023, and to the recorded total plus
      inventories divided by 1000 from 2024 on. */
  lemma ColumnSums(i: nat)
    requires i < NYears
    ensures (PrivateConsumption[i] + PublicConsumption[i] + Investment[i] + Exports[i] + Inventories[i]) / 1000.0
         == if i < 5 then TrueGdp[i] else TrueGdp[i] + Inventories[i] / 1000.0
  {
    if i == 0 {
    } else if i == 1 {
    } else if i == 2 {
    } else if i == 3 {
    } else if i == 4 {
    } else if i == 5 {
    } else if i == 6 {
    } else if i == 7 {
    } else {
      assert i == 8;
    }
  }

  /** The three-year example: history [100, 110, 121] with the slider at 50
      gives [100, 115, 131.5] with envelope half-widths [0, 3.3, 7.26]. */
  lemma ThreeYearExample()
    ensures Projection.Scaled([100.0, 110.0, 121.0], 50.0) == [100.0, 115.0, 131.5]
    ensures Projection.Lower([100.0, 110.0, 121.0], 50.0) == [100.0, 111.7, 124.24]
    ensures Projection.Upper([100.0, 110.0, 121.0], 50.0) == [100.0, 118.3, 138.76]
  {
  }

  /** The same history with an adjustment of 100 (outside the slider's range,
      which the projector does not enforce) doubles each deviation:
      [100, 120, 142], bounds [116.7, 123.3] at t = 1 and [134.74, 149.26] at t = 2. */
  lemma DoubledDeviationExample()
    ensures Projection.Scaled([100.0, 110.0, 121.0], 100.0) == [100.0, 120.0, 142.0]
    ensures Projection.Lower([100.0, 110.0, 121.0], 100.0) == [100.0, 116.7, 134.74]
    ensures Projection.Upper([100.0, 110.0, 121.0], 100.0) == [100.0, 123.3, 149.26]
  {
  }
}
