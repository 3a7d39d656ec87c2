/** ml-pipeline/simple-ml.py: the stand-in prediction service. Its risk is
    `random.uniform(0.1, 0.9)`, passed in here as integer thousandths; the
    category and the factor list both follow from it. */
module SimpleMl {
  import OutbreakModel

  datatype SimplePrediction = SimplePrediction(riskMil: nat, category: string, factors: seq<string>)

  const HighContamination := "High contamination levels"
  const SevereCases := "Multiple severe cases"
  const WeatherConditions := "Weather conditions"
  const ElevatedPH := "Elevated pH levels"
  const RecentCases := "Recent cases in area"
  const NormalConditions := "Normal conditions"

  /** The factor list of `predict`, chosen by the same thresholds as the category. */
  function SimpleFactors(riskMil: nat): (factors: seq<string>)
    ensures riskMil > 700 ==> factors == [HighContamination, SevereCases, WeatherConditions]
    ensures 400 < riskMil <= 700 ==> factors == [ElevatedPH, RecentCases]
    ensures riskMil <= 400 ==> factors == [NormalConditions]
  {
    if riskMil > 700 then [HighContamination, SevereCases, WeatherConditions]
    else if riskMil > 400 then [ElevatedPH, RecentCases]
    else [NormalConditions]
  }

  /** `predict`: the category expression is the one `app.py` uses. */
  function Predict(riskMil: nat): (p: SimplePrediction)
    ensures p.riskMil == riskMil
    ensures p.category == OutbreakModel.RiskCategory(riskMil)
    ensures p.factors == SimpleFactors(riskMil)
  {
    SimplePrediction(riskMil, OutbreakModel.RiskCategory(riskMil), SimpleFactors(riskMil))
  }

  /** The factor list is never empty. */
  lemma FactorsNeverEmpty(riskMil: nat)
    ensures |Predict(riskMil).factors| > 0
  {
  }

  /** Category and factors always come from the same branch: three factors
      exactly for `high`, two exactly for `medium`, the normal-conditions
      list exactly for `low`; a high prediction names contamination and
      never reports normal conditions. */
  lemma CategoryAgreesWithFactors(riskMil: nat)
    ensures var p := Predict(riskMil);
            (p.category == "high" <==> |p.factors| == 3)
            && (p.category == "medium" <==> |p.factors| == 2)
            && (p.category == "low" <==> p.factors == [NormalConditions])
            && (p.category == "high" ==> HighContamination in p.factors && NormalConditions !in p.factors)
  {
  }
}
