/** ml-pipeline/app.py, the rule parts of `OutbreakPredictor`: the feature
    vector handed to the classifier, the risk factors reported beside the
    probability, the category of that probability, and the rule that
    labels the synthetic training rows. The classifier itself is not part
    of this model; its probability is an input, in thousandths. */
module OutbreakModel {
  import opened Common
  import opened Sequences

  /** One water document as `prepare_features` reads it. */
  datatype WaterRecord = WaterRecord(pH: real, turbidity: real, contaminationLevel: real)

  /** One health document; `severity` may be missing. */
  datatype CaseRecord = CaseRecord(severity: Option<string>)

  /** The optional weather dictionary: `None` or a map of named numbers. */
  type Weather = Option<map<string, real>>

  /** The length of the feature vector: pH, turbidity, contamination,
      cases, severe cases, temperature, humidity. */
  const FeatureCount := 7

  function Column(water: seq<WaterRecord>, f: WaterRecord -> real): (xs: seq<real>)
    ensures |xs| == |water| && forall i :: 0 <= i < |water| ==> xs[i] == f(water[i])
  {
    seq(|water|, i requires 0 <= i < |water| => f(water[i]))
  }

  /** `len([d for d in health_data if d.get('severity') == 'severe'])`. */
  function SevereCount(cases: seq<CaseRecord>): (n: nat)
    ensures n <= |cases|
    ensures n == 0 <==> forall i :: 0 <= i < |cases| ==> cases[i].severity != Some("severe")
  {
    if cases == [] then 0
    else SevereCount(cases[..|cases| - 1]) + (if cases[|cases| - 1].severity == Some("severe") then 1 else 0)
  }

  /** `dict.get(key, default)`. */
  function Get(d: map<string, real>, key: string, default: real): real {
    if key in d then d[key] else default
  }

  /** `if weather_data:`: `None` and the empty dictionary are both falsy. */
  predicate HasWeather(weather: Weather) {
    weather.Some? && |weather.value| > 0
  }

  /** `prepare_features`: three `extend` calls, each with a default when
      its input is falsy. */
  method PrepareFeatures(water: seq<WaterRecord>, cases: seq<CaseRecord>, weather: Weather)
      returns (features: seq<real>)
    ensures |features| == FeatureCount
    ensures |water| > 0 ==>
              features[0] == Mean(Column(water, (d: WaterRecord) => d.pH))
              && features[1] == Mean(Column(water, (d: WaterRecord) => d.turbidity))
              && features[2] == Mean(Column(water, (d: WaterRecord) => d.contaminationLevel))
    ensures |water| == 0 ==> features[..3] == [7.0, 5.0, 50.0]
    ensures features[3] == |cases| as real && features[4] == SevereCount(cases) as real
    ensures features[4] <= features[3]
    ensures HasWeather(weather) ==>
              features[5] == Get(weather.value, "temperature", 25.0)
              && features[6] == Get(weather.value, "humidity", 70.0)
    ensures !HasWeather(weather) ==> features[5..] == [25.0, 70.0]
  {
    features := [];
    if |water| > 0 {
      var avgPH := Mean(Column(water, (d: WaterRecord) => d.pH));
      var avgTurbidity := Mean(Column(water, (d: WaterRecord) => d.turbidity));
      var avgContamination := Mean(Column(water, (d: WaterRecord) => d.contaminationLevel));
      features := features + [avgPH, avgTurbidity, avgContamination];
    } else {
      features := features + [7.0, 5.0, 50.0];
    }
    if |cases| > 0 {
      features := features + [|cases| as real, SevereCount(cases) as real];
    } else {
      features := features + [0.0, 0.0];
    }
    if weather.Some? && |weather.value| > 0 {
      features := features + [Get(weather.value, "temperature", 25.0), Get(weather.value, "humidity", 70.0)];
    } else {
      features := features + [25.0, 70.0];
    }
  }

  /** The mean features lie within the readings they average: with every
      pH between `lo` and `hi`, so is feature 0. */
  lemma MeanPHWithinReadings(water: seq<WaterRecord>, lo: real, hi: real)
    requires |water| > 0
    requires forall i :: 0 <= i < |water| ==> lo <= water[i].pH <= hi
    ensures lo <= Mean(Column(water, (d: WaterRecord) => d.pH)) <= hi
  {
    MeanBounds(Column(water, (d: WaterRecord) => d.pH), lo, hi);
  }

  // ---------------------------------------------------------------------
  // `_analyze_risk_factors`
  // ---------------------------------------------------------------------

  /** The five factor messages, in the order they are tested. */
  const FactorMessages := [
    "pH levels outside safe range",
    "High water turbidity",
    "High contamination levels",
    "Increased disease cases",
    "Multiple severe cases"]

  /** Which of the five factor thresholds the features cross. */
  function Crossed(features: seq<real>): (flags: seq<bool>)
    requires |features| >= 5
    ensures |flags| == 5
  {
    [features[0] < 6.5 || features[0] > 8.5,
     features[1] > 10.0,
     features[2] > 70.0,
     features[3] > 10.0,
     features[4] > 2.0]
  }

  /** The messages whose flag is set, in order. */
  function Selected(messages: seq<string>, flags: seq<bool>): (r: seq<string>)
    requires |messages| == |flags|
    ensures |r| <= |messages|
    ensures forall m :: m in r ==> m in messages
    decreases |messages|
  {
    if messages == [] then []
    else Selected(messages[..|messages| - 1], flags[..|flags| - 1])
         + (if flags[|flags| - 1] then [messages[|messages| - 1]] else [])
  }

  /** The k-th selected message is message `f[k]`, and its flag is set. */
  ghost predicate PicksFlagged(messages: seq<string>, flags: seq<bool>, f: seq<int>)
    requires |messages| == |flags|
  {
    var r := Selected(messages, flags);
    |f| == |r| && forall k :: 0 <= k < |f| ==> 0 <= f[k] < |messages| && flags[f[k]] && r[k] == messages[f[k]]
  }

  /** Every flagged index is among `f`. */
  ghost predicate CoversFlagged(flags: seq<bool>, f: seq<int>) {
    forall i :: 0 <= i < |flags| && flags[i] ==> i in f
  }

  lemma PicksStep(messages: seq<string>, flags: seq<bool>, g: seq<int>)
    requires |messages| == |flags| > 0
    requires PicksFlagged(messages[..|messages| - 1], flags[..|flags| - 1], g)
    ensures PicksFlagged(messages, flags, g + if flags[|flags| - 1] then [|flags| - 1] else [])
  {
    var n := |messages| - 1;
    var f := g + if flags[n] then [n] else [];
    var r := Selected(messages, flags);
    assert r == Selected(messages[..n], flags[..n]) + (if flags[n] then [messages[n]] else []);
    forall k | 0 <= k < |f| ensures 0 <= f[k] < |messages| && flags[f[k]] && r[k] == messages[f[k]] {
      if k < |g| {
        assert messages[..n][g[k]] == messages[g[k]] && flags[..n][g[k]] == flags[g[k]];
      }
    }
  }

  lemma CoversStep(flags: seq<bool>, g: seq<int>)
    requires |flags| > 0 && CoversFlagged(flags[..|flags| - 1], g)
    ensures CoversFlagged(flags, g + if flags[|flags| - 1] then [|flags| - 1] else [])
  {
    var n := |flags| - 1;
    var f := g + if flags[n] then [n] else [];
    forall i | 0 <= i < |flags| && flags[i] ensures i in f {
      if i < n {
        assert flags[..n][i];
        var k :| 0 <= k < |g| && g[k] == i;
        assert f[k] == i;
      } else {
        assert f[|f| - 1] == n;
      }
    }
  }

  lemma IncreasingStep(g: seq<int>, n: int, tail: seq<int>)
    requires Increasing(g) && (forall k :: 0 <= k < |g| ==> g[k] < n)
    requires tail == [] || tail == [n]
    ensures Increasing(g + tail)
  {
  }

  /** `Selected` lists the flagged messages in index order, each once:
      the k-th selected message is message `f[k]`, its flag is set, the
      indices increase, and every flagged index is among them. */
  lemma {:induction false} SelectedInOrder(messages: seq<string>, flags: seq<bool>) returns (f: seq<int>)
    requires |messages| == |flags|
    ensures PicksFlagged(messages, flags, f) && Increasing(f) && CoversFlagged(flags, f)
    decreases |messages|
  {
    f := [];
    if messages != [] {
      var n := |messages| - 1;
      var g := SelectedInOrder(messages[..n], flags[..n]);
      PicksStep(messages, flags, g);
      CoversStep(flags, g);
      IncreasingStep(g, n, if flags[n] then [n] else []);
      f := g + if flags[n] then [n] else [];
    }
  }

  /** `_analyze_risk_factors`: one `append` per crossed threshold. */
  method AnalyzeRiskFactors(features: seq<real>) returns (factors: seq<string>)
    requires |features| >= 5
    ensures factors == Selected(FactorMessages, Crossed(features))
  {
    var flags := Crossed(features);
    factors := [];
    if features[0] < 6.5 || features[0] > 8.5 {
      factors := factors + [FactorMessages[0]];
    }
    assert factors == Selected(FactorMessages[..1], flags[..1]);
    if features[1] > 10.0 {
      factors := factors + [FactorMessages[1]];
    }
    assert FactorMessages[..2][..1] == FactorMessages[..1] && flags[..2][..1] == flags[..1];
    assert factors == Selected(FactorMessages[..2], flags[..2]);
    if features[2] > 70.0 {
      factors := factors + [FactorMessages[2]];
    }
    assert FactorMessages[..3][..2] == FactorMessages[..2] && flags[..3][..2] == flags[..2];
    assert factors == Selected(FactorMessages[..3], flags[..3]);
    if features[3] > 10.0 {
      factors := factors + [FactorMessages[3]];
    }
    assert FactorMessages[..4][..3] == FactorMessages[..3] && flags[..4][..3] == flags[..3];
    assert factors == Selected(FactorMessages[..4], flags[..4]);
    if features[4] > 2.0 {
      factors := factors + [FactorMessages[4]];
    }
    assert FactorMessages[..5][..4] == FactorMessages[..4] && flags[..5][..4] == flags[..4];
    assert FactorMessages[..5] == FactorMessages && flags[..5] == flags;
  }

  /** A message is selected exactly when its flag is set (the messages being distinct). */
  lemma {:induction false} SelectedExactly(messages: seq<string>, flags: seq<bool>, i: int)
    requires |messages| == |flags| && 0 <= i < |messages|
    requires forall j, k :: 0 <= j < k < |messages| ==> messages[j] != messages[k]
    ensures messages[i] in Selected(messages, flags) <==> flags[i]
    decreases |messages|
  {
    var n := |messages| - 1;
    if i < n {
      SelectedExactly(messages[..n], flags[..n], i);
      assert messages[n] != messages[i];
    } else {
      assert messages[i] !in messages[..n];
      assert messages[i] !in Selected(messages[..n], flags[..n]);
    }
  }

  /** The factor for rule `i` is reported exactly when rule `i`'s threshold is crossed. */
  lemma FactorReportedIffCrossed(features: seq<real>, i: int)
    requires |features| >= 5 && 0 <= i < 5
    ensures FactorMessages[i] in Selected(FactorMessages, Crossed(features)) <==> Crossed(features)[i]
  {
    SelectedExactly(FactorMessages, Crossed(features), i);
  }

  /** Temperature and humidity never contribute a factor: two vectors that
      agree on the first five features report the same factors. */
  lemma WeatherNeverAFactor(f: seq<real>, g: seq<real>)
    requires |f| == |g| == FeatureCount
    requires f[..5] == g[..5]
    ensures Selected(FactorMessages, Crossed(f)) == Selected(FactorMessages, Crossed(g))
  {
    assert f[0] == g[0] && f[1] == g[1] && f[2] == g[2] && f[3] == g[3] && f[4] == g[4] by {
      assert forall i :: 0 <= i < 5 ==> f[..5][i] == f[i] && g[..5][i] == g[i];
    }
  }

  // ---------------------------------------------------------------------
  // The category of `predict_outbreak_risk`
  // ---------------------------------------------------------------------

  /** `'high' if risk_prob > 0.7 else 'medium' if risk_prob > 0.4 else 'low'`. */
  function RiskCategory(riskMil: nat): (c: string)
    ensures c == "high" <==> riskMil > 700
    ensures c == "medium" <==> 400 < riskMil <= 700
    ensures c == "low" <==> riskMil <= 400
  {
    if riskMil > 700 then "high" else if riskMil > 400 then "medium" else "low"
  }

  // ---------------------------------------------------------------------
  // The training label rule of `train_model`
  // ---------------------------------------------------------------------

  /** The rule weights in tenths: 0.3, 0.2, 0.3, 0.2, 0.3 and 0.1 for hot and humid. */
  function RiskScoreTenths(row: seq<real>): (score: nat)
    requires |row| == FeatureCount
    ensures score <= 14
  {
    (if row[0] < 6.5 || row[0] > 8.5 then 3 else 0)
    + (if row[1] > 10.0 then 2 else 0)
    + (if row[2] > 70.0 then 3 else 0)
    + (if row[3] > 10.0 then 2 else 0)
    + (if row[4] > 2.0 then 3 else 0)
    + (if row[5] > 30.0 && row[6] > 70.0 then 1 else 0)
  }

  /** `y[i] = 1 if risk_score > 0.5 else 0`. */
  function Label(row: seq<real>): (y: int)
    requires |row| == FeatureCount
    ensures y == 0 || y == 1
  {
    if RiskScoreTenths(row) > 5 then 1 else 0
  }

  /** The labelling loop: for each row, accumulate the weights of the
      rules it triggers, then compare with 0.5. */
  method TrainingLabels(X: seq<seq<real>>) returns (y: seq<int>)
    requires forall i :: 0 <= i < |X| ==> |X[i]| == FeatureCount
    ensures |y| == |X|
    ensures forall i :: 0 <= i < |X| ==> y[i] == Label(X[i])
  {
    y := [];
    var i := 0;
    while i < |X|
      invariant 0 <= i <= |X| && |y| == i
      invariant forall k :: 0 <= k < i ==> y[k] == Label(X[k])
    {
      var row := X[i];
      var riskScore := 0;
      if row[0] < 6.5 || row[0] > 8.5 { riskScore := riskScore + 3; }
      if row[1] > 10.0 { riskScore := riskScore + 2; }
      if row[2] > 70.0 { riskScore := riskScore + 3; }
      if row[3] > 10.0 { riskScore := riskScore + 2; }
      if row[4] > 2.0 { riskScore := riskScore + 3; }
      if row[5] > 30.0 && row[6] > 70.0 { riskScore := riskScore + 1; }
      y := y + [if riskScore > 5 then 1 else 0];
      i := i + 1;
    }
  }

  /** Which of the six label rules a row triggers. */
  function RulesTriggered(row: seq<real>): (n: nat)
    requires |row| == FeatureCount
    ensures n <= 6
  {
    (if row[0] < 6.5 || row[0] > 8.5 then 1 else 0)
    + (if row[1] > 10.0 then 1 else 0)
    + (if row[2] > 70.0 then 1 else 0)
    + (if row[3] > 10.0 then 1 else 0)
    + (if row[4] > 2.0 then 1 else 0)
    + (if row[5] > 30.0 && row[6] > 70.0 then 1 else 0)
  }

  /** No single rule labels a row positive: a positive row triggers at
      least two rules, and a score of exactly 0.5 (say turbidity and
      contamination alone) is still negative. */
  lemma PositiveNeedsTwoRules(row: seq<real>)
    requires |row| == FeatureCount
    ensures Label(row) == 1 ==> RulesTriggered(row) >= 2
    ensures RiskScoreTenths(row) == 5 ==> Label(row) == 0
  {
  }

  /** Unsafe pH with high contamination is always positive, whatever the rest. */
  lemma UnsafeWaterIsPositive(row: seq<real>)
    requires |row| == FeatureCount
    requires (row[0] < 6.5 || row[0] > 8.5) && row[2] > 70.0
    ensures Label(row) == 1
  {
  }

  /** A positive training row always has a reported factor: the weather
      rule alone weighs too little, so one of the five factor rules fired. */
  lemma PositiveRowHasFactor(row: seq<real>)
    requires |row| == FeatureCount
    requires Label(row) == 1
    ensures |Selected(FactorMessages, Crossed(row))| > 0
  {
    var flags := Crossed(row);
    assert flags[0] || flags[1] || flags[2] || flags[3];
    var i :| 0 <= i < 4 && flags[i];
    FactorReportedIffCrossed(row, i);
  }
}
