/** The per-phase cost and duration predictions. The sentence embedder, the
    one-hot encoders, the scaler and the regressors are trained artifacts
    loaded from disk; here they are the fields of an Artifacts value,
    functions about which nothing is assumed. */
module Predict {
  import opened Scrub

  datatype Bucket = Low | Mid | High

  datatype Artifacts = Artifacts(
    /** bert_model.encode([description])[0] */
    embed: string -> seq<real>,
    /** ohe.transform of (phase, project_status, timeline_status, end_date_missing) */
    ohe: (string, string, string, bool) -> seq<real>,
    /** scaler.transform of duration_days */
    scaler: real -> seq<real>,
    /** ohe_duration.transform of (phase, project_status, timeline_status) */
    oheDuration: (string, string, string) -> seq<real>,
    /** duration_model.predict */
    durationModel: seq<real> -> real,
    /** model_dict[bucket].predict */
    costModel: Bucket -> seq<real> -> real)

  /** A phase of a mapping: the code the models know and the name shown. */
  datatype PhaseEntry = PhaseEntry(code: string, display: string)

  /** One row of the predictions table. */
  datatype Prediction = Prediction(phase: string, weeks: real, cost: real)

  /** phase_mapping of the guided flow, in insertion order. */
  const AppPhaseMapping: seq<PhaseEntry> := [
    PhaseEntry("I. Scope", "I. Site Preperation"),
    PhaseEntry("II. Design", "II. Foundation"),
    PhaseEntry("III. Commissioning", "III. Commissioning"),
    PhaseEntry("IV. Purch & Install", "IV. Purch & Install"),
    PhaseEntry("V. Construction", "V. Construction")
  ]

  /** phase_mapping of the predictions page, in insertion order. */
  const PagePhaseMapping: seq<PhaseEntry> := [
    PhaseEntry("Scope", "I. Scope"),
    PhaseEntry("Design", "II. Design"),
    PhaseEntry("CM", "III. CM - Construction Management"),
    PhaseEntry("CM,Art,F&E", "IV. Furniture Equipment & Art"),
    PhaseEntry("CM,F&E", "V. Commissioning"),
    PhaseEntry("F&E", "VI. Inspection & Testing"),
    PhaseEntry("Purch & Install", "VII. Purch & Install"),
    PhaseEntry("Construction", "VIII. Construction")
  ]

  /** prepare_single_row: the cost model's input, the horizontal stack of
      the description embedding, the categorical block and the scaled
      duration in days. */
  function CostFeatures(art: Artifacts, description: string, phase: string, weeks: real): (x: seq<real>)
    ensures |x| == |art.embed(description)| + |art.ohe(phase, "Complete", "Complete", true)| + |art.scaler(weeks * 7.0)|
  {
    art.embed(description) + art.ohe(phase, "Complete", "Complete", true) + art.scaler(weeks * 7.0)
  }

  /** prepare_features_for_duration: the embedding and the categorical block,
      with no numeric part. */
  function DurationFeatures(art: Artifacts, description: string, phase: string): (x: seq<real>)
    ensures |x| == |art.embed(description)| + |art.oheDuration(phase, "Complete", "Complete")|
  {
    art.embed(description) + art.oheDuration(phase, "Complete", "Complete")
  }

  /** The cost vector is the embedding, then the categorical block, then the
      numeric block, each in its own place and nothing else. */
  lemma CostFeaturesLayout(art: Artifacts, description: string, phase: string, weeks: real)
    ensures var x := CostFeatures(art, description, phase, weeks);
      var e, c, n := art.embed(description), art.ohe(phase, "Complete", "Complete", true), art.scaler(weeks * 7.0);
      && |x| == |e| + |c| + |n|
      && x[..|e|] == e
      && x[|e|..|e| + |c|] == c
      && x[|e| + |c|..] == n
  {
    var x := CostFeatures(art, description, phase, weeks);
    var e, c, n := art.embed(description), art.ohe(phase, "Complete", "Complete", true), art.scaler(weeks * 7.0);
    assert x == (e + c) + n;
    assert x[..|e| + |c|] == e + c;
  }

  /** The duration vector is the embedding followed by the categorical block;
      both vectors built for one description open with the same embedding. */
  lemma DurationFeaturesLayout(art: Artifacts, description: string, phase: string, weeks: real)
    ensures var x := DurationFeatures(art, description, phase);
      var e, c := art.embed(description), art.oheDuration(phase, "Complete", "Complete");
      && |x| == |e| + |c|
      && x[..|e|] == e
      && x[|e|..] == c
      && x[..|e|] == CostFeatures(art, description, phase, weeks)[..|e|]
  {
    CostFeaturesLayout(art, description, phase, weeks);
  }

  /** max(cost, 0) */
  function Floor0(x: real): (r: real)
    ensures r >= 0.0 && r >= x
    ensures x >= 0.0 ==> r == x
    ensures x < 0.0 ==> r == 0.0
  {
    if x >= 0.0 then x else 0.0
  }

  /** The guided flow's row for one phase: weeks from the model's reply,
      cost from the cost model fed with those weeks, floored at zero. */
  function AppRow(art: Artifacts, description: string, bucket: Bucket,
                  durations: map<string, DurationValue>, entry: PhaseEntry): (p: Prediction)
    ensures p.phase == entry.display
    ensures p.weeks == ParseWeeks(DurationOf(durations, entry.code)) && p.weeks >= 0.0
    ensures p.cost == Floor0(art.costModel(bucket)(CostFeatures(art, description, entry.code, p.weeks)))
    ensures p.cost >= 0.0
  {
    var weeks := ParseWeeks(DurationOf(durations, entry.code));
    var cost := art.costModel(bucket)(CostFeatures(art, description, entry.code, weeks));
    Prediction(entry.display, weeks, Floor0(cost))
  }

  /** predict_cost_duration: one row per mapping entry, in mapping order. */
  method PredictCostDuration(art: Artifacts, description: string, bucket: Bucket,
                             durations: map<string, DurationValue>) returns (preds: seq<Prediction>)
    ensures |preds| == |AppPhaseMapping|
    ensures forall i :: 0 <= i < |preds| ==> preds[i] == AppRow(art, description, bucket, durations, AppPhaseMapping[i])
  {
    preds := [];
    var i := 0;
    while i < |AppPhaseMapping|
      invariant 0 <= i <= |AppPhaseMapping|
      invariant |preds| == i
      invariant forall k :: 0 <= k < i ==> preds[k] == AppRow(art, description, bucket, durations, AppPhaseMapping[k])
    {
      var entry := AppPhaseMapping[i];
      var raw := DurationOf(durations, entry.code);
      var weeks := ParseWeeks(raw);
      var cost := art.costModel(bucket)(CostFeatures(art, description, entry.code, weeks));
      ghost var done := preds;
      preds := preds + [Prediction(entry.display, weeks, Floor0(cost))];
      assert forall k :: 0 <= k < i ==> preds[k] == done[k];
      i := i + 1;
    }
  }

  /** The predictions page's row for one phase: weeks from the duration
      model, cost from the cost model fed with those weeks, floored at zero.
      The weeks are not floored. */
  function PageRow(art: Artifacts, description: string, bucket: Bucket, entry: PhaseEntry): (p: Prediction)
    ensures p.phase == entry.display
    ensures p.weeks == art.durationModel(DurationFeatures(art, description, entry.code))
    ensures p.cost == Floor0(art.costModel(bucket)(CostFeatures(art, description, entry.code, p.weeks)))
    ensures p.cost >= 0.0
  {
    var weeks := art.durationModel(DurationFeatures(art, description, entry.code));
    var cost := art.costModel(bucket)(CostFeatures(art, description, entry.code, weeks));
    Prediction(entry.display, weeks, Floor0(cost))
  }

  /** The prediction loop of the predictions page. */
  method PredictPhases(art: Artifacts, description: string, bucket: Bucket) returns (preds: seq<Prediction>)
    ensures |preds| == |PagePhaseMapping|
    ensures forall i :: 0 <= i < |preds| ==> preds[i] == PageRow(art, description, bucket, PagePhaseMapping[i])
  {
    preds := [];
    var i := 0;
    while i < |PagePhaseMapping|
      invariant 0 <= i <= |PagePhaseMapping|
      invariant |preds| == i
      invariant forall k :: 0 <= k < i ==> preds[k] == PageRow(art, description, bucket, PagePhaseMapping[k])
    {
      var entry := PagePhaseMapping[i];
      var weeks := art.durationModel(DurationFeatures(art, description, entry.code));
      var cost := art.costModel(bucket)(CostFeatures(art, description, entry.code, weeks));
      preds := preds + [Prediction(entry.display, weeks, Floor0(cost))];
      i := i + 1;
    }
  }

  /** result_df["Predicted Cost (USD)"].sum() */
  function TotalCost(preds: seq<Prediction>): (t: real)
    ensures (forall i :: 0 <= i < |preds| ==> preds[i].cost >= 0.0) ==> t >= 0.0
  {
    if preds == [] then 0.0 else preds[0].cost + TotalCost(preds[1..])
  }

  /** result_df["Predicted Duration (weeks)"].sum() */
  function TotalWeeks(preds: seq<Prediction>): (t: real)
    ensures (forall i :: 0 <= i < |preds| ==> preds[i].weeks >= 0.0) ==> t >= 0.0
  {
    if preds == [] then 0.0 else preds[0].weeks + TotalWeeks(preds[1..])
  }

  /** Rows with non-negative costs add up to a non-negative total, and no
      row exceeds it. */
  lemma {:induction false} TotalCostBounds(preds: seq<Prediction>)
    requires forall i :: 0 <= i < |preds| ==> preds[i].cost >= 0.0
    ensures TotalCost(preds) >= 0.0
    ensures forall i :: 0 <= i < |preds| ==> preds[i].cost <= TotalCost(preds)
  {
    if preds != [] {
      TotalCostBounds(preds[1..]);
      assert forall i :: 1 <= i < |preds| ==> preds[i] == preds[1..][i - 1];
    }
  }

  /** The guided flow's predicted total cost is never negative, and neither
      is its total duration. */
  lemma {:induction false} AppTotalsNonNegative(preds: seq<Prediction>)
    requires forall i :: 0 <= i < |preds| ==> preds[i].cost >= 0.0 && preds[i].weeks >= 0.0
    ensures TotalCost(preds) >= 0.0 && TotalWeeks(preds) >= 0.0
  {
    TotalCostBounds(preds);
    if preds != [] {
      AppTotalsNonNegative(preds[1..]);
    }
  }

  // ---------------------------------------------------------------------
  // format_duration

  /** int(x): truncation toward zero. */
  function Trunc(x: real): (r: int)
    ensures x >= 0.0 ==> r as real <= x < r as real + 1.0
    ensures x < 0.0 ==> r as real - 1.0 < x <= r as real
  {
    if x >= 0.0 then x.Floor else -((-x).Floor)
  }

  /** round(x): the nearest integer, ties to the even one. */
  function RoundHalfEven(x: real): (r: int)
    ensures -0.5 <= x - r as real <= 0.5
    ensures x - r as real == 0.5 || x - r as real == -0.5 ==> r % 2 == 0
  {
    var f := x.Floor;
    var frac := x - f as real;
    if frac < 0.5 then f
    else if frac > 0.5 then f + 1
    else if f % 2 == 0 then f else f + 1
  }

  /** format_duration: whole weeks by truncation, and the fraction of a week
      rounded to days. */
  function FormatDuration(w: real): (r: (int, int))
    ensures -0.5 <= (w - r.0 as real) * 7.0 - r.1 as real <= 0.5
    ensures -7 <= r.1 <= 7
    ensures w >= 0.0 ==> r.0 == w.Floor && r.1 >= 0
    ensures w < 0.0 ==> r.0 <= 0 && r.1 <= 0
  {
    var weeks := Trunc(w);
    (weeks, RoundHalfEven((w - weeks as real) * 7.0))
  }

  /** For a non-negative duration the weeks are its whole part and the days
      lie in 0..7, within half a day of the fraction of a week. */
  lemma FormatDurationNonNegative(w: real)
    requires w >= 0.0
    ensures var (weeks, days) := FormatDuration(w);
      && weeks == w.Floor
      && 0 <= days <= 7
      && -0.5 <= (w - weeks as real) * 7.0 - days as real <= 0.5
  {
  }

  /** A negative duration keeps its sign in both parts. */
  lemma FormatDurationNegative(w: real)
    requires w < 0.0
    ensures var (weeks, days) := FormatDuration(w);
      && weeks <= 0 && -7 <= days <= 0
  {
  }

  /** Seven days can occur, and are not carried into the weeks: n weeks and
      0.95 of a week show as n weeks and 7 days. */
  lemma SevenDaysNotCarried(n: nat)
    ensures FormatDuration(n as real + 0.95) == (n, 7)
  {
    var w := n as real + 0.95;
    assert Trunc(w) == n;
    assert (w - n as real) * 7.0 == 6.65;
  }
}
