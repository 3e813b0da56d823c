/** DummyMLModel of models/dummy_model.py: hourly risk predictions and the
    ranking of missions by predicted risk. The wall clock and the random
    jitter are parameters: `currentHour` stands for `datetime.now().hour`,
    `jitter` for the successive draws of `np.random.uniform(-0.5, 0.5)`. */
module MlModel {
  import opened Wrappers
  import opened Profiles
  import opened Seqs
  import opened RiskRules
  import opened ScoreSort
  import Text

  /** One element of `predictions`; the timestamp is kept as its offset in
      hours from the current time. */
  datatype Prediction = Prediction(hourOffset: nat, riskScore: real, hourOfDay: nat, riskLevel: Level)

  /** One element of the list recommend_safe_missions returns. */
  datatype MissionAdvice = MissionAdvice(mission: string, riskScore: real, recommendation: string)

  const NotLoadedMessage: string := "모델이 로드되지 않았습니다"

  /** The candidates used when none are given: every mission but weapons systems. */
  const DefaultMissions: seq<string> := ["복합적층장갑", "엔진정비", "전기계통", "유압시스템"]

  const FeatureNames: seq<string> := [
    "gender_encoded", "age", "service_years",
    "weather_temp", "weather_humidity", "weather_condition",
    "month", "weekday", "hour"
  ]

  /** `p` is the entry predict_risk_score builds for offset `i`: the hour of
      day, the rounded score and the level of the unrounded score. */
  predicate IsPrediction(p: Prediction, profile: Profile, mission: string, currentHour: nat, i: nat, jitter: real) {
    var h := (currentHour + i) % 24;
    var x := HourlyRisk(profile.age, profile.serviceYears, mission, h, jitter);
    p == Prediction(i, Round1(x), h, RiskLevel(x))
  }

  /** The rounded score predict_risk_score(..., 1) reports for a mission. */
  function MissionScore(profile: Profile, mission: string, currentHour: nat, jitter: real): (s: real)
    requires currentHour < 24
    ensures 0.0 <= s <= 10.0
  {
    Round1(HourlyRisk(profile.age, profile.serviceYears, mission, currentHour, jitter))
  }

  /** The candidate list: the given one, or the default. */
  function Candidates(available: Option<seq<string>>): (c: seq<string>)
    ensures available.Some? ==> c == available.value
    ensures available.None? ==> NoDup(c)
    ensures available.None? ==> forall m :: m in c <==> m in MissionRisks && m != "무기체계"
  {
    if available.None? then DefaultMissions else available.value
  }

  /** `mission_scores` after the first |ms| calls: each mission maps to the
      score of its latest call, call k using `clock[k]` and `jitter[k]`. */
  function LastScores(profile: Profile, ms: seq<string>, clock: seq<nat>, jitter: seq<real>): (m: map<string, real>)
    requires |ms| <= |clock| && |ms| <= |jitter|
    requires forall k :: 0 <= k < |clock| ==> clock[k] < 24
    ensures forall i :: 0 <= i < |ms| ==> ms[i] in m
    ensures forall x :: x in m ==> x in ms
    ensures forall x :: x in m ==> 0.0 <= m[x] <= 10.0
  {
    if ms == [] then map[]
    else
      var k := |ms| - 1;
      LastScores(profile, ms[..k], clock, jitter)[ms[k] := MissionScore(profile, ms[k], clock[k], jitter[k])]
  }

  /** A later call for the same mission overwrites the earlier score: each
      mission keeps the score of its last occurrence. */
  lemma {:induction false} LastScoresLastWriteWins(profile: Profile, ms: seq<string>, clock: seq<nat>, jitter: seq<real>, k: nat)
    requires |ms| <= |clock| && |ms| <= |jitter|
    requires forall j :: 0 <= j < |clock| ==> clock[j] < 24
    requires k < |ms|
    requires forall j :: k < j < |ms| ==> ms[j] != ms[k]
    ensures LastScores(profile, ms, clock, jitter)[ms[k]] == MissionScore(profile, ms[k], clock[k], jitter[k])
  {
    if k < |ms| - 1 {
      var p := ms[..|ms| - 1];
      LastScoresLastWriteWins(profile, p, clock, jitter, k);
    }
  }

  /** The recommendation text f'위험지수 {score} - {level}' for a score that
      is a whole number of tenths: it opens with '위험지수 ' and ends with
      the label of its own score's level. */
  function RecommendationText(score: real): (t: string)
    requires 0.0 <= score
    ensures |t| >= 5 + |LevelLabel(RiskLevel(score))|
    ensures t[..5] == "위험지수 "
    ensures t[|t| - |LevelLabel(RiskLevel(score))|..] == LevelLabel(RiskLevel(score))
  {
    "위험지수 " + Text.TenthsToString((score * 10.0).Floor as nat) + " - " + LevelLabel(RiskLevel(score))
  }

  /** The number in the text of a rounded score is that score's tenths. */
  lemma RecommendationShowsScore(x: real)
    ensures (Round1(x) * 10.0).Floor == RoundTenths(x)
  {
  }

  function Advise(e: Entry): MissionAdvice
    requires 0.0 <= e.score
  {
    MissionAdvice(e.mission, e.score, RecommendationText(e.score))
  }

  /** The dict items in insertion order. */
  function Items(order: seq<string>, scores: map<string, real>): (es: seq<Entry>)
    requires forall i :: 0 <= i < |order| ==> order[i] in scores
    ensures |es| == |order|
    ensures forall i :: 0 <= i < |es| ==> es[i] == Entry(order[i], scores[order[i]])
  {
    seq(|order|, i requires 0 <= i < |order| => Entry(order[i], scores[order[i]]))
  }

  predicate ScoresNonNegative(es: seq<Entry>) {
    forall i :: 0 <= i < |es| ==> 0.0 <= es[i].score
  }

  /** The returned list, one advice per sorted item. */
  function AdviseAll(es: seq<Entry>): (r: seq<MissionAdvice>)
    requires ScoresNonNegative(es)
    ensures |r| == |es|
    ensures forall i :: 0 <= i < |r| ==> r[i] == Advise(es[i])
  {
    seq(|es|, i requires 0 <= i < |es| => Advise(es[i]))
  }

  /** The list recommend_safe_missions returns for the candidates `ms`:
      one advice per distinct mission, by ascending score, each with the
      score of its last call and a text naming that score's level. */
  function RankedAdvice(profile: Profile, ms: seq<string>, clock: seq<nat>, jitter: seq<real>): (r: seq<MissionAdvice>)
    requires |ms| <= |clock| && |ms| <= |jitter|
    requires forall k :: 0 <= k < |clock| ==> clock[k] < 24
    ensures |r| == |Distinct(ms)|
    ensures forall i, j :: 0 <= i < j < |r| ==> r[i].mission != r[j].mission
    ensures forall i, j :: 0 <= i < j < |r| ==> r[i].riskScore <= r[j].riskScore
    ensures forall i :: 0 <= i < |r| ==>
      && r[i].mission in ms
      && r[i].riskScore == LastScores(profile, ms, clock, jitter)[r[i].mission]
      && r[i].recommendation == RecommendationText(r[i].riskScore)
  {
    var scores := LastScores(profile, ms, clock, jitter);
    var items := Items(Distinct(ms), scores);
    var sorted := SortByScore(items);
    SortedKeepsBounds(items, sorted, ms, scores);
    SortedMissionsDistinct(items, sorted, scores);
    AdviseAll(sorted)
  }

  /** The missions of the advice scored `v`, in list order. */
  function AdvisedAt(r: seq<MissionAdvice>, v: real): seq<string> {
    if r == [] then []
    else (if r[0].riskScore == v then [r[0].mission] else []) + AdvisedAt(r[1..], v)
  }

  /** The dict keys scored `v`, in insertion order. */
  function KeysScoring(order: seq<string>, scores: map<string, real>, v: real): seq<string>
    requires forall i :: 0 <= i < |order| ==> order[i] in scores
  {
    if order == [] then []
    else (if scores[order[0]] == v then [order[0]] else []) + KeysScoring(order[1..], scores, v)
  }

  function Missions(es: seq<Entry>): seq<string> {
    if es == [] then [] else [es[0].mission] + Missions(es[1..])
  }

  /** Ties keep insertion order: the missions that recommend_safe_missions
      lists with score `v` are, in order, the dict keys scored `v` in the
      dict's key order, which is first-occurrence order in the candidates. */
  lemma RankedAdviceTieOrder(profile: Profile, ms: seq<string>, clock: seq<nat>, jitter: seq<real>, v: real)
    requires |ms| <= |clock| && |ms| <= |jitter|
    requires forall k :: 0 <= k < |clock| ==> clock[k] < 24
    ensures AdvisedAt(RankedAdvice(profile, ms, clock, jitter), v)
         == KeysScoring(Distinct(ms), LastScores(profile, ms, clock, jitter), v)
  {
    var scores := LastScores(profile, ms, clock, jitter);
    var items := Items(Distinct(ms), scores);
    var sorted := SortByScore(items);
    SortedKeepsBounds(items, sorted, ms, scores);
    AdviseAllTies(sorted, v);
    SortByScoreStable(items, v);
    ItemsTies(Distinct(ms), scores, v);
  }

  /** Turning entries into advice keeps each entry's mission and score. */
  lemma {:induction false} AdviseAllTies(es: seq<Entry>, v: real)
    requires ScoresNonNegative(es)
    ensures AdvisedAt(AdviseAll(es), v) == Missions(WithScore(es, v))
  {
    if es != [] {
      assert AdviseAll(es)[1..] == AdviseAll(es[1..]);
      AdviseAllTies(es[1..], v);
      if es[0].score == v {
        assert ([es[0]] + WithScore(es[1..], v))[1..] == WithScore(es[1..], v);
      } else {
        assert WithScore(es, v) == WithScore(es[1..], v);
      }
    }
  }

  /** The dict items scored `v` are the keys scored `v`, in key order. */
  lemma {:induction false} ItemsTies(order: seq<string>, scores: map<string, real>, v: real)
    requires forall i :: 0 <= i < |order| ==> order[i] in scores
    ensures Missions(WithScore(Items(order, scores), v)) == KeysScoring(order, scores, v)
  {
    var es := Items(order, scores);
    if order != [] {
      assert es[1..] == Items(order[1..], scores);
      ItemsTies(order[1..], scores, v);
      if scores[order[0]] == v {
        assert ([es[0]] + WithScore(es[1..], v))[1..] == WithScore(es[1..], v);
      } else {
        assert WithScore(es, v) == WithScore(es[1..], v);
      }
    }
  }

  class DummyMLModel {
    var modelLoaded: bool
    const featureNames: seq<string>

    /** `__init__`: starts unloaded, then loads. */
    constructor ()
      ensures modelLoaded
      ensures featureNames == FeatureNames
    {
      modelLoaded := false;
      featureNames := FeatureNames;
      new;
      LoadModel();
    }

    /** load_model: the simulated load always succeeds. */
    method LoadModel()
      modifies this
      ensures modelLoaded
    {
      modelLoaded := true;
    }

    /** predict_risk_score: one prediction per hour of the horizon, or the
        RuntimeError when the model is not loaded. */
    method PredictRiskScore(profile: Profile, missionType: string, predictionHours: int := 24, currentHour: nat, jitter: seq<real>)
      returns (r: Result<seq<Prediction>>)
      requires currentHour < 24
      requires predictionHours <= |jitter|
      ensures r.Err? <==> !modelLoaded
      ensures r.Err? ==> r.error == RuntimeError(NotLoadedMessage)
      ensures r.Ok? ==> |r.value| == Max(0, predictionHours)
      ensures r.Ok? ==> forall i :: 0 <= i < |r.value| ==>
        IsPrediction(r.value[i], profile, missionType, currentHour, i, jitter[i])
      ensures r.Ok? ==> forall i :: 0 <= i < |r.value| ==>
        r.value[i].hourOfDay < 24 && 0.0 <= r.value[i].riskScore <= 10.0
    {
      if !modelLoaded {
        return Err(RuntimeError(NotLoadedMessage));
      }
      var baseRisk := 5.0;
      var ageFactor := (Abs(profile.age - 30) as real) * 0.05;
      baseRisk := baseRisk + (if ageFactor <= 2.0 then ageFactor else 2.0);
      var shortfall := if 3 - profile.serviceYears >= 0 then 3 - profile.serviceYears else 0;
      var experienceFactor := (shortfall as real) * 0.3;
      baseRisk := baseRisk + experienceFactor;
      var missionRisk := MissionRisk(missionType);

      var predictions: seq<Prediction> := [];
      var hour := 0;
      while hour < predictionHours
        invariant 0 <= hour <= Max(0, predictionHours)
        invariant |predictions| == hour
        invariant forall i :: 0 <= i < hour ==>
          IsPrediction(predictions[i], profile, missionType, currentHour, i, jitter[i])
      {
        var hourOfDay := (currentHour + hour) % 24;
        var timeFactor: real;
        if 22 <= hourOfDay || hourOfDay <= 6 {
          timeFactor := 1.2;
        } else if 8 <= hourOfDay <= 17 {
          timeFactor := 0.9;
        } else {
          timeFactor := 1.0;
        }
        var finalRisk := (baseRisk + missionRisk) / 2.0 * timeFactor;
        finalRisk := finalRisk + jitter[hour];
        finalRisk := Clip(finalRisk);
        predictions := predictions + [Prediction(hour, Round1(finalRisk), hourOfDay, RiskLevel(finalRisk))];
        hour := hour + 1;
      }
      return Ok(predictions);
    }

    /** The loop of recommend_safe_missions that fills `mission_scores`:
        call k predicts one hour for `ms[k]` at `clock[k]` with `jitter[k]`.
        The dict is its key order and its key-to-score map. */
    method ScoreMissions(profile: Profile, ms: seq<string>, clock: seq<nat>, jitter: seq<real>)
      returns (r: Result<(seq<string>, map<string, real>)>)
      requires |ms| <= |clock| && |ms| <= |jitter|
      requires forall k :: 0 <= k < |clock| ==> clock[k] < 24
      ensures ms == [] ==> r == Ok(([], map[]))
      ensures ms != [] ==> (r.Err? <==> !modelLoaded)
      ensures r.Err? ==> r.error == RuntimeError(NotLoadedMessage)
      ensures r.Ok? ==> r.value.0 == Distinct(ms) && r.value.1 == LastScores(profile, ms, clock, jitter)
    {
      var order: seq<string> := [];
      var missionScores: map<string, real> := map[];
      var i := 0;
      while i < |ms|
        invariant 0 <= i <= |ms|
        invariant order == Distinct(ms[..i])
        invariant missionScores == LastScores(profile, ms[..i], clock, jitter)
        invariant i > 0 ==> modelLoaded
      {
        var predictions := PredictRiskScore(profile, ms[i], 1, clock[i], [jitter[i]]);
        if predictions.Err? {
          return Err(predictions.error);
        }
        var score := predictions.value[0].riskScore;
        FirstPredictionScore(predictions.value[0], profile, ms[i], clock[i], [jitter[i]][0]);
        ghost var seen := ms[..i + 1];
        assert seen[..i] == ms[..i] && seen[i] == ms[i];
        missionScores := missionScores[ms[i] := score];
        if ms[i] !in order {
          order := order + [ms[i]];
        }
        i := i + 1;
      }
      assert ms[..i] == ms;
      return Ok((order, missionScores));
    }

    /** recommend_safe_missions: scores each candidate once, keeps one
        score per mission as a dict does, and returns the missions by
        ascending score. */
    method RecommendSafeMissions(profile: Profile, availableMissions: Option<seq<string>> := None, clock: seq<nat>, jitter: seq<real>)
      returns (r: Result<seq<MissionAdvice>>)
      requires |Candidates(availableMissions)| <= |clock|
      requires |Candidates(availableMissions)| <= |jitter|
      requires forall k :: 0 <= k < |clock| ==> clock[k] < 24
      ensures Candidates(availableMissions) == [] ==> r == Ok([])
      ensures Candidates(availableMissions) != [] ==> (r.Err? <==> !modelLoaded)
      ensures r.Err? ==> r.error == RuntimeError(NotLoadedMessage)
      ensures r.Ok? ==> r.value == RankedAdvice(profile, Candidates(availableMissions), clock, jitter)
    {
      var ms := Candidates(availableMissions);
      var missionScores := ScoreMissions(profile, ms, clock, jitter);
      if missionScores.Err? {
        return Err(missionScores.error);
      }
      var (order, scores) := missionScores.value;
      var items := Items(order, scores);
      var recommended := SortByScore(items);
      SortedKeepsBounds(items, recommended, ms, scores);
      return Ok(AdviseAll(recommended));
    }
  }

  /** The first hourly entry carries the mission's one-hour score. */
  lemma FirstPredictionScore(p: Prediction, profile: Profile, mission: string, currentHour: nat, jitter: real)
    requires currentHour < 24
    requires IsPrediction(p, profile, mission, currentHour, 0, jitter)
    ensures p.riskScore == MissionScore(profile, mission, currentHour, jitter)
  {
  }

  /** Sorting items with distinct missions gives items with distinct missions. */
  lemma SortedMissionsDistinct(items: seq<Entry>, sorted: seq<Entry>, scores: map<string, real>)
    requires multiset(sorted) == multiset(items)
    requires forall i, j :: 0 <= i < j < |items| ==> items[i].mission != items[j].mission
    requires forall i :: 0 <= i < |sorted| ==> sorted[i].mission in scores && sorted[i].score == scores[sorted[i].mission]
    ensures forall i, j :: 0 <= i < j < |sorted| ==> sorted[i].mission != sorted[j].mission
  {
    assert NoDup(items);
    NoDupPermutation(items, sorted);
  }

  /** Sorting moves items but keeps each one's mission and score. */
  lemma SortedKeepsBounds(items: seq<Entry>, sorted: seq<Entry>, ms: seq<string>, scores: map<string, real>)
    requires multiset(sorted) == multiset(items)
    requires forall i :: 0 <= i < |items| ==>
      && items[i].mission in ms && items[i].mission in scores
      && items[i].score == scores[items[i].mission] && 0.0 <= items[i].score
    ensures ScoresNonNegative(items) && ScoresNonNegative(sorted)
    ensures forall i :: 0 <= i < |sorted| ==>
      && sorted[i].mission in ms && sorted[i].mission in scores
      && sorted[i].score == scores[sorted[i].mission]
  {
    forall i | 0 <= i < |sorted|
      ensures sorted[i].mission in ms && sorted[i].mission in scores
      ensures sorted[i].score == scores[sorted[i].mission] && 0.0 <= sorted[i].score
    {
      assert sorted[i] in multiset(items);
      var k :| 0 <= k < |items| && items[k] == sorted[i];
    }
  }
}
