/** The arithmetic rules of the rule-based risk estimator (DummyMLModel in
    models/dummy_model.py): base risk from age and tenure, the per-mission
    risk table, the hour-of-day factor, jitter, clipping, rounding and the
    three risk levels. Scores are exact reals; binary floating point is not
    modelled. */
module RiskRules {

  /** The three grades '높음' (high), '보통' (medium), '낮음' (low). */
  datatype Level = Low | Medium | High

  /** The label the source returns for a level. */
  function LevelLabel(l: Level): string {
    match l
    case High => "높음"
    case Medium => "보통"
    case Low => "낮음"
  }

  /** Position of a level in the order low < medium < high. */
  function Rank(l: Level): nat {
    match l
    case Low => 0
    case Medium => 1
    case High => 2
  }

  const HighThreshold: real := 8.0
  const MediumThreshold: real := 6.0

  /** get_risk_level: at least 8.0 is high, at least 6.0 medium, else low. */
  function RiskLevel(score: real): (l: Level)
    ensures l == High <==> score >= HighThreshold
    ensures l == Medium <==> MediumThreshold <= score < HighThreshold
    ensures l == Low <==> score < MediumThreshold
  {
    if score >= HighThreshold then High
    else if score >= MediumThreshold then Medium
    else Low
  }

  /** A higher score never gets a lower level. */
  lemma RiskLevelMonotone(a: real, b: real)
    requires a <= b
    ensures Rank(RiskLevel(a)) <= Rank(RiskLevel(b))
  {
  }

  /** The per-mission risk table. */
  const MissionRisks: map<string, real> := map[
    "복합적층장갑" := 7.2,
    "엔진정비" := 6.8,
    "전기계통" := 7.5,
    "유압시스템" := 8.1,
    "무기체계" := 8.5
  ]

  /** Risk used for a mission the table does not list. */
  const DefaultMissionRisk: real := 7.0

  /** `mission_risks.get(mission_type, 7.0)`. */
  function MissionRisk(mission: string): (r: real)
    ensures mission in MissionRisks ==> r == MissionRisks[mission]
    ensures mission !in MissionRisks ==> r == DefaultMissionRisk
    ensures 6.8 <= r <= 8.5
  {
    if mission in MissionRisks then MissionRisks[mission] else DefaultMissionRisk
  }

  function Abs(x: int): nat { if x < 0 then -x else x }

  /** The age term: 0.05 per year away from 30, capped at 2.0. */
  function AgeFactor(age: int): (r: real)
    ensures 0.0 <= r <= 2.0
    ensures Abs(age - 30) <= 40 ==> r == (Abs(age - 30) as real) * 0.05
    ensures Abs(age - 30) >= 40 ==> r == 2.0
  {
    var f := (Abs(age - 30) as real) * 0.05;
    if f <= 2.0 then f else 2.0
  }

  /** The tenure term: 0.3 per year short of three years' service, never negative. */
  function ExperienceFactor(serviceYears: int): (r: real)
    ensures r >= 0.0
    ensures serviceYears >= 3 ==> r == 0.0
    ensures serviceYears < 3 ==> r == ((3 - serviceYears) as real) * 0.3
  {
    var shortfall := if 3 - serviceYears >= 0 then 3 - serviceYears else 0;
    (shortfall as real) * 0.3
  }

  /** `base_risk`: 5.0 plus the age and tenure terms. */
  function BaseRisk(age: int, serviceYears: int): (r: real)
    ensures r >= 5.0
    ensures serviceYears >= 0 ==> r <= 7.9
  {
    5.0 + AgeFactor(age) + ExperienceFactor(serviceYears)
  }

  /** For the ages a caller accepts (18 to 65) the 2.0 cap never applies. */
  lemma AgeCapUnreachableForValidAges(age: int)
    requires 18 <= age <= 65
    ensures AgeFactor(age) < 2.0
  {
  }

  /** `time_factor`: 1.2 at night (22..23 and 0..6), 0.9 in working hours
      (8..17), 1.0 at 7 and 18..21. */
  function TimeFactor(hourOfDay: int): (r: real)
    requires 0 <= hourOfDay < 24
    ensures r == 1.2 <==> hourOfDay >= 22 || hourOfDay <= 6
    ensures r == 0.9 <==> 8 <= hourOfDay <= 17
    ensures r == 1.0 <==> hourOfDay == 7 || 18 <= hourOfDay <= 21
  {
    if 22 <= hourOfDay || hourOfDay <= 6 then 1.2
    else if 8 <= hourOfDay <= 17 then 0.9
    else 1.0
  }

  /** `(base_risk + mission_risk) / 2 * time_factor`, before jitter. */
  function RawRisk(age: int, serviceYears: int, mission: string, hourOfDay: int): (r: real)
    requires 0 <= hourOfDay < 24
    ensures r >= 5.31
    ensures serviceYears >= 0 ==> r <= 9.84
  {
    var tf := TimeFactor(hourOfDay);
    assert tf == 0.9 || tf == 1.0 || tf == 1.2;
    (BaseRisk(age, serviceYears) + MissionRisk(mission)) / 2.0 * tf
  }

  /** `np.clip(x, 0.0, 10.0)`. */
  function Clip(x: real): (r: real)
    ensures 0.0 <= r <= 10.0
    ensures 0.0 <= x <= 10.0 ==> r == x
    ensures x < 0.0 ==> r == 0.0
    ensures x > 10.0 ==> r == 10.0
  {
    if x < 0.0 then 0.0 else if x > 10.0 then 10.0 else x
  }

  /** The unrounded score of one hour: raw risk plus jitter, clipped to [0, 10]. */
  function HourlyRisk(age: int, serviceYears: int, mission: string, hourOfDay: int, jitter: real): (r: real)
    requires 0 <= hourOfDay < 24
    ensures 0.0 <= r <= 10.0
  {
    Clip(RawRisk(age, serviceYears, mission, hourOfDay) + jitter)
  }

  /** The hourly score in closed form for the ages a caller accepts: the
      age cap drops out and the halving merges with the hour factor, so the
      sum `core` of 5.0, the age and tenure terms and the mission's risk is
      weighted 0.6 at night, 0.45 in working hours and 0.5 otherwise. */
  lemma HourlyRiskFormula(age: int, serviceYears: int, mission: string, hourOfDay: int, jitter: real)
    requires 18 <= age <= 65
    requires 0 <= hourOfDay < 24
    ensures var core := 5.0 + (Abs(age - 30) as real) * 0.05
                        + ((if serviceYears < 3 then 3 - serviceYears else 0) as real) * 0.3
                        + MissionRisk(mission);
      var x := HourlyRisk(age, serviceYears, mission, hourOfDay, jitter);
      && (22 <= hourOfDay || hourOfDay <= 6 ==> x == Clip(core * 0.6 + jitter))
      && (8 <= hourOfDay <= 17 ==> x == Clip(core * 0.45 + jitter))
      && (hourOfDay == 7 || 18 <= hourOfDay <= 21 ==> x == Clip(core * 0.5 + jitter))
  {
    AgeCapUnreachableForValidAges(age);
  }

  /** The clamp at 0 never acts: with jitter in [-0.5, 0.5] the unclipped
      score is at least (5.0 + 6.8) / 2 * 0.9 - 0.5 = 4.81. */
  lemma LowerClipNeverApplies(age: int, serviceYears: int, mission: string, hourOfDay: int, jitter: real)
    requires 0 <= hourOfDay < 24
    requires -0.5 <= jitter <= 0.5
    ensures RawRisk(age, serviceYears, mission, hourOfDay) + jitter >= 4.81
    ensures HourlyRisk(age, serviceYears, mission, hourOfDay, jitter) >= 4.81
  {
  }

  /** The clamp at 10 does act for a valid profile: age 65, no service,
      weapons systems, at night, with jitter 0.4 (inside the half-open
      range [-0.5, 0.5) the jitter is drawn from). */
  lemma UpperClipReachable()
    ensures RawRisk(65, 0, "무기체계", 23) + 0.4 > 10.0
    ensures HourlyRisk(65, 0, "무기체계", 23, 0.4) == 10.0
  {
  }

  /** `round(x, 1)` as the number of tenths, ties rounded up. */
  function RoundTenths(x: real): (t: int)
    ensures x * 10.0 - 0.5 < t as real <= x * 10.0 + 0.5
  {
    (x * 10.0 + 0.5).Floor
  }

  /** `round(x, 1)`: the nearest multiple of 0.1. */
  function Round1(x: real): (r: real)
    ensures x - 0.05 < r <= x + 0.05
    ensures 0.0 <= x <= 10.0 ==> 0.0 <= r <= 10.0
  {
    RoundTenths(x) as real / 10.0
  }

  /** Rounding is idempotent. */
  lemma Round1Idempotent(x: real)
    ensures Round1(Round1(x)) == Round1(x)
  {
    var t := RoundTenths(x);
    assert Round1(x) * 10.0 + 0.5 == t as real + 0.5;
    assert RoundTenths(Round1(x)) == t;
  }

  /** Rounding and grading commute except just below a threshold: the
      levels differ exactly when the score lies in [5.95, 6.0) or
      [7.95, 8.0), where rounding lifts it onto the threshold. */
  lemma LevelOfRoundedDiffersBelowThresholds(x: real)
    ensures RiskLevel(Round1(x)) != RiskLevel(x) <==> 5.95 <= x < 6.0 || 7.95 <= x < 8.0
  {
  }

  /** They can disagree near a threshold: 7.96 is medium, its rounding 8.0 is high. */
  lemma LevelOfRoundedMayDiffer()
    ensures Round1(7.96) == 8.0
    ensures RiskLevel(7.96) == Medium && RiskLevel(Round1(7.96)) == High
  {
  }

  /** Daytime example: age 30, five years' service, laminated armour at
      10 o'clock, no jitter: (5.0 + 7.2) / 2 * 0.9 = 5.49, shown as 5.5, low. */
  lemma DaytimeExample()
    ensures HourlyRisk(30, 5, "복합적층장갑", 10, 0.0) == 5.49
    ensures Round1(HourlyRisk(30, 5, "복합적층장갑", 10, 0.0)) == 5.5
    ensures RiskLevel(HourlyRisk(30, 5, "복합적층장갑", 10, 0.0)) == Low
  {
  }

  /** Night example: weapons systems at 23 o'clock: (5.0 + 8.5) / 2 * 1.2 = 8.1, high. */
  lemma NightExample()
    ensures HourlyRisk(30, 5, "무기체계", 23, 0.0) == 8.1
    ensures Round1(HourlyRisk(30, 5, "무기체계", 23, 0.0)) == 8.1
    ensures RiskLevel(HourlyRisk(30, 5, "무기체계", 23, 0.0)) == High
  {
  }

  /** An unlisted mission is scored with the default 7.0: at 7 o'clock with
      no jitter the score is the midpoint of base risk and 7.0. */
  lemma UnknownMissionMidpoint(age: int, serviceYears: int, mission: string)
    requires mission !in MissionRisks
    ensures HourlyRisk(age, serviceYears, mission, 7, 0.0) == Clip((BaseRisk(age, serviceYears) + 7.0) / 2.0)
  {
  }
}
