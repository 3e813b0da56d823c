# Rule-based safety risk models, in Dafny

This project models the two rule-based "prediction" stand-ins of
`models/dummy_model.py` and proves what they compute.

- `DummyMLModel` estimates an hourly risk score for a worker and a mission.
  The score starts from a base risk built from age and years of service.
  The mission's tabled risk is averaged in, an hour-of-day factor is
  applied, and random jitter is added. The result is clipped to [0, 10] and
  rounded to one decimal. The model also grades a score as 높음 / 보통 / 낮음
  and ranks candidate missions from safest to riskiest.
- `DummyDLModel` picks risk keywords and safety measures from fixed tables.
  Keywords are the mission's list, the common list and trait-based extras,
  deduplicated, shuffled and cut to a count. Measures are the five baseline
  measures, then the mission's, then the personal ones, cut to a count,
  with a summary line and a priority flag.

Ambient inputs are parameters. `currentHour` stands for
`datetime.now().hour`. `jitter` is the sequence of `np.random.uniform(-0.5, 0.5)`
draws. `draws` feeds the shuffle one number per swap, reduced modulo `i + 1`
at position `i`. Scores are exact `real`s. The source's default arguments
(`prediction_hours=24`, `available_missions=None`, `num_keywords=10`,
`num_measures=5`) are the parameters' default values.

Files:

- `wrappers.dfy` holds the `Result` and `Option` types and the `RuntimeError` failure.
- `profile.dfy` holds the user record.
- `seqs.dfy` holds duplicate-freedom, first-occurrence deduplication and Python's `s[:n]`.
- `text.dfy` holds decimal rendering of ints and of one-decimal scores.
- `risk_rules.dfy` holds the scoring arithmetic, the levels and rounding.
- `score_sort.dfy` holds the stable sort by score.
- `ml_model.dfy` holds the class `DummyMLModel`.
- `dl_model.dfy` holds the class `DummyDLModel` and its tables.

Facts about the code that the proofs bring out:

- The priority is high only when a keyword equals 폭발, 화재 or 감전. A keyword that merely contains one, such as '화재 위험', gives 보통 (`ContainmentIsNotMembership`). No keyword in the tables equals one of the three, so generated keywords always give 보통 (`GeneratedKeywordsNeverUrgent`).
- Each hourly prediction's level is taken from the unrounded score. The mission ranking's text grades the rounded score. The two can disagree (`LevelOfRoundedMayDiffer`).
- `recommend_safety_measures` does not check `model_loaded`. The keyword count is not capped at 10. A negative count follows Python's slice rule and drops elements from the end.
- With an unlisted mission and no trait extras, only nine keywords exist (`DefaultKeywordCount`).

## Model

| member | source | states |
|---|---|---|
| Seqs.Distinct | models/dummy_model.py:119-122 | the deduplicated list (a dict's keys) has no duplicates, the same elements as its input, and no more elements than it |
| Seqs.DistinctFirstOccurrence | models/dummy_model.py:119-122 | the deduplicated list is in first-occurrence order: an element is listed before another whenever it occurs before every occurrence of the other |
| Seqs.PyPrefix | models/dummy_model.py:218 | `s[:n]` is a prefix of `s` whose length is `min(n, len)` for `n >= 0` and `max(0, len + n)` otherwise |
| Seqs.NoDupPermutation | models/dummy_model.py:215-216 | reordering a duplicate-free list keeps it duplicate-free |
| Seqs.PrefixOfPermutation | models/dummy_model.py:215-218 | a cut of a shuffled duplicate-free pool is duplicate-free, has the cut's length, is drawn from the pool, and is the whole pool when the cut is at least its size |
| Seqs.DistinctRepeatedPrefix | models/dummy_model.py:211-215 | repeating a prefix (the fallback `common_keywords[:6]` before `common_keywords`) does not change the distinct list |
| Text.NatToStringRoundTrip | models/dummy_model.py:294 | the count rendered in the summary reads back as the count |
| Text.TenthsToStringRoundTrip | models/dummy_model.py:131 | the score rendered in the recommendation text reads back as its number of tenths |
| RiskRules.RiskLevel | models/dummy_model.py:105-112 | a score is high iff it is at least 8.0, medium iff in [6.0, 8.0), low iff below 6.0; total |
| RiskRules.RiskLevelMonotone | models/dummy_model.py:105-112 | a higher score never gets a lower level |
| RiskRules.MissionRisk | models/dummy_model.py:62-69 | a listed mission gets its table value, any other 7.0; every value lies in [6.8, 8.5] |
| RiskRules.AgeFactor | models/dummy_model.py:53-55 | the age term is 0.05 per year from 30, never above the 2.0 cap, and equals the cap from 40 years away |
| RiskRules.ExperienceFactor | models/dummy_model.py:57-59 | the tenure term is never negative, 0 from three years' service, 0.3 per missing year below that |
| RiskRules.BaseRisk | models/dummy_model.py:50-59 | the base risk is at least 5.0 and, for non-negative service years, at most 7.9 |
| RiskRules.AgeCapUnreachableForValidAges | models/dummy_model.py:53-55 | for ages 18 to 65 the age term stays below its cap |
| RiskRules.TimeFactor | models/dummy_model.py:79-85 | the factor is 1.2 exactly at hours 22-23 and 0-6, 0.9 exactly at 8-17, 1.0 exactly at 7 and 18-21 |
| RiskRules.Clip | models/dummy_model.py:93-94 | the clipped value lies in [0, 10], equals the input inside that range, and is the nearer bound outside it |
| RiskRules.RawRisk | models/dummy_model.py:88 | the score before jitter is at least 5.31 and, for non-negative service years, at most 9.84 |
| RiskRules.HourlyRisk | models/dummy_model.py:87-94 | every unrounded hourly score lies in [0, 10] |
| RiskRules.HourlyRiskFormula | models/dummy_model.py:51-94 | for ages 18 to 65 the hourly score is `clip(core * w + jitter)` with `core = 5 + abs(age - 30) * 0.05 + max(0, 3 - serviceYears) * 0.3 + missionRisk` and `w` 0.6 at night, 0.45 in working hours, 0.5 otherwise |
| RiskRules.LowerClipNeverApplies | models/dummy_model.py:88-94 | with jitter in [-0.5, 0.5] the unclipped score is at least 4.81, so the clamp at 0 never acts |
| RiskRules.UpperClipReachable | models/dummy_model.py:88-94 | the clamp at 10 does act for a valid profile (age 65, no service, weapons systems, night, jitter 0.4) |
| RiskRules.RoundTenths | models/dummy_model.py:98 | the rounded number of tenths is within half a tenth of the score |
| RiskRules.Round1 | models/dummy_model.py:98 | the rounded score is within 0.05 of the score and stays in [0, 10] |
| RiskRules.Round1Idempotent | models/dummy_model.py:98 | rounding a rounded score changes nothing |
| RiskRules.LevelOfRoundedDiffersBelowThresholds | models/dummy_model.py:98-100 | the rounded and unrounded scores get different levels exactly when the score lies in [5.95, 6.0) or [7.95, 8.0) |
| RiskRules.LevelOfRoundedMayDiffer | models/dummy_model.py:98-100 | 7.96 is graded 보통 while its reported rounding 8.0 would be graded 높음 |
| RiskRules.DaytimeExample | models/dummy_model.py:80-98 | age 30, five years, laminated armour, 10 o'clock, no jitter: 5.49, shown as 5.5, low |
| RiskRules.NightExample | models/dummy_model.py:80-98 | age 30, five years, weapons systems, 23 o'clock, no jitter: 8.1, high |
| RiskRules.UnknownMissionMidpoint | models/dummy_model.py:69 | an unlisted mission is scored as the midpoint of base risk and 7.0 |
| ScoreSort.SortByScore | models/dummy_model.py:125 | the sorted items are ordered by non-decreasing score and are a permutation of the input |
| ScoreSort.SortByScoreStable | models/dummy_model.py:125 | items of equal score keep their input (dict insertion) order |
| ScoreSort.StableSortUnique | models/dummy_model.py:125 | two sorted lists that agree on the items of every score are equal, so any stable sort by score gives this result |
| MlModel.MissionScore | models/dummy_model.py:121-122 | a mission's one-hour score lies in [0, 10] |
| MlModel.FirstPredictionScore | models/dummy_model.py:121-122 | `predictions[0]['risk_score']` of a one-hour prediction is the mission's rounded score at the current hour |
| MlModel.LastScores | models/dummy_model.py:119-122 | the filled dict has exactly the candidate missions as keys, each with a score in [0, 10] |
| MlModel.LastScoresLastWriteWins | models/dummy_model.py:122 | a mission listed twice keeps the score of its last call |
| MlModel.RecommendationText | models/dummy_model.py:131 | each recommendation text opens with '위험지수 ' and ends with the label of its own score's level |
| MlModel.RecommendationShowsScore | models/dummy_model.py:98-131 | the number shown in the text of a rounded score is exactly its tenths |
| MlModel.Candidates | models/dummy_model.py:116-117 | given candidates are used as they are; the default candidates are duplicate-free and are exactly the tabled missions other than weapons systems |
| MlModel.RankedAdvice | models/dummy_model.py:124-134 | one entry per distinct mission, ordered by non-decreasing score, each with its mission's last score and a text naming that score's level |
| MlModel.RankedAdviceTieOrder | models/dummy_model.py:119-125 | for every score, the missions listed with that score are, in order, the dict keys with that score in key (first-occurrence) order: ties keep insertion order |
| MlModel.DummyMLModel.constructor | models/dummy_model.py:21-28 | a new model is loaded and carries the nine feature names |
| MlModel.DummyMLModel.LoadModel | models/dummy_model.py:30-43 | after loading, `model_loaded` is true |
| MlModel.DummyMLModel.PredictRiskScore | models/dummy_model.py:45-103 | fails with the RuntimeError iff the model is not loaded; otherwise returns `max(0, N)` entries, entry i for hour `(currentHour + i) % 24` in 0..23, with the rounded hourly score in [0, 10] and the level of the unrounded score |
| MlModel.DummyMLModel.ScoreMissions | models/dummy_model.py:119-122 | fills the dict with the candidates' distinct missions in first-occurrence order and their last scores; fails iff a call is made on an unloaded model |
| MlModel.DummyMLModel.RecommendSafeMissions | models/dummy_model.py:114-134 | the default candidates are the four non-weapons missions; no candidates gives an empty list even when unloaded; otherwise fails iff unloaded, else returns RankedAdvice |
| DlModel.PersonalKeywords | models/dummy_model.py:195-208 | at most four personal keywords |
| DlModel.PersonalBranchesExclusive | models/dummy_model.py:200-208 | the two age branches exclude each other, as do the two tenure branches, and each applies exactly at its threshold |
| DlModel.MissionKeywordsOf | models/dummy_model.py:211 | every mission, listed or not, contributes six keywords |
| DlModel.AllKeywords | models/dummy_model.py:212 | the combined list has at most 19 keywords |
| DlModel.PersonalFromPool | models/dummy_model.py:195-208 | the personal keywords are duplicate-free and come from the eight trait keywords |
| DlModel.MissionKeywordsFresh | models/dummy_model.py:165-193 | a listed mission's keywords are distinct and share none with the common or trait keywords |
| DlModel.CommonAndPersonalNoDup | models/dummy_model.py:189-208 | the common and personal keywords together are duplicate-free |
| DlModel.KnownMissionPool | models/dummy_model.py:211-215 | for a listed mission nothing is deduplicated away: 15 plus the personal keywords |
| DlModel.UnknownMissionPool | models/dummy_model.py:211-215 | for an unlisted mission the distinct keywords are the common ones followed by the personal ones |
| DlModel.DefaultKeywordCount | models/dummy_model.py:159-218 | with the default count a listed mission yields 10 keywords, an unlisted one `min(10, 9 + personal)`, which is 9 without trait extras |
| DlModel.Shuffle | models/dummy_model.py:216 | the in-place shuffle leaves a permutation of the array |
| DlModel.ShuffleAndCut | models/dummy_model.py:215-218 | the shuffled, cut keywords are duplicate-free, have the cut's length, come from the pool, and are the whole pool when the cut covers it |
| DlModel.PriorityLevel | models/dummy_model.py:295 | the priority is high iff some keyword is exactly one of 폭발, 화재, 감전 |
| DlModel.KeywordsAreLong | models/dummy_model.py:165-208 | every table keyword has at least four characters |
| DlModel.GeneratedKeywordsNeverUrgent | models/dummy_model.py:295 | keywords drawn from the tables never make the priority high |
| DlModel.ContainmentIsNotMembership | models/dummy_model.py:295 | '화재 위험' contains '화재' yet gives 보통; '화재' alone gives 높음 |
| DlModel.MissionMeasuresOf | models/dummy_model.py:285-286 | exactly the three listed missions add three measures; any other adds none |
| DlModel.PersonalMeasures | models/dummy_model.py:275-281 | the lighting measure is added iff age is at least 45, the supervision measure iff service is at most 3 years |
| DlModel.MeasurePool | models/dummy_model.py:284-287 | the candidate measures start with the five baseline measures and number 5 plus the mission's and personal ones |
| DlModel.Summary | models/dummy_model.py:294 | the summary opens with the worker's name, ends with '가지', and the digits before '가지' read back as the number of measures |
| DlModel.DummyDLModel.constructor | models/dummy_model.py:139-142 | a new model is loaded with vocabulary size 5000 |
| DlModel.DummyDLModel.LoadModel | models/dummy_model.py:144-157 | after loading, `model_loaded` is true |
| DlModel.DummyDLModel.GenerateRiskKeywords | models/dummy_model.py:159-218 | fails with the RuntimeError iff not loaded; otherwise the keywords are duplicate-free, number `len(pool[:n])`, i.e. `PrefixLength(|pool|, n)`, come from the mission, common and personal lists, and are all of them when n covers the pool |
| DlModel.DummyDLModel.RecommendSafetyMeasures | models/dummy_model.py:241-296 | the measures are the `[:n]` prefix of baseline, mission and personal measures; the five baseline measures come first when n >= 5; the summary counts the selected measures; the priority follows PriorityLevel |

## Left out

- `create_dummy_model_files` writes pickle files. It is file I/O only.
- The `__main__` demo block and every `print` are console output only.
- `generate_risk_analysis` is display-only string templating. It indexes `keywords[0..2]`, so it needs at least three keywords. `DefaultKeywordCount` shows the default call always supplies nine or more.
- The `timestamp` field is wall-clock arithmetic. It is kept only as the hour offset `hourOffset`.
- `main.py` and `build_exe.py` are not part of this model. They hold the console menu, environment probing and packaging.
- `load_model`'s `except` branch is left out. Its `try` body can only fail inside `print`, which is not modelled.
- `int(...)` parsing of age and service years is left out. Profiles carry integers.
- The iteration order of `set(all_keywords)` is left out. It follows string hashes and can change from run to run. The set's order and the shuffle together are "some permutation". The model deduplicates in first-occurrence order and then shuffles.
- RiskRules.Round1, RiskRules.RoundTenths: round half up on exact reals. The program rounds the binary float that `np.clip` returns, so results can differ at ties and within float error of one.
- RiskRules.Clip: models `np.clip` on exact reals, not binary floats.
- DlModel.Shuffle: proves the result is a permutation. It does not prove that every permutation is reachable or uniformly likely.
- MlModel.DummyMLModel.PredictRiskScore: takes its jitter draws and the clock hour as parameters. It does not require the draws to lie in [-0.5, 0.5], since the clip makes any value safe. `LowerClipNeverApplies` assumes that range.
