/** DummyDLModel of models/dummy_model.py: risk keywords and safety
    measures selected from fixed tables. The shuffle's randomness is a
    parameter: `draws` supplies one number per swap, reduced modulo
    `i + 1` at position `i`. */
module DlModel {
  import opened Wrappers
  import opened Profiles
  import opened Seqs
  import Text

  const NotLoadedMessage: string := "DL 모델이 로드되지 않았습니다"

  const VocabSize: nat := 5000

  /** `base_keywords`: six keywords per mission. */
  const MissionKeywords: map<string, seq<string>> := map[
    "복합적층장갑" := ["적층 작업 위험", "접착제 화학 노출", "고온 경화 과정",
                 "압력기 사용 주의", "환기 불량", "화재 위험"],
    "엔진정비" := ["엔진 고온부 접촉", "연료 누출", "회전체 끼임",
               "오일 미끄러짐", "배기가스 흡입", "전기 쇼트"],
    "전기계통" := ["감전 위험", "누전 화재", "고압 전류",
               "절연 불량", "접지 미흡", "전선 손상"],
    "유압시스템" := ["고압 유체 분사", "유압 호스 파열", "오일 누출",
                "압력 용기 폭발", "미끄러짐 사고", "화상 위험"],
    "무기체계" := ["폭발물 취급", "화약 화재", "기계적 충격",
               "금속 파편", "소음 피해", "독성 가스"]
  ]

  /** `common_keywords`. */
  const CommonKeywords: seq<string> := [
    "개인보호구 미착용", "작업 절차 미준수", "안전교육 부족",
    "피로 누적", "주의력 분산", "응급상황 대응",
    "동료와의 소통 부족", "장비 점검 미흡", "환경 요인"
  ]

  /** Keywords for age 50 or more, and for age 25 or less. */
  const OlderKeywords: seq<string> := ["신체 기능 저하", "반응속도 지연"]
  const YoungerKeywords: seq<string> := ["경험 부족", "과신 위험"]

  /** Keywords for two years' service or less, and for fifteen or more. */
  const NoviceKeywords: seq<string> := ["숙련도 부족", "절차 미숙지"]
  const VeteranKeywords: seq<string> := ["관습적 작업", "안전 불감증"]

  /** `personal_keywords`: one age pair at most, then one tenure pair at most. */
  function PersonalKeywords(age: int, serviceYears: int): (p: seq<string>)
    ensures |p| <= 4
  {
    (if age >= 50 then OlderKeywords else if age <= 25 then YoungerKeywords else [])
    + (if serviceYears <= 2 then NoviceKeywords else if serviceYears >= 15 then VeteranKeywords else [])
  }

  /** The two age branches exclude each other, and so do the two tenure branches. */
  lemma PersonalBranchesExclusive(age: int, serviceYears: int)
    ensures var p := PersonalKeywords(age, serviceYears);
      && !(OlderKeywords[0] in p && YoungerKeywords[0] in p)
      && !(NoviceKeywords[0] in p && VeteranKeywords[0] in p)
      && (OlderKeywords[0] in p <==> age >= 50)
      && (YoungerKeywords[0] in p <==> age <= 25)
      && (NoviceKeywords[0] in p <==> serviceYears <= 2)
      && (VeteranKeywords[0] in p <==> serviceYears >= 15)
  {
  }

  /** `base_keywords.get(mission_type, common_keywords[:6])`. */
  function MissionKeywordsOf(mission: string): (k: seq<string>)
    ensures |k| == 6
  {
    if mission in MissionKeywords then MissionKeywords[mission] else CommonKeywords[..6]
  }

  /** `all_keywords`: mission keywords, then common ones, then personal ones. */
  function AllKeywords(mission: string, age: int, serviceYears: int): (all: seq<string>)
    ensures |all| <= 19
  {
    MissionKeywordsOf(mission) + CommonKeywords + PersonalKeywords(age, serviceYears)
  }

  /** Every personal keyword any profile can get. */
  const PersonalPool: seq<string> := OlderKeywords + YoungerKeywords + NoviceKeywords + VeteranKeywords

  /** The personal keywords are duplicate-free and drawn from PersonalPool. */
  lemma PersonalFromPool(age: int, serviceYears: int)
    ensures NoDup(PersonalKeywords(age, serviceYears))
    ensures forall i :: 0 <= i < |PersonalKeywords(age, serviceYears)| ==> PersonalKeywords(age, serviceYears)[i] in PersonalPool
  {
  }

  /** A listed mission's keywords are distinct, and differ from the common
      and the personal keywords. */
  lemma MissionKeywordsFresh(mission: string)
    requires mission in MissionKeywords
    ensures NoDup(MissionKeywords[mission])
    ensures forall i :: 0 <= i < |CommonKeywords| ==> CommonKeywords[i] !in MissionKeywords[mission]
    ensures forall i :: 0 <= i < |PersonalPool| ==> PersonalPool[i] !in MissionKeywords[mission] + CommonKeywords
  {
  }

  /** For a listed mission the three lists share no keyword, so the pool
      of distinct keywords is the whole list: 15 plus the personal ones. */
  lemma KnownMissionPool(mission: string, age: int, serviceYears: int)
    requires mission in MissionKeywords
    ensures Distinct(AllKeywords(mission, age, serviceYears)) == AllKeywords(mission, age, serviceYears)
    ensures |Distinct(AllKeywords(mission, age, serviceYears))| == 15 + |PersonalKeywords(age, serviceYears)|
  {
    var mk := MissionKeywords[mission];
    var p := PersonalKeywords(age, serviceYears);
    MissionKeywordsFresh(mission);
    PersonalFromPool(age, serviceYears);
    assert NoDup(CommonKeywords);
    NoDupConcat(mk, CommonKeywords);
    NoDupConcat(mk + CommonKeywords, p);
    DistinctOfNoDup(AllKeywords(mission, age, serviceYears));
  }

  /** The common keywords are distinct and differ from the personal ones. */
  lemma CommonAndPersonalNoDup(age: int, serviceYears: int)
    ensures NoDup(CommonKeywords + PersonalKeywords(age, serviceYears))
  {
  }

  /** For any other mission the fallback repeats the first six common
      keywords, so the pool is the common keywords and the personal ones. */
  lemma UnknownMissionPool(mission: string, age: int, serviceYears: int)
    requires mission !in MissionKeywords
    ensures Distinct(AllKeywords(mission, age, serviceYears)) == CommonKeywords + PersonalKeywords(age, serviceYears)
    ensures |Distinct(AllKeywords(mission, age, serviceYears))| == 9 + |PersonalKeywords(age, serviceYears)|
  {
    var c6 := CommonKeywords[..6];
    var p := PersonalKeywords(age, serviceYears);
    var rest := CommonKeywords[6..] + p;
    assert AllKeywords(mission, age, serviceYears) == c6 + c6 + rest;
    DistinctRepeatedPrefix(c6, rest);
    assert c6 + rest == CommonKeywords + p;
    CommonAndPersonalNoDup(age, serviceYears);
    DistinctOfNoDup(CommonKeywords + p);
  }

  /** With the default of ten, a listed mission yields ten keywords, while an
      unlisted one yields nine plus the personal ones, capped at ten. */
  lemma DefaultKeywordCount(mission: string, age: int, serviceYears: int)
    ensures mission in MissionKeywords ==>
      PrefixLength(|Distinct(AllKeywords(mission, age, serviceYears))|, 10) == 10
    ensures mission !in MissionKeywords ==>
      PrefixLength(|Distinct(AllKeywords(mission, age, serviceYears))|, 10)
      == Min(10, 9 + |PersonalKeywords(age, serviceYears)|)
    ensures mission !in MissionKeywords && 25 < age < 50 && 2 < serviceYears < 15 ==>
      PrefixLength(|Distinct(AllKeywords(mission, age, serviceYears))|, 10) == 9
  {
    if mission in MissionKeywords {
      KnownMissionPool(mission, age, serviceYears);
    } else {
      UnknownMissionPool(mission, age, serviceYears);
    }
  }

  /** random.shuffle: the Fisher-Yates pass of CPython, from the last
      position down to 1, swapping position i with a position below or at
      i chosen by the next draw. */
  method Shuffle(a: array<string>, draws: seq<nat>)
    requires a.Length <= |draws| + 1
    modifies a
    ensures multiset(a[..]) == old(multiset(a[..]))
  {
    var i := a.Length - 1;
    var k := 0;
    while i >= 1
      invariant -1 <= i < a.Length
      invariant k + i == a.Length - 1
      invariant multiset(a[..]) == old(multiset(a[..]))
    {
      var j := draws[k] % (i + 1);
      a[i], a[j] := a[j], a[i];
      i := i - 1;
      k := k + 1;
    }
  }

  /** `random.shuffle(unique_keywords)` then `unique_keywords[:n]`, on a copy
      of the duplicate-free `pool` held in an array. */
  method ShuffleAndCut(pool: seq<string>, n: int, draws: seq<nat>) returns (r: seq<string>)
    requires NoDup(pool)
    requires |pool| <= |draws| + 1
    ensures NoDup(r)
    ensures |r| == PrefixLength(|pool|, n)
    ensures multiset(r) <= multiset(pool)
    ensures n >= |pool| ==> multiset(r) == multiset(pool)
    ensures forall i :: 0 <= i < |r| ==> r[i] in pool
  {
    var a := new string[|pool|](i requires 0 <= i < |pool| => pool[i]);
    assert a[..] == pool;
    Shuffle(a, draws);
    PrefixOfPermutation(pool, a[..], n);
    r := PyPrefix(a[..], n);
  }

  /** The priority words the summary checks for. */
  const UrgentKeywords: seq<string> := ["폭발", "화재", "감전"]

  /** `'높음' if any(keyword in ['폭발', '화재', '감전'] ...) else '보통'`:
      high exactly when some keyword equals one of the three words. */
  function PriorityLevel(keywords: seq<string>): (high: bool)
    ensures high <==> exists i :: 0 <= i < |keywords| && keywords[i] in UrgentKeywords
  {
    if keywords == [] then false
    else if keywords[0] in UrgentKeywords then true
    else
      var rest := PriorityLevel(keywords[1..]);
      assert forall i :: 1 <= i < |keywords| ==> keywords[i] == keywords[1..][i - 1];
      rest
  }

  /** The label of the priority. */
  function PriorityLabel(high: bool): string {
    if high then "높음" else "보통"
  }

  /** Every keyword in the tables has at least four characters. */
  lemma KeywordsAreLong(mission: string, age: int, serviceYears: int)
    ensures forall i :: 0 <= i < |AllKeywords(mission, age, serviceYears)| ==>
      |AllKeywords(mission, age, serviceYears)[i]| >= 4
  {
  }

  /** Exact membership is not a substring test: generated keywords such as
      '화재 위험' contain '화재' but never equal a priority word, so keywords
      drawn from the tables always give the medium priority. */
  lemma GeneratedKeywordsNeverUrgent(keywords: seq<string>, mission: string, age: int, serviceYears: int)
    requires forall i :: 0 <= i < |keywords| ==> keywords[i] in AllKeywords(mission, age, serviceYears)
    ensures !PriorityLevel(keywords)
  {
    KeywordsAreLong(mission, age, serviceYears);
    forall i | 0 <= i < |keywords| ensures keywords[i] !in UrgentKeywords {
      assert |keywords[i]| >= 4;
    }
  }

  /** A keyword that contains '화재' still gives the medium priority. */
  lemma ContainmentIsNotMembership()
    ensures "화재" <= "화재 위험"
    ensures !PriorityLevel(["화재 위험"])
    ensures PriorityLevel(["화재"])
  {
  }

  /** `base_measures`. */
  const BaseMeasures: seq<string> := [
    "개인보호구 완전 착용 (안전모, 보호안경, 작업복, 안전화)",
    "작업 전 안전점검 체크리스트 100% 준수",
    "2인 1조 작업 시스템으로 상호 안전 확인",
    "1시간마다 10분 휴식으로 피로도 관리",
    "응급상황 대응 절차 숙지 및 비상연락망 확인"
  ]

  /** `mission_measures`: only three missions have specific measures. */
  const MissionMeasures: map<string, seq<string>> := map[
    "복합적층장갑" := ["작업장 환기 시설 가동 및 공기 질 모니터링",
                 "접착제 사용 시 방독마스크 착용 필수",
                 "고온 장비 주변 화상 방지 조치"],
    "엔진정비" := ["연료 누출 감지 장비 점검 후 작업 시작",
               "회전 부품 작업 시 느슨한 의복 착용 금지",
               "엔진 냉각 후 정비 작업 실시"],
    "전기계통" := ["전원 차단 후 검전기로 무전압 확인",
               "절연 장갑 및 절연 공구 사용",
               "습도가 높은 날 작업 시 특별 주의"]
  ]

  const LightingMeasure: string := "작업 중 충분한 조명 확보로 시야 확보"
  const SupervisionMeasure: string := "숙련자의 지도 하에 작업 수행"

  /** The measures a mission adds: its three, or none. */
  function MissionMeasuresOf(mission: string): (m: seq<string>)
    ensures |m| == if mission in MissionMeasures then 3 else 0
  {
    if mission in MissionMeasures then MissionMeasures[mission] else []
  }

  /** `personal_measures`: lighting from age 45, supervision up to three
      years' service; both conditions are checked. */
  function PersonalMeasures(age: int, serviceYears: int): (p: seq<string>)
    ensures |p| == (if age >= 45 then 1 else 0) + (if serviceYears <= 3 then 1 else 0)
    ensures LightingMeasure in p <==> age >= 45
    ensures SupervisionMeasure in p <==> serviceYears <= 3
  {
    (if age >= 45 then [LightingMeasure] else []) + (if serviceYears <= 3 then [SupervisionMeasure] else [])
  }

  /** `all_measures`: baseline, then mission-specific, then personal. */
  function MeasurePool(mission: string, age: int, serviceYears: int): (all: seq<string>)
    ensures |all| == 5 + |MissionMeasuresOf(mission)| + |PersonalMeasures(age, serviceYears)|
    ensures all[..5] == BaseMeasures
  {
    BaseMeasures + MissionMeasuresOf(mission) + PersonalMeasures(age, serviceYears)
  }

  /** The dict recommend_safety_measures returns. */
  datatype SafetyPlan = SafetyPlan(measures: seq<string>, summary: string, priorityLevel: string)

  /** The summary f"{name}님의 {mission} 작업을 위한 맞춤형 안전대책 {count}가지". */
  function Summary(name: string, mission: string, count: nat): (s: string)
    ensures |s| >= |name| + |Text.NatToString(count)| + 2 && s[..|name|] == name && s[|s| - 2..] == "가지"
    ensures var d := s[|s| - 2 - |Text.NatToString(count)|..|s| - 2];
      (forall i :: 0 <= i < |d| ==> Text.IsDigit(d[i])) && Text.DigitsValue(d) == count
  {
    Text.NatToStringRoundTrip(count);
    name + "님의 " + mission + " 작업을 위한 맞춤형 안전대책 " + Text.NatToString(count) + "가지"
  }

  class DummyDLModel {
    var modelLoaded: bool
    const vocabSize: nat

    /** `__init__`: starts unloaded, then loads. */
    constructor ()
      ensures modelLoaded
      ensures vocabSize == VocabSize
    {
      modelLoaded := false;
      vocabSize := VocabSize;
      new;
      LoadModel();
    }

    /** load_model: the simulated load always succeeds. */
    method LoadModel()
      modifies this
      ensures modelLoaded
    {
      modelLoaded := true;
    }

    /** generate_risk_keywords: the distinct keywords of the mission, common
        and personal lists, shuffled, cut to `numKeywords` as `[:n]` does;
        a RuntimeError when the model is not loaded. */
    method GenerateRiskKeywords(profile: Profile, missionType: string, numKeywords: int := 10, draws: seq<nat>)
      returns (r: Result<seq<string>>)
      requires |AllKeywords(missionType, profile.age, profile.serviceYears)| <= |draws| + 1
      ensures r.Err? <==> !modelLoaded
      ensures r.Err? ==> r.error == RuntimeError(NotLoadedMessage)
      ensures r.Ok? ==>
        var pool := Distinct(AllKeywords(missionType, profile.age, profile.serviceYears));
        && NoDup(r.value)
        && |r.value| == PrefixLength(|pool|, numKeywords)
        && multiset(r.value) <= multiset(pool)
        && (numKeywords >= |pool| ==> multiset(r.value) == multiset(pool))
      ensures r.Ok? ==> forall i :: 0 <= i < |r.value| ==>
        r.value[i] in AllKeywords(missionType, profile.age, profile.serviceYears)
    {
      if !modelLoaded {
        return Err(RuntimeError(NotLoadedMessage));
      }
      var personalKeywords: seq<string> := [];
      var age := profile.age;
      var serviceYears := profile.serviceYears;
      if age >= 50 {
        personalKeywords := personalKeywords + OlderKeywords;
      } else if age <= 25 {
        personalKeywords := personalKeywords + YoungerKeywords;
      }
      if serviceYears <= 2 {
        personalKeywords := personalKeywords + NoviceKeywords;
      } else if serviceYears >= 15 {
        personalKeywords := personalKeywords + VeteranKeywords;
      }
      assert personalKeywords == PersonalKeywords(age, serviceYears);
      var missionKeywords := if missionType in MissionKeywords then MissionKeywords[missionType] else CommonKeywords[..6];
      var allKeywords := missionKeywords + CommonKeywords + personalKeywords;
      assert allKeywords == AllKeywords(missionType, age, serviceYears);
      // list(set(all_keywords)): the set's order is subsumed by the shuffle
      var unique := Distinct(allKeywords);
      var selected := ShuffleAndCut(unique, numKeywords, draws);
      return Ok(selected);
    }

    /** recommend_safety_measures: the first `numMeasures` of baseline,
        mission-specific and personal measures, a summary counting them,
        and the priority. The model's load state is not checked. */
    method RecommendSafetyMeasures(profile: Profile, missionType: string, keywords: seq<string>, numMeasures: int := 5)
      returns (plan: SafetyPlan)
      ensures plan.measures == PyPrefix(MeasurePool(missionType, profile.age, profile.serviceYears), numMeasures)
      ensures numMeasures >= 5 ==> plan.measures[..5] == BaseMeasures
      ensures 0 <= numMeasures <= 5 ==> plan.measures == BaseMeasures[..numMeasures]
      ensures plan.summary == Summary(profile.name, missionType, |plan.measures|)
      ensures plan.priorityLevel == PriorityLabel(PriorityLevel(keywords))
    {
      var personalMeasures: seq<string> := [];
      var age := profile.age;
      if age >= 45 {
        personalMeasures := personalMeasures + [LightingMeasure];
      }
      if profile.serviceYears <= 3 {
        personalMeasures := personalMeasures + [SupervisionMeasure];
      }
      var allMeasures := BaseMeasures;
      if missionType in MissionMeasures {
        allMeasures := allMeasures + MissionMeasures[missionType];
      }
      allMeasures := allMeasures + personalMeasures;
      assert allMeasures == MeasurePool(missionType, age, profile.serviceYears);
      var selected := PyPrefix(allMeasures, numMeasures);
      var summary := profile.name + "님의 " + missionType + " 작업을 위한 맞춤형 안전대책 "
        + Text.NatToString(|selected|) + "가지";
      var priority := if PriorityLevel(keywords) then "높음" else "보통";
      plan := SafetyPlan(selected, summary, priority);
    }
  }
}
