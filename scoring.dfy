/**
 * Scoring of the two questionnaires (backend/assessments.py): the DASS-21 subscale sums, their
 * severity levels, the fixed analysis text and the recommendation list; and the PHQ-9 total,
 * its severity band, analysis text and recommendations. Everything here is a pure function of
 * the submitted answers `responses: Dict[int, int]`.
 */
module Scoring {
  import opened Wrappers

  // ----- DASS-21 item partition and subscale sums -----

  const DepressionItems: seq<int> := [3, 5, 10, 13, 16, 17, 21]
  const AnxietyItems: seq<int> := [2, 4, 7, 9, 15, 19, 20]
  const StressItems: seq<int> := [1, 6, 8, 11, 12, 14, 18]

  /**
   * A submitted `Dict[int, int]`: its (question, answer) pairs in insertion order. A dictionary
   * holds each key once; `IsDict` says so.
   */
  type Responses = seq<(int, int)>

  predicate IsDict(r: Responses) {
    forall i, j :: 0 <= i < j < |r| ==> r[i].0 != r[j].0
  }

  /** Every answer is one of the four points of the questionnaire's scale. */
  ghost predicate AnswersInScale(r: Responses) {
    forall i :: 0 <= i < |r| ==> 0 <= r[i].1 <= 3
  }

  /** Every key is one of the questionnaire's item numbers 1..n. */
  ghost predicate KeysWithin(r: Responses, n: int) {
    forall i :: 0 <= i < |r| ==> 1 <= r[i].0 <= n
  }

  ghost predicate Distinct(items: seq<int>) {
    forall i, j :: 0 <= i < j < |items| ==> items[i] != items[j]
  }

  /** `responses.get(q, 0)`: the answer stored under `q`, and zero for an unanswered item. */
  function Answer(r: Responses, q: int): (a: int)
    ensures (forall i :: 0 <= i < |r| ==> r[i].0 != q) ==> a == 0
    ensures IsDict(r) ==> forall i :: 0 <= i < |r| && r[i].0 == q ==> a == r[i].1
    ensures AnswersInScale(r) ==> 0 <= a <= 3
    decreases |r|
  {
    if |r| == 0 then 0
    else if r[0].0 == q then r[0].1
    else
      assert IsDict(r) ==> IsDict(r[1..]);
      Answer(r[1..], q)
  }

  /** `sum(responses.get(q, 0) for q in items)`. */
  function ItemSum(r: Responses, items: seq<int>): int
    decreases |items|
  {
    if |items| == 0 then 0 else Answer(r, items[0]) + ItemSum(r, items[1..])
  }

  /** `sum(responses.values())`: every submitted answer once. */
  function ValueSum(r: Responses): int
    decreases |r|
  {
    if |r| == 0 then 0 else r[0].1 + ValueSum(r[1..])
  }

  // ----- DASS-21 levels -----

  datatype Level = Normal | Mild | Moderate | Severe | ExtremelySevere

  /** The labels the service returns, in the order of increasing severity. */
  function LevelLabel(l: Level): string {
    match l
    case Normal => "عادی"
    case Mild => "خفیف"
    case Moderate => "متوسط"
    case Severe => "شدید"
    case ExtremelySevere => "بسیار شدید"
  }

  function LevelRank(l: Level): nat {
    match l
    case Normal => 0
    case Mild => 1
    case Moderate => 2
    case Severe => 3
    case ExtremelySevere => 4
  }

  /** The greatest score of each of the four lower bands. */
  datatype Cutoffs = Cutoffs(normal: int, mild: int, moderate: int, severe: int)

  const DepressionCutoffs := Cutoffs(9, 13, 20, 27)
  const AnxietyCutoffs := Cutoffs(7, 9, 14, 19)
  const StressCutoffs := Cutoffs(14, 18, 25, 33)

  predicate Increasing(c: Cutoffs) {
    c.normal < c.mild < c.moderate < c.severe
  }

  /** How many of the four cut-offs `score` lies above. */
  function CutoffsExceeded(score: int, c: Cutoffs): nat {
    (if score > c.normal then 1 else 0) + (if score > c.mild then 1 else 0) +
    (if score > c.moderate then 1 else 0) + (if score > c.severe then 1 else 0)
  }

  /**
   * The if-chain of `get_depression_level`, `get_anxiety_level` and `get_stress_level`: normal
   * exactly up to the first cut-off, and, for increasing cut-offs, one level up for every
   * cut-off the score passes.
   */
  function LevelFor(score: int, c: Cutoffs): (l: Level)
    ensures l == Normal <==> score <= c.normal
    ensures Increasing(c) ==> LevelRank(l) == CutoffsExceeded(score, c)
  {
    if score <= c.normal then Normal
    else if score <= c.mild then Mild
    else if score <= c.moderate then Moderate
    else if score <= c.severe then Severe
    else ExtremelySevere
  }

  function DepressionLevel(score: int): (l: Level)
    ensures l == Normal <==> score <= DepressionCutoffs.normal
    ensures LevelRank(l) == CutoffsExceeded(score, DepressionCutoffs)
  {
    LevelFor(score, DepressionCutoffs)
  }

  function AnxietyLevel(score: int): (l: Level)
    ensures l == Normal <==> score <= AnxietyCutoffs.normal
    ensures LevelRank(l) == CutoffsExceeded(score, AnxietyCutoffs)
  {
    LevelFor(score, AnxietyCutoffs)
  }

  function StressLevel(score: int): (l: Level)
    ensures l == Normal <==> score <= StressCutoffs.normal
    ensures LevelRank(l) == CutoffsExceeded(score, StressCutoffs)
  {
    LevelFor(score, StressCutoffs)
  }

  // ----- DASS-21 analysis and recommendations -----

  const AnalysisPrefix := "بر اساس تجزیه و تحلیل پاسخ‌های شما: "
  const AllNormalText := "نتایج شما در محدوده طبیعی قرار دارد. شما وضعیت روحی مناسبی دارید."
  const SeeSpecialistText := "نتایج نشان می‌دهد که شما در حال حاضر با چالش‌های قابل توجه سلامت روان مواجه هستید. توصیه می‌شود با یک متخصص مشورت کنید."
  const NeedsCareText := "نتایج نشان می‌دهد که شما نیاز به توجه بیشتر به سلامت روان خود دارید. با اعمال تکنیک‌های مدیریت استرس می‌توانید بهبود یابید."

  predicate AllNormal(d: Level, a: Level, s: Level) {
    d == Normal && a == Normal && s == Normal
  }

  predicate IsSevere(l: Level) {
    l == Severe || l == ExtremelySevere
  }

  predicate AnySevere(d: Level, a: Level, s: Level) {
    IsSevere(d) || IsSevere(a) || IsSevere(s)
  }

  /**
   * `generate_ai_analysis`: the fixed prefix followed by the "all normal" text exactly when every
   * level is normal, the "see a specialist" text exactly when some level is severe or extremely
   * severe, and the "needs attention" text otherwise. (The source also passes the three scores,
   * which it does not read.)
   */
  function DassAnalysis(d: Level, a: Level, s: Level): (r: string)
    ensures AnalysisPrefix <= r
    ensures r == AnalysisPrefix + AllNormalText <==> AllNormal(d, a, s)
    ensures r == AnalysisPrefix + SeeSpecialistText <==> AnySevere(d, a, s)
    ensures r == AnalysisPrefix + NeedsCareText <==> !AllNormal(d, a, s) && !AnySevere(d, a, s)
  {
    assert |AllNormalText| != |SeeSpecialistText| && |AllNormalText| != |NeedsCareText|;
    assert |SeeSpecialistText| != |NeedsCareText|;
    var text :=
      if AllNormal(d, a, s) then AllNormalText
      else if AnySevere(d, a, s) then SeeSpecialistText
      else NeedsCareText;
    AnalysisPrefix + text
  }

  const DepressionAdvice: seq<string> := ["تمرین روزانه تنفس عمیق و مدیتیشن", "حفظ برنامه خواب منظم (7-8 ساعت)", "فعالیت بدنی منظم، حداقل 30 دقیقه در روز"]
  const AnxietyAdvice: seq<string> := ["تکنیک‌های آرام‌سازی عضلانی", "محدود کردن کافئین و مواد محرک", "تمرین ذهن‌آگاهی (Mindfulness)"]
  const StressAdvice: seq<string> := ["مدیریت زمان و اولویت‌بندی کارها", "ایجاد تعادل بین کار و زندگی", "استفاده از تکنیک‌های حل مسئله"]
  const MaintenanceAdvice: seq<string> := ["ادامه سبک زندگی سالم فعلی", "حفظ روابط اجتماعی مثبت", "ارزیابی دوره‌ای سلامت روان"]

  /** The three-item advice blocks of the subscales that are not normal, in subscale order. */
  function AdviceBlocks(d: Level, a: Level, s: Level): seq<string> {
    (if d != Normal then DepressionAdvice else []) +
    (if a != Normal then AnxietyAdvice else []) +
    (if s != Normal then StressAdvice else [])
  }

  function AbnormalCount(d: Level, a: Level, s: Level): nat {
    (if d != Normal then 1 else 0) + (if a != Normal then 1 else 0) + (if s != Normal then 1 else 0)
  }

  /**
   * `generate_recommendations`: the three maintenance items when every level is normal;
   * otherwise the advice blocks of the subscales that are not normal, in depression, anxiety,
   * stress order, cut to at most five items.
   */
  function DassRecommendations(d: Level, a: Level, s: Level): (r: seq<string>)
    ensures 1 <= |r| <= 5
    ensures r == MaintenanceAdvice <==> AllNormal(d, a, s)
    ensures !AllNormal(d, a, s) ==>
              |r| == Min(5, 3 * AbnormalCount(d, a, s)) && r <= AdviceBlocks(d, a, s)
    ensures d != Normal ==> DepressionAdvice <= r
    ensures d == Normal && a != Normal ==> AnxietyAdvice <= r
    ensures d == Normal && a == Normal && s != Normal ==> r == StressAdvice
  {
    if AllNormal(d, a, s) then MaintenanceAdvice
    else
      var blocks := AdviceBlocks(d, a, s);
      assert blocks[0] in {DepressionAdvice[0], AnxietyAdvice[0], StressAdvice[0]};
      assert blocks[0] != MaintenanceAdvice[0];
      if |blocks| <= 5 then blocks else blocks[..5]
  }

  // ----- DASS-21 result -----

  datatype DassResult = DassResult(
    depressionScore: int, anxietyScore: int, stressScore: int,
    depressionLevel: Level, anxietyLevel: Level, stressLevel: Level,
    analysis: string, recommendations: seq<string>)

  function DepressionScore(r: Responses): int { ItemSum(r, DepressionItems) * 2 }
  function AnxietyScore(r: Responses): int { ItemSum(r, AnxietyItems) * 2 }
  function StressScore(r: Responses): int { ItemSum(r, StressItems) * 2 }

  /**
   * `calculate_dass_scores`: each subscale score is twice the sum of its seven answers; each level is the band of its own score,
   * and the analysis and recommendations follow the three levels.
   */
  function CalculateDassScores(responses: Responses): (r: DassResult)
    ensures r.depressionScore == DepressionScore(responses) && r.anxietyScore == AnxietyScore(responses) &&
            r.stressScore == StressScore(responses)
    ensures LevelRank(r.depressionLevel) == CutoffsExceeded(r.depressionScore, DepressionCutoffs)
    ensures LevelRank(r.anxietyLevel) == CutoffsExceeded(r.anxietyScore, AnxietyCutoffs)
    ensures LevelRank(r.stressLevel) == CutoffsExceeded(r.stressScore, StressCutoffs)
    ensures r.analysis == AnalysisPrefix + AllNormalText <==>
              r.depressionScore <= DepressionCutoffs.normal && r.anxietyScore <= AnxietyCutoffs.normal &&
              r.stressScore <= StressCutoffs.normal
    ensures r.analysis == DassAnalysis(r.depressionLevel, r.anxietyLevel, r.stressLevel)
    ensures r.recommendations == DassRecommendations(r.depressionLevel, r.anxietyLevel, r.stressLevel)
  {
    var dep, anx, str := DepressionScore(responses), AnxietyScore(responses), StressScore(responses);
    var dl, al, sl := DepressionLevel(dep), AnxietyLevel(anx), StressLevel(str);
    DassResult(dep, anx, str, dl, al, sl, DassAnalysis(dl, al, sl), DassRecommendations(dl, al, sl))
  }

  // ----- PHQ-9 -----

  datatype Severity = Minimal | MildSymptoms | ModerateSymptoms | ModeratelySevere | SevereSymptoms

  function SeverityLabel(v: Severity): string {
    match v
    case Minimal => "حداقل"
    case MildSymptoms => "خفیف"
    case ModerateSymptoms => "متوسط"
    case ModeratelySevere => "نسبتاً شدید"
    case SevereSymptoms => "شدید"
  }

  function SeverityRank(v: Severity): nat {
    match v
    case Minimal => 0
    case MildSymptoms => 1
    case ModerateSymptoms => 2
    case ModeratelySevere => 3
    case SevereSymptoms => 4
  }

  const Phq9Cutoffs := Cutoffs(4, 9, 14, 19)

  /** `get_severity_level` with the cut-offs 4, 9, 14 and 19: one band up for every cut-off the
      total passes. */
  function SeverityFor(score: int): (v: Severity)
    ensures SeverityRank(v) == CutoffsExceeded(score, Phq9Cutoffs)
  {
    if score <= 4 then Minimal
    else if score <= 9 then MildSymptoms
    else if score <= 14 then ModerateSymptoms
    else if score <= 19 then ModeratelySevere
    else SevereSymptoms
  }

  const MinimalText := "علائم افسردگی شما در سطح حداقل است. این وضعیت طبیعی محسوب می‌شود."
  const MildText := "علائم افسردگی خفیفی دارید. با تکنیک‌های خودمراقبتی می‌توانید این وضعیت را بهبود بخشید."
  const ModerateText := "علائم افسردگی متوسطی دارید. توصیه می‌شود با یک مشاور یا روان‌شناس صحبت کنید."
  const ModeratelySevereText := "علائم افسردگی نسبتاً شدیدی دارید. مراجعه به متخصص ضروری است."
  const SevereText := "علائم افسردگی شدیدی دارید. فوراً با یک روان‌پزشک یا متخصص سلامت روان تماس بگیرید."

  /**
   * `generate_phq9_analysis` (the source also passes the total, which it does not read): each
   * severity gets its own text, and each text names one severity only.
   */
  function Phq9Analysis(v: Severity): (t: string)
    ensures t == MinimalText <==> v == Minimal
    ensures t == MildText <==> v == MildSymptoms
    ensures t == ModerateText <==> v == ModerateSymptoms
    ensures t == ModeratelySevereText <==> v == ModeratelySevere
    ensures t == SevereText <==> v == SevereSymptoms
  {
    assert |MinimalText| == 65 && |MildText| == 86 && |ModerateText| == 76;
    assert |ModeratelySevereText| == 60 && |SevereText| == 81;
    match v
    case Minimal => MinimalText
    case MildSymptoms => MildText
    case ModerateSymptoms => ModerateText
    case ModeratelySevere => ModeratelySevereText
    case SevereSymptoms => SevereText
  }

  const MinimalAdvice: seq<string> := ["ادامه فعالیت‌های مثبت فعلی", "حفظ روابط اجتماعی", "ورزش منظم"]
  const MildAdvice: seq<string> := ["افزایش فعالیت‌های لذت‌بخش", "برقراری ارتباط با دوستان و خانواده", "تمرین ذهن‌آگاهی", "نظم در خواب و تغذیه"]
  const ModerateAdvice: seq<string> := ["مشورت با روان‌شناس یا مشاور", "شرکت در گروه‌های حمایتی", "تمرین تکنیک‌های درمان شناختی-رفتاری", "نظارت بر علائم"]
  const UrgentAdvice: seq<string> := ["مراجعه فوری به متخصص", "درنظرگیری درمان دارویی", "حمایت خانوادگی", "مراقبت ویژه از خود"]

  /** `generate_phq9_recommendations`: three items for minimal symptoms, four for every other
      band, the two upper bands sharing one list. */
  function Phq9Recommendations(v: Severity): (r: seq<string>)
    ensures |r| == if v == Minimal then 3 else 4
    ensures r == MinimalAdvice <==> v == Minimal
    ensures r == MildAdvice <==> v == MildSymptoms
    ensures r == ModerateAdvice <==> v == ModerateSymptoms
    ensures v == ModeratelySevere || v == SevereSymptoms <==> r == UrgentAdvice
  {
    assert MinimalAdvice[0] != MildAdvice[0] && MildAdvice[0] != ModerateAdvice[0];
    assert MinimalAdvice[0] != UrgentAdvice[0] && MildAdvice[0] != UrgentAdvice[0];
    assert ModerateAdvice[0] != UrgentAdvice[0] && MinimalAdvice[0] != ModerateAdvice[0];
    match v
    case Minimal => MinimalAdvice
    case MildSymptoms => MildAdvice
    case ModerateSymptoms => ModerateAdvice
    case _ => UrgentAdvice
  }

  datatype Phq9Result = Phq9Result(
    totalScore: int, severity: Severity, analysis: string, recommendations: seq<string>)

  /**
   * `calculate_phq9_score`: the total is the sum of every submitted answer, the severity is
   * its band, and the analysis and recommendations follow the severity.
   */
  function CalculatePhq9(responses: Responses): (r: Phq9Result)
    ensures r.totalScore == ValueSum(responses)
    ensures SeverityRank(r.severity) == CutoffsExceeded(r.totalScore, Phq9Cutoffs)
    ensures r.analysis == MinimalText <==> r.totalScore <= 4
    ensures r.recommendations == UrgentAdvice <==> r.totalScore >= 15
    ensures r.analysis == Phq9Analysis(r.severity) && r.recommendations == Phq9Recommendations(r.severity)
  {
    var total := ValueSum(responses);
    var v := SeverityFor(total);
    Phq9Result(total, v, Phq9Analysis(v), Phq9Recommendations(v))
  }

  // ----- Properties -----

  /** All 21 item numbers, subscale by subscale. */
  const AllItems: seq<int> := DepressionItems + AnxietyItems + StressItems

  /** The three subscales split the items 1..21: each item belongs to exactly one of them. */
  lemma ItemListsPartition()
    ensures |DepressionItems| == |AnxietyItems| == |StressItems| == 7
    ensures Distinct(AllItems)
    ensures forall q :: q in AllItems <==> 1 <= q <= 21
  {
  }

  lemma {:induction false} ItemSumConcat(r: Responses, a: seq<int>, b: seq<int>)
    ensures ItemSum(r, a + b) == ItemSum(r, a) + ItemSum(r, b)
    decreases |a|
  {
    if |a| == 0 {
      assert a + b == b;
    } else {
      assert (a + b)[0] == a[0];
      assert (a + b)[1..] == a[1..] + b;
      ItemSumConcat(r, a[1..], b);
    }
  }

  /** A leading pair whose key is new adds its answer to a sum over distinct items iff its key is
      listed. */
  lemma {:induction false} ItemSumPrepend(k: int, v: int, rest: Responses, items: seq<int>)
    requires Distinct(items)
    requires forall i :: 0 <= i < |rest| ==> rest[i].0 != k
    ensures ItemSum([(k, v)] + rest, items) == (if k in items then v else 0) + ItemSum(rest, items)
    decreases |items|
  {
    var s := [(k, v)] + rest;
    if |items| > 0 {
      assert s[0] == (k, v) && s[1..] == rest;
      assert Answer(s, items[0]) == if k == items[0] then v else Answer(rest, items[0]);
      assert Distinct(items[1..]);
      ItemSumPrepend(k, v, rest, items[1..]);
      assert items == [items[0]] + items[1..];
      assert k in items <==> k == items[0] || k in items[1..];
      assert k == items[0] ==> k !in items[1..];
    }
  }

  /** Summing the answers of a list of distinct items that covers every key adds each answer once. */
  lemma {:induction false} ItemSumCoversValueSum(r: Responses, items: seq<int>)
    requires IsDict(r) && Distinct(items)
    requires forall i :: 0 <= i < |r| ==> r[i].0 in items
    ensures ItemSum(r, items) == ValueSum(r)
    decreases |r|
  {
    if |r| == 0 {
      ItemSumOfEmpty(items);
    } else {
      assert r == [(r[0].0, r[0].1)] + r[1..];
      ItemSumPrepend(r[0].0, r[0].1, r[1..], items);
      assert forall i :: 0 <= i < |r[1..]| ==> r[1..][i] == r[i + 1];
      assert forall i :: 0 <= i < |r[1..]| ==> r[1..][i].0 != r[0].0;
      ItemSumCoversValueSum(r[1..], items);
    }
  }

  lemma {:induction false} ItemSumOfEmpty(items: seq<int>)
    ensures ItemSum([], items) == 0
    decreases |items|
  {
    if |items| > 0 {
      ItemSumOfEmpty(items[1..]);
    }
  }

  /** With answers on the 0..3 scale, a sum over n items lies in 0..3n. */
  lemma {:induction false} ItemSumBounds(r: Responses, items: seq<int>)
    requires AnswersInScale(r)
    ensures 0 <= ItemSum(r, items) <= 3 * |items|
    decreases |items|
  {
    if |items| > 0 {
      ItemSumBounds(r, items[1..]);
    }
  }

  /** Each DASS-21 subscale score is even and lies in 0..42, given answers on the 0..3 scale. */
  lemma DassScoresBounded(r: Responses)
    requires AnswersInScale(r)
    ensures DepressionScore(r) % 2 == 0 && 0 <= DepressionScore(r) <= 42
    ensures AnxietyScore(r) % 2 == 0 && 0 <= AnxietyScore(r) <= 42
    ensures StressScore(r) % 2 == 0 && 0 <= StressScore(r) <= 42
  {
    DoubledSumBounds(r, DepressionItems);
    DoubledSumBounds(r, AnxietyItems);
    DoubledSumBounds(r, StressItems);
  }

  lemma DoubledSumBounds(r: Responses, items: seq<int>)
    requires AnswersInScale(r)
    ensures var x := ItemSum(r, items) * 2; x % 2 == 0 && 0 <= x <= 6 * |items|
  {
    ItemSumBounds(r, items);
  }

  /**
   * When every key is an item number 1..21, the three subscale scores together are twice the
   * sum of all answers: no answer is lost and none is counted twice.
   */
  lemma DassScoresTotal(r: Responses)
    requires IsDict(r) && KeysWithin(r, 21)
    ensures DepressionScore(r) + AnxietyScore(r) + StressScore(r) == 2 * ValueSum(r)
  {
    ItemListsPartition();
    ItemSumConcat(r, DepressionItems, AnxietyItems);
    ItemSumConcat(r, DepressionItems + AnxietyItems, StressItems);
    ItemSumCoversValueSum(r, AllItems);
  }

  /** Each level is reached by a higher score than the one below it. */
  lemma LevelMonotone(score: int, score': int, c: Cutoffs)
    requires score <= score'
    requires c.normal <= c.mild <= c.moderate <= c.severe
    ensures LevelRank(LevelFor(score, c)) <= LevelRank(LevelFor(score', c))
  {
  }

  /** The three cut-off tables are increasing, and a score of 0 is normal on every subscale. */
  lemma CutoffsIncreasing()
    ensures DepressionCutoffs.normal < DepressionCutoffs.mild < DepressionCutoffs.moderate < DepressionCutoffs.severe
    ensures AnxietyCutoffs.normal < AnxietyCutoffs.mild < AnxietyCutoffs.moderate < AnxietyCutoffs.severe
    ensures StressCutoffs.normal < StressCutoffs.mild < StressCutoffs.moderate < StressCutoffs.severe
    ensures DepressionLevel(0) == AnxietyLevel(0) == StressLevel(0) == Normal
    ensures DepressionLevel(42) == AnxietyLevel(42) == StressLevel(42) == ExtremelySevere
  {
  }

  /** Distinct levels carry distinct labels, so the string comparisons of the source are exact. */
  lemma LevelLabelInjective(l: Level, l': Level)
    ensures LevelLabel(l) == LevelLabel(l') <==> l == l'
  {
  }

  lemma SeverityMonotone(score: int, score': int)
    requires score <= score'
    ensures SeverityRank(SeverityFor(score)) <= SeverityRank(SeverityFor(score'))
  {
  }

  lemma SeverityLabelInjective(v: Severity, v': Severity)
    ensures SeverityLabel(v) == SeverityLabel(v') <==> v == v'
  {
  }

  /**
   * The DASS-21 severity ranges of the DASS manual (Lovibond and Lovibond, 1995) for a score
   * `s` on the doubled scale: depression 0-9, 10-13, 14-20, 21-27, 28+; anxiety 0-7, 8-9,
   * 10-14, 15-19, 20+; stress 0-14, 15-18, 19-25, 26-33, 34+.
   */
  lemma DassBands(s: nat)
    ensures DepressionLevel(s) == Normal <==> s <= 9
    ensures DepressionLevel(s) == Mild <==> 10 <= s <= 13
    ensures DepressionLevel(s) == Moderate <==> 14 <= s <= 20
    ensures DepressionLevel(s) == Severe <==> 21 <= s <= 27
    ensures DepressionLevel(s) == ExtremelySevere <==> 28 <= s
    ensures AnxietyLevel(s) == Normal <==> s <= 7
    ensures AnxietyLevel(s) == Mild <==> 8 <= s <= 9
    ensures AnxietyLevel(s) == Moderate <==> 10 <= s <= 14
    ensures AnxietyLevel(s) == Severe <==> 15 <= s <= 19
    ensures AnxietyLevel(s) == ExtremelySevere <==> 20 <= s
    ensures StressLevel(s) == Normal <==> s <= 14
    ensures StressLevel(s) == Mild <==> 15 <= s <= 18
    ensures StressLevel(s) == Moderate <==> 19 <= s <= 25
    ensures StressLevel(s) == Severe <==> 26 <= s <= 33
    ensures StressLevel(s) == ExtremelySevere <==> 34 <= s
  {
  }

  /** The PHQ-9 bands of Kroenke, Spitzer and Williams (2001): 0-4, 5-9, 10-14, 15-19, 20-27. */
  lemma Phq9Bands(total: nat)
    ensures SeverityFor(total) == Minimal <==> total <= 4
    ensures SeverityFor(total) == MildSymptoms <==> 5 <= total <= 9
    ensures SeverityFor(total) == ModerateSymptoms <==> 10 <= total <= 14
    ensures SeverityFor(total) == ModeratelySevere <==> 15 <= total <= 19
    ensures SeverityFor(total) == SevereSymptoms <==> 20 <= total
  {
  }

  /** With nine answers on the 0..3 scale, the PHQ-9 total lies in 0..27. */
  lemma {:induction false} ValueSumBounds(r: Responses)
    requires AnswersInScale(r)
    ensures 0 <= ValueSum(r) <= 3 * |r|
    decreases |r|
  {
    if |r| > 0 {
      assert AnswersInScale(r[1..]) by {
        forall i | 0 <= i < |r[1..]| ensures 0 <= r[1..][i].1 <= 3 {
          assert r[1..][i] == r[i + 1];
        }
      }
      ValueSumBounds(r[1..]);
    }
  }

  lemma Phq9TotalBounded(r: Responses)
    requires AnswersInScale(r) && |r| == 9
    ensures 0 <= CalculatePhq9(r).totalScore <= 27
  {
    ValueSumBounds(r);
  }

  /** The integration test's answers `{i: i % 4 for i in range(1, 22)}`. */
  const ModFourAnswers: Responses := [(1, 1), (2, 2), (3, 3), (4, 0), (5, 1), (6, 2), (7, 3), (8, 0), (9, 1), (10, 2), (11, 3), (12, 0), (13, 1), (14, 2), (15, 3), (16, 0), (17, 1), (18, 2), (19, 3), (20, 0), (21, 1)]

  /** Those answers score 18, 24 and 20: moderate depression, extremely severe anxiety and
      moderate stress, hence the "see a specialist" analysis. */
  lemma DassExample()
    ensures DepressionScore(ModFourAnswers) == 18
    ensures AnxietyScore(ModFourAnswers) == 24
    ensures StressScore(ModFourAnswers) == 20
    ensures CalculateDassScores(ModFourAnswers).analysis == AnalysisPrefix + SeeSpecialistText
  {
    ModFourAnswersLookup();
    ModFourDepression();
    ModFourAnxiety();
    ModFourStress();
    assert AnxietyLevel(24) == ExtremelySevere;
  }

  lemma ModFourDepression()
    requires forall q :: 1 <= q <= 21 ==> Answer(ModFourAnswers, q) == q % 4
    ensures ItemSum(ModFourAnswers, DepressionItems) == 9
  {
    assert DepressionItems[1..] == [5, 10, 13, 16, 17, 21];
    assert DepressionItems[2..] == [10, 13, 16, 17, 21];
    assert DepressionItems[3..] == [13, 16, 17, 21];
    assert DepressionItems[4..] == [16, 17, 21];
    assert DepressionItems[5..] == [17, 21];
    assert DepressionItems[6..] == [21];
  }

  lemma ModFourAnxiety()
    requires forall q :: 1 <= q <= 21 ==> Answer(ModFourAnswers, q) == q % 4
    ensures ItemSum(ModFourAnswers, AnxietyItems) == 12
  {
    assert AnxietyItems[1..] == [4, 7, 9, 15, 19, 20];
    assert AnxietyItems[2..] == [7, 9, 15, 19, 20];
    assert AnxietyItems[3..] == [9, 15, 19, 20];
    assert AnxietyItems[4..] == [15, 19, 20];
    assert AnxietyItems[5..] == [19, 20];
    assert AnxietyItems[6..] == [20];
  }

  lemma ModFourStress()
    requires forall q :: 1 <= q <= 21 ==> Answer(ModFourAnswers, q) == q % 4
    ensures ItemSum(ModFourAnswers, StressItems) == 10
  {
    assert StressItems[1..] == [6, 8, 11, 12, 14, 18];
    assert StressItems[2..] == [8, 11, 12, 14, 18];
    assert StressItems[3..] == [11, 12, 14, 18];
    assert StressItems[4..] == [12, 14, 18];
    assert StressItems[5..] == [14, 18];
    assert StressItems[6..] == [18];
  }

  lemma ModFourAnswersLookup()
    ensures forall q :: 1 <= q <= 21 ==> Answer(ModFourAnswers, q) == q % 4
  {
    var r := ModFourAnswers;
    assert forall i :: 0 <= i < |r| ==> r[i] == (i + 1, (i + 1) % 4);
    assert IsDict(r);
    forall q | 1 <= q <= 21 ensures Answer(r, q) == q % 4 {
      assert r[q - 1].0 == q;
    }
  }
}
