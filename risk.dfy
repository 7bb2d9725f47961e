/**
 * The risk assessor of analytics.py: a keyword score per step, a 1.5 weight on critical steps,
 * the total and average, a five-tier level and a fixed-shape recommendation list.
 */
module Risk {
  import opened Seqs
  import opened Text
  import opened Process

  const CriticalStepKeywords: seq<string> := ["灭菌", "无菌", "灌装", "层析", "病毒"]
  const ControlParamKeywords: seq<string> := ["温度", "压力", "pH", "时间"]
  const SterilityParamKeywords: seq<string> := ["无菌", "病毒", "内毒素"]
  const QualityParamKeywords: seq<string> := ["含量", "纯度", "杂质"]
  const HeavyEquipmentKeywords: seq<string> := ["生物反应器", "层析", "冻干", "灭菌"]
  const MediumEquipmentKeywords: seq<string> := ["灌装", "过滤", "离心"]

  /** The three independent parameter checks: +1 control, +3 sterility, +2 quality. */
  function ParamRisk(p: string): (r: real)
    ensures 0.0 <= r <= 6.0
    ensures ContainsAny(p, SterilityParamKeywords) ==> r >= 3.0
  {
    (if ContainsAny(p, ControlParamKeywords) then 1.0 else 0.0)
    + (if ContainsAny(p, SterilityParamKeywords) then 3.0 else 0.0)
    + (if ContainsAny(p, QualityParamKeywords) then 2.0 else 0.0)
  }

  /** Each equipment item contributes exactly one of 2, 1.5 or 1. */
  function EquipmentRisk(e: string): (r: real)
    ensures r == 2.0 || r == 1.5 || r == 1.0
  {
    if ContainsAny(e, HeavyEquipmentKeywords) then 2.0
    else if ContainsAny(e, MediumEquipmentKeywords) then 1.5
    else 1.0
  }

  /** The unweighted score of one step: its parameter terms plus its equipment terms. */
  function BaseScore(step: Step): real {
    Sum(step.params, ParamRisk) + Sum(step.equipment, EquipmentRisk)
  }

  /** The base score is never below the equipment count (so never negative) and never above its largest possible value. */
  lemma BaseScoreBounds(step: Step)
    ensures |step.equipment| as real <= BaseScore(step)
    ensures BaseScore(step) <= 6.0 * |step.params| as real + 2.0 * |step.equipment| as real
  {
    SumBounds(step.params, ParamRisk, 0.0, 6.0);
    SumBounds(step.equipment, EquipmentRisk, 1.0, 2.0);
  }

  /** `_evaluate_step_risk_factors`: the two loops accumulating the base score. */
  method EvaluateStepRiskFactors(step: Step) returns (score: real)
    ensures score == BaseScore(step)
  {
    score := 0.0;
    var params := step.params;
    for i := 0 to |params|
      invariant score == Sum(params[..i], ParamRisk)
    {
      SumStep(params, ParamRisk, i);
      var param := params[i];
      if ContainsAny(param, ControlParamKeywords) {
        score := score + 1.0;
      }
      if ContainsAny(param, SterilityParamKeywords) {
        score := score + 3.0;
      }
      if ContainsAny(param, QualityParamKeywords) {
        score := score + 2.0;
      }
    }
    WholePrefix(params);
    var equipment := step.equipment;
    for j := 0 to |equipment|
      invariant score == Sum(params, ParamRisk) + Sum(equipment[..j], EquipmentRisk)
    {
      SumStep(equipment, EquipmentRisk, j);
      var equip := equipment[j];
      if ContainsAny(equip, HeavyEquipmentKeywords) {
        score := score + 2.0;
      } else if ContainsAny(equip, MediumEquipmentKeywords) {
        score := score + 1.5;
      } else {
        score := score + 1.0;
      }
    }
    WholePrefix(equipment);
  }

  predicate IsCritical(step: Step) {
    ContainsAny(step.name, CriticalStepKeywords)
  }

  /** The weighted step score: 1.5 times the base for a critical step. */
  function StepScore(step: Step): real {
    if IsCritical(step) then BaseScore(step) * 1.5 else BaseScore(step)
  }

  /**
   * Adding one parameter to a step adds that parameter's term, weighted like the step; in
   * particular a sterility-related parameter strictly raises the score.
   */
  lemma {:induction false} AddParamRaisesScore(step: Step, p: string)
    ensures var bigger := step.(params := step.params + [p]);
      StepScore(bigger) == StepScore(step) + (if IsCritical(step) then 1.5 else 1.0) * ParamRisk(p)
    ensures ContainsAny(p, SterilityParamKeywords) ==>
      StepScore(step.(params := step.params + [p])) > StepScore(step)
  {
    var s := step.params + [p];
    assert s[..|s| - 1] == step.params;
  }

  // ---------------------------------------------------------------- risk factors

  const AsepticRisk := "无菌操作风险"
  const BiosafetyRisk := "生物安全风险"
  const TemperatureRisk := "温度控制风险"
  const PressureRisk := "压力控制风险"
  const AcidityRisk := "pH控制风险"

  const KnownRiskFactors: set<string> := {AsepticRisk, BiosafetyRisk, TemperatureRisk, PressureRisk, AcidityRisk}

  predicate SomeParamContains(params: seq<string>, key: string) {
    exists i :: 0 <= i < |params| && Contains(params[i], key)
  }

  /** The factors read off the step name. */
  function NameFactors(name: string): set<string> {
    (if ContainsAny(name, ["灭菌", "无菌"]) then {AsepticRisk} else {})
    + (if ContainsAny(name, ["病毒", "生物"]) then {BiosafetyRisk} else {})
  }

  /** The factors read off the parameters: temperature, pressure, pH anywhere among them. */
  function ParamFactors(params: seq<string>): set<string> {
    (if SomeParamContains(params, "温度") then {TemperatureRisk} else {})
    + (if SomeParamContains(params, "压力") then {PressureRisk} else {})
    + (if SomeParamContains(params, "pH") then {AcidityRisk} else {})
  }

  /** The named risk factors of a step; `list(set(...))` leaves their order to Python's hashing, so a set. */
  function RiskFactors(step: Step): (f: set<string>)
    ensures f <= KnownRiskFactors
  {
    NameFactors(step.name) + ParamFactors(step.params)
  }

  /** The factors of one more parameter join those of the ones before. */
  lemma ParamFactorsStep(params: seq<string>, i: nat)
    requires i < |params|
    ensures ParamFactors(params[..i + 1]) == ParamFactors(params[..i]) + ParamFactors([params[i]])
  {
    SomeParamContainsStep(params, i, "温度");
    SomeParamContainsStep(params, i, "压力");
    SomeParamContainsStep(params, i, "pH");
  }

  /** One more parameter contains `key` exactly when it or one before does. */
  lemma SomeParamContainsStep(params: seq<string>, i: nat, key: string)
    requires i < |params|
    ensures SomeParamContains(params[..i + 1], key) <==>
      SomeParamContains(params[..i], key) || SomeParamContains([params[i]], key)
  {
    var a, b := params[..i], params[..i + 1];
    assert forall k :: 0 <= k < i ==> b[k] == a[k];
    assert b[i] == params[i];
    assert [params[i]][0] == params[i];
    if SomeParamContains(b, key) {
      var k :| 0 <= k < |b| && Contains(b[k], key);
      if k == i {
        assert Contains([params[i]][0], key);
      }
    }
    if SomeParamContains(a, key) {
      var k :| 0 <= k < |a| && Contains(a[k], key);
      assert Contains(b[k], key);
    }
    if SomeParamContains([params[i]], key) {
      assert Contains(b[i], key);
    }
  }

  lemma ParamFactorsSingle(p: string)
    ensures ParamFactors([p]) == (if Contains(p, "温度") then {TemperatureRisk} else {})
      + (if Contains(p, "压力") then {PressureRisk} else {}) + (if Contains(p, "pH") then {AcidityRisk} else {})
  {
    assert [p][0] == p;
  }

  /** The pass over the parameters of `_identify_risk_factors`. */
  method ParamRiskFactors(params: seq<string>) returns (found: set<string>)
    ensures found == ParamFactors(params)
  {
    found := {};
    for i := 0 to |params|
      invariant found == ParamFactors(params[..i])
    {
      ParamFactorsStep(params, i);
      var param := params[i];
      ParamFactorsSingle(param);
      if Contains(param, "温度") {
        found := found + {TemperatureRisk};
      }
      if Contains(param, "压力") {
        found := found + {PressureRisk};
      }
      if Contains(param, "pH") {
        found := found + {AcidityRisk};
      }
    }
    WholePrefix(params);
  }

  /** `_identify_risk_factors`: the name checks, then one pass over the parameters. */
  method IdentifyRiskFactors(step: Step) returns (factors: set<string>)
    ensures factors == RiskFactors(step)
  {
    factors := {};
    if ContainsAny(step.name, ["灭菌", "无菌"]) {
      factors := factors + {AsepticRisk};
    }
    if ContainsAny(step.name, ["病毒", "生物"]) {
      factors := factors + {BiosafetyRisk};
    }
    var found := ParamRiskFactors(step.params);
    factors := factors + found;
  }

  /** Each parameter-driven factor is present iff some parameter names its quantity. */
  lemma RiskFactorsByParam(step: Step)
    ensures TemperatureRisk in RiskFactors(step) <==> exists i :: 0 <= i < |step.params| && Contains(step.params[i], "温度")
    ensures PressureRisk in RiskFactors(step) <==> exists i :: 0 <= i < |step.params| && Contains(step.params[i], "压力")
    ensures AcidityRisk in RiskFactors(step) <==> exists i :: 0 <= i < |step.params| && Contains(step.params[i], "pH")
    ensures AsepticRisk in RiskFactors(step) <==> ContainsAny(step.name, ["灭菌", "无菌"])
    ensures BiosafetyRisk in RiskFactors(step) <==> ContainsAny(step.name, ["病毒", "生物"])
  {
  }

  // ---------------------------------------------------------------- level

  const LevelCritical := "极高风险 (红色)"
  const LevelHigh := "高风险 (橙色)"
  const LevelMedium := "中风险 (黄色)"
  const LevelLow := "低风险 (蓝色)"
  const LevelAcceptable := "可接受风险 (绿色)"

  /** `_determine_risk_level`: closed lower bounds at 8, 6, 4 and 2. */
  function DetermineRiskLevel(score: real): (level: string)
    ensures level in {LevelCritical, LevelHigh, LevelMedium, LevelLow, LevelAcceptable}
    ensures level == LevelCritical <==> score >= 8.0
    ensures level == LevelAcceptable <==> score < 2.0
  {
    if score >= 8.0 then LevelCritical
    else if score >= 6.0 then LevelHigh
    else if score >= 4.0 then LevelMedium
    else if score >= 2.0 then LevelLow
    else LevelAcceptable
  }

  /** The position of a level in the order acceptable < low < medium < high < critical. */
  function LevelRank(level: string): nat {
    if level == LevelCritical then 4
    else if level == LevelHigh then 3
    else if level == LevelMedium then 2
    else if level == LevelLow then 1
    else 0
  }

  /** A higher average never gives a lower level. */
  lemma RiskLevelMonotone(a: real, b: real)
    requires a <= b
    ensures LevelRank(DetermineRiskLevel(a)) <= LevelRank(DetermineRiskLevel(b))
  {
  }

  /** The level's rank counts the thresholds 2, 4, 6, 8 that the score reaches. */
  lemma RiskLevelThresholds(score: real)
    ensures LevelRank(DetermineRiskLevel(score))
      == (if score >= 2.0 then 1 else 0) + (if score >= 4.0 then 1 else 0)
       + (if score >= 6.0 then 1 else 0) + (if score >= 8.0 then 1 else 0)
  {
  }

  // ---------------------------------------------------------------- recommendations

  const ControlRecommendations: seq<string> := ["建议进行详细的工艺验证和风险评估", "建立额外的过程控制和监测点", "实施更严格的变更控制程序"]
  const ClosingRecommendations: seq<string> := ["定期进行质量回顾和趋势分析", "确保操作人员经过充分培训"]

  /** The level holds "极高风险" or "高风险" as a substring. */
  predicate IsHighLevel(level: string) {
    Contains(level, "极高风险") || Contains(level, "高风险")
  }

  /** The control lines are emitted exactly for the two top levels, i.e. exactly when the average reaches 6. */
  lemma HighLevelExactly(score: real)
    ensures IsHighLevel(DetermineRiskLevel(score)) <==> score >= 6.0
  {
    var level := DetermineRiskLevel(score);
    if score >= 8.0 {
      assert IsPrefix("极高风险", level);
    } else if score >= 6.0 {
      assert IsPrefix("高风险", level);
    } else {
      assert '高' !in level;
      NotContainsMissingChar(level, "极高风险", '高');
      NotContainsMissingChar(level, "高风险", '高');
    }
  }

  datatype CriticalStep = CriticalStep(step: string, stepNumber: nat, riskLevel: string, riskScore: real)

  const CriticalMark := "关键"

  function CriticalStepLine(c: CriticalStep): string {
    "  - 步骤" + NatToString(c.stepNumber) + ": " + c.step
  }

  function CriticalCountLine(k: nat): string {
    "重点监控" + NatToString(k) + "个关键步骤"
  }

  /**
   * `_generate_risk_recommendations`: three control lines iff the level is high or critical; for
   * k > 0 critical steps a count line and the first min(k, 3) step lines; always the two closing lines.
   */
  function RiskRecommendations(level: string, critical: seq<CriticalStep>): (r: seq<string>)
    ensures |r| == 2 + (if IsHighLevel(level) then 3 else 0) + (if |critical| > 0 then 1 + Min(|critical|, 3) else 0)
    ensures IsHighLevel(level) ==> r[..3] == ControlRecommendations
    ensures r[|r| - 2..] == ClosingRecommendations
    ensures |critical| > 0 ==> r[if IsHighLevel(level) then 3 else 0] == CriticalCountLine(|critical|)
    ensures forall j :: 0 <= j < Min(|critical|, 3) ==>
      r[(if IsHighLevel(level) then 3 else 0) + 1 + j] == CriticalStepLine(critical[j])
  {
    var shown := critical[..Min(|critical|, 3)];
    (if IsHighLevel(level) then ControlRecommendations else [])
    + (if |critical| > 0 then [CriticalCountLine(|critical|)] + seq(|shown|, j requires 0 <= j < |shown| => CriticalStepLine(shown[j])) else [])
    + ClosingRecommendations
  }

  /** The list built line by line, as the source appends it. */
  method GenerateRiskRecommendations(level: string, critical: seq<CriticalStep>) returns (recs: seq<string>)
    ensures recs == RiskRecommendations(level, critical)
  {
    recs := [];
    if IsHighLevel(level) {
      recs := recs + ControlRecommendations;
    }
    var shown := critical[..Min(|critical|, 3)];
    ghost var middle := if |critical| > 0 then [CriticalCountLine(|critical|)] + seq(|shown|, j requires 0 <= j < |shown| => CriticalStepLine(shown[j])) else [];
    if |critical| > 0 {
      var lines := CriticalStepLines(shown);
      recs := recs + ([CriticalCountLine(|critical|)] + lines);
    }
    assert recs == (if IsHighLevel(level) then ControlRecommendations else []) + middle;
    recs := recs + ClosingRecommendations;
  }

  /** One line per shown critical step, in order. */
  method CriticalStepLines(shown: seq<CriticalStep>) returns (lines: seq<string>)
    ensures lines == seq(|shown|, k requires 0 <= k < |shown| => CriticalStepLine(shown[k]))
  {
    lines := [];
    for j := 0 to |shown|
      invariant lines == seq(j, k requires 0 <= k < j => CriticalStepLine(shown[k]))
    {
      lines := lines + [CriticalStepLine(shown[j])];
    }
  }

  // ---------------------------------------------------------------- assessment

  datatype HighRiskStep = HighRiskStep(step: string, riskScore: real, factors: set<string>)

  datatype RiskAssessment = RiskAssessment(
    totalRiskScore: real,
    averageRiskScore: real,
    riskLevel: string,
    criticalSteps: seq<CriticalStep>,
    highRiskFactors: seq<HighRiskStep>,
    recommendations: seq<string>)

  function TotalRiskScore(steps: seq<Step>): real {
    Sum(steps, StepScore)
  }

  /** total / max(len(steps), 1). */
  function AverageRiskScore(steps: seq<Step>): real {
    TotalRiskScore(steps) / (if |steps| > 0 then |steps| as real else 1.0)
  }

  /** The entry for the step at position `i`, numbered from 1. */
  function CriticalEntry(step: Step, i: nat): CriticalStep {
    CriticalStep(step.name, i + 1, CriticalMark, StepScore(step))
  }

  /** The critical steps, in step order, numbered from 1. */
  function CriticalSteps(steps: seq<Step>): seq<CriticalStep> {
    MapWhere(steps, IsCritical, CriticalEntry)
  }

  predicate IsHighRisk(step: Step) {
    StepScore(step) > 5.0
  }

  function HighRiskEntry(step: Step): HighRiskStep {
    HighRiskStep(step.name, StepScore(step), RiskFactors(step))
  }

  /** The entry for a high-risk step; its position is not recorded. */
  function HighRiskEntryAt(step: Step, i: nat): HighRiskStep {
    HighRiskEntry(step)
  }

  /** The steps whose weighted score exceeds 5, in step order. */
  function HighRiskSteps(steps: seq<Step>): seq<HighRiskStep> {
    MapWhere(steps, IsHighRisk, HighRiskEntryAt)
  }

  /** The loop body of `assess_process_risk` for the step at position `i`: its weighted score and what it adds to the two lists. */
  method AssessStep(step: Step, i: nat) returns (stepRisk: real, crit: seq<CriticalStep>, high: seq<HighRiskStep>)
    ensures stepRisk == StepScore(step)
    ensures crit == if IsCritical(step) then [CriticalEntry(step, i)] else []
    ensures high == if IsHighRisk(step) then [HighRiskEntryAt(step, i)] else []
  {
    stepRisk := EvaluateStepRiskFactors(step);
    crit := [];
    if ContainsAny(step.name, CriticalStepKeywords) {
      stepRisk := stepRisk * 1.5;
      crit := [CriticalStep(step.name, i + 1, CriticalMark, stepRisk)];
    }
    high := [];
    if stepRisk > 5.0 {
      var named := IdentifyRiskFactors(step);
      high := [HighRiskStep(step.name, stepRisk, named)];
    }
  }

  /** `assess_process_risk`: one pass over the steps, then the average, level and recommendations. */
  method AssessProcessRisk(steps: seq<Step>) returns (r: RiskAssessment)
    ensures r.totalRiskScore == TotalRiskScore(steps)
    ensures r.averageRiskScore == AverageRiskScore(steps)
    ensures r.riskLevel == DetermineRiskLevel(r.averageRiskScore)
    ensures r.criticalSteps == CriticalSteps(steps)
    ensures r.highRiskFactors == HighRiskSteps(steps)
    ensures r.recommendations == RiskRecommendations(r.riskLevel, r.criticalSteps)
  {
    var riskScore := 0.0;
    var critical: seq<CriticalStep> := [];
    var factors: seq<HighRiskStep> := [];
    for i := 0 to |steps|
      invariant riskScore == Sum(steps[..i], StepScore)
      invariant critical == CriticalSteps(steps[..i])
      invariant factors == HighRiskSteps(steps[..i])
    {
      SumStep(steps, StepScore, i);
      MapWhereStep(steps, IsCritical, CriticalEntry, i);
      MapWhereStep(steps, IsHighRisk, HighRiskEntryAt, i);
      var stepRisk, crit, high := AssessStep(steps[i], i);
      critical := critical + crit;
      riskScore := riskScore + stepRisk;
      factors := factors + high;
    }
    WholePrefix(steps);
    var avg := riskScore / (if |steps| > 0 then |steps| as real else 1.0);
    var level := DetermineRiskLevel(avg);
    var recs := GenerateRiskRecommendations(level, critical);
    r := RiskAssessment(riskScore, avg, level, critical, factors, recs);
  }

  // ---------------------------------------------------------------- properties

  /** Each entry of the critical-step list is a critical step, with its 1-based number, name and 1.5-weighted score. */
  lemma CriticalStepsSound(steps: seq<Step>)
    ensures var cs := CriticalSteps(steps);
      forall j :: 0 <= j < |cs| ==>
        1 <= cs[j].stepNumber <= |steps|
        && IsCritical(steps[cs[j].stepNumber - 1])
        && cs[j].step == steps[cs[j].stepNumber - 1].name
        && cs[j].riskScore == 1.5 * BaseScore(steps[cs[j].stepNumber - 1])
  {
    forall j | 0 <= j < |CriticalSteps(steps)|
      ensures var c := CriticalSteps(steps)[j];
        1 <= c.stepNumber <= |steps|
        && IsCritical(steps[c.stepNumber - 1])
        && c.step == steps[c.stepNumber - 1].name
        && c.riskScore == 1.5 * BaseScore(steps[c.stepNumber - 1])
    {
      CriticalEntrySound(steps, j);
    }
  }

  lemma CriticalEntrySound(steps: seq<Step>, j: nat)
    requires j < |CriticalSteps(steps)|
    ensures var c := CriticalSteps(steps)[j];
      1 <= c.stepNumber <= |steps|
      && IsCritical(steps[c.stepNumber - 1])
      && c.step == steps[c.stepNumber - 1].name
      && c.riskLevel == CriticalMark
      && c.riskScore == 1.5 * BaseScore(steps[c.stepNumber - 1])
  {
    var idx := IndicesWhere(steps, IsCritical);
    MapWhereAt(steps, IsCritical, CriticalEntry);
    var n := idx[j];
    var step := steps[n];
    var c := CriticalSteps(steps)[j];
    assert c == CriticalEntry(step, n);
    assert IsCritical(step);
    assert c.stepNumber - 1 == n;
  }

  /** The critical-step list names every critical step once, in step order. */
  lemma CriticalStepsComplete(steps: seq<Step>)
    ensures var cs := CriticalSteps(steps);
      && (forall j, k :: 0 <= j < k < |cs| ==> cs[j].stepNumber < cs[k].stepNumber)
      && (forall i :: 0 <= i < |steps| && IsCritical(steps[i]) ==>
            exists j :: 0 <= j < |cs| && cs[j].stepNumber == i + 1)
      && |cs| == Count(steps, IsCritical)
  {
    var idx := IndicesWhere(steps, IsCritical);
    var cs := CriticalSteps(steps);
    MapWhereAt(steps, IsCritical, CriticalEntry);
    assert forall j :: 0 <= j < |cs| ==> cs[j].stepNumber == idx[j] + 1;
    forall i | 0 <= i < |steps| && IsCritical(steps[i])
      ensures exists j :: 0 <= j < |cs| && cs[j].stepNumber == i + 1
    {
      var j :| 0 <= j < |idx| && idx[j] == i;
      assert cs[j].stepNumber == i + 1;
    }
  }

  /** The high-risk list holds exactly the steps scoring above 5, in step order, with their named factors. */
  lemma HighRiskStepsExact(steps: seq<Step>)
    ensures var idx := IndicesWhere(steps, IsHighRisk);
      var hs := HighRiskSteps(steps);
      && |hs| == |idx|
      && (forall j :: 0 <= j < |hs| ==> hs[j].riskScore > 5.0 && hs[j] == HighRiskEntry(steps[idx[j]]))
      && (forall i :: 0 <= i < |steps| ==> (StepScore(steps[i]) > 5.0 <==> i in idx))
  {
    var idx := IndicesWhere(steps, IsHighRisk);
    var hs := HighRiskSteps(steps);
    MapWhereAt(steps, IsHighRisk, HighRiskEntryAt);
    forall j | 0 <= j < |hs|
      ensures hs[j].riskScore > 5.0 && hs[j] == HighRiskEntry(steps[idx[j]])
    {
      assert hs[j] == HighRiskEntryAt(steps[idx[j]], idx[j]);
      assert IsHighRisk(steps[idx[j]]);
    }
  }

  /** An empty process has zero total and zero average, hence the acceptable level. */
  lemma EmptyProcessAcceptable()
    ensures TotalRiskScore([]) == 0.0 && AverageRiskScore([]) == 0.0
    ensures DetermineRiskLevel(AverageRiskScore([])) == LevelAcceptable
  {
  }

  /**
   * A single sterilisation step controlling temperature and sterility on a sterilizer is the one
   * critical step (number 1), scores above 5 and is rated at least medium.
   */
  lemma SterilizationScenario()
    ensures var step := Step("灭菌", ["温度控制", "无菌保证"], ["灭菌柜"], [], map[]);
      && CriticalSteps([step]) == [CriticalEntry(step, 0)]
      && CriticalEntry(step, 0).stepNumber == 1
      && TotalRiskScore([step]) > 5.0
      && LevelRank(DetermineRiskLevel(AverageRiskScore([step]))) >= 2
  {
    var step := Step("灭菌", ["温度控制", "无菌保证"], ["灭菌柜"], [], map[]);
    assert IsPrefix(CriticalStepKeywords[0], step.name);
    assert IsCritical(step);
    assert IsPrefix(ControlParamKeywords[0], step.params[0]);
    assert IsPrefix(SterilityParamKeywords[0], step.params[1]);
    assert ParamRisk(step.params[0]) >= 1.0;
    assert ParamRisk(step.params[1]) >= 3.0;
    assert step.params[..1] == [step.params[0]];
    assert [step.params[0]][..0] == [];
    assert Sum(step.params, ParamRisk) >= 4.0;
    assert step.equipment[..0] == [];
    assert Sum(step.equipment, EquipmentRisk) >= 1.0;
    assert [step][..0] == [];
    assert StepScore(step) >= 7.5;
    assert Sum([step], StepScore) == Sum([step][..0], StepScore) + StepScore(step);
    assert AverageRiskScore([step]) == TotalRiskScore([step]);
    RiskLevelMonotone(4.0, AverageRiskScore([step]));
  }
}
