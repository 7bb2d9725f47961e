/**
 * The GMP compliance checker of analytics.py: per-step findings for sterile steps without a
 * sterility parameter and separation steps without a pressure or flow parameter, one finding for a
 * missing description, the severity tally, the gate on severe findings and the first five
 * recommendations.
 */
module Compliance {
  import opened Wrappers
  import opened Seqs
  import opened Text
  import opened Process

  datatype Severity = Severe | Moderate | Minor

  /** The labels the report uses for the three severities. */
  function SeverityLabel(s: Severity): string {
    match s
    case Severe => "严重"
    case Moderate => "中等"
    case Minor => "轻微"
  }

  datatype Finding = Finding(step: string, issue: string, severity: Severity, recommendation: string)

  datatype SeverityCounts = SeverityCounts(severe: nat, moderate: nat, minor: nat)

  datatype ComplianceReport = ComplianceReport(
    gmpClassification: string,
    overallStatus: string,
    items: seq<Finding>,
    counts: SeverityCounts,
    recommendations: seq<string>)

  const Compliant := "合规"
  const NeedsImprovement := "需改进"

  /** Some parameter mentions one of the keys. */
  predicate AnyParamMentions(params: seq<string>, keys: seq<string>) {
    exists i :: 0 <= i < |params| && ContainsAny(params[i], keys)
  }

  /** A sterile step (灭菌/无菌 in its name) with no parameter about sterility. */
  predicate LacksSterilityControl(step: Step) {
    ContainsAny(step.name, ["灭菌", "无菌"]) && !AnyParamMentions(step.params, ["无菌", "灭菌"])
  }

  /** A separation step (过滤/层析/纯化 in its name) with no parameter about pressure or flow. */
  predicate LacksProcessControl(step: Step) {
    ContainsAny(step.name, ["过滤", "层析", "纯化"]) && !AnyParamMentions(step.params, ["压力", "流量"])
  }

  function SterilityFinding(name: string): Finding {
    Finding(name, "无菌步骤缺少无菌保证参数", Severe, "增加无菌相关监测参数")
  }

  function ControlFinding(name: string): Finding {
    Finding(name, "分离步骤缺少过程控制参数", Moderate, "增加压力或流量监测")
  }

  const DescriptionFinding := Finding("整体工艺", "缺少工艺描述", Moderate, "补充工艺描述信息")

  /** The findings of one step, the sterility one first. */
  function StepFindings(step: Step): seq<Finding> {
    (if LacksSterilityControl(step) then [SterilityFinding(step.name)] else [])
    + (if LacksProcessControl(step) then [ControlFinding(step.name)] else [])
  }

  /** The findings of all steps, in step order. */
  function AllStepFindings(steps: seq<Step>): seq<Finding>
    decreases |steps|
  {
    if |steps| == 0 then [] else AllStepFindings(steps[..|steps| - 1]) + StepFindings(steps[|steps| - 1])
  }

  /** Every finding of the check: the step findings, then the description finding when the description is empty. */
  function ComplianceItems(product: Product): seq<Finding> {
    AllStepFindings(product.steps) + (if product.description == "" then [DescriptionFinding] else [])
  }

  function CountSeverity(items: seq<Finding>, sev: Severity): nat {
    Count(items, (f: Finding) => f.severity == sev)
  }

  function SeverityCountsOf(items: seq<Finding>): SeverityCounts {
    SeverityCounts(CountSeverity(items, Severe), CountSeverity(items, Moderate), CountSeverity(items, Minor))
  }

  /** The recommendations of the first five findings, in order. */
  function TopRecommendations(items: seq<Finding>): (r: seq<string>)
    ensures |r| == Min(|items|, 5)
    ensures forall i :: 0 <= i < |r| ==> r[i] == items[i].recommendation
  {
    seq(Min(|items|, 5), i requires 0 <= i < Min(|items|, 5) => items[i].recommendation)
  }

  lemma AllStepFindingsStep(steps: seq<Step>, i: nat)
    requires i < |steps|
    ensures AllStepFindings(steps[..i + 1]) == AllStepFindings(steps[..i]) + StepFindings(steps[i])
  {
    PrefixSnoc(steps, i);
  }

  /** The loop of `check_gmp_compliance` over the steps. */
  method CheckSteps(steps: seq<Step>) returns (items: seq<Finding>)
    ensures items == AllStepFindings(steps)
  {
    items := [];
    for i := 0 to |steps|
      invariant items == AllStepFindings(steps[..i])
    {
      AllStepFindingsStep(steps, i);
      var found := CheckStep(steps[i]);
      items := items + found;
    }
    WholePrefix(steps);
  }

  /** The two checks of one step: sterility parameters, then pressure or flow parameters. */
  method CheckStep(step: Step) returns (found: seq<Finding>)
    ensures found == StepFindings(step)
  {
    found := [];
    if ContainsAny(step.name, ["灭菌", "无菌"]) {
      if !AnyParamMentions(step.params, ["无菌", "灭菌"]) {
        found := found + [SterilityFinding(step.name)];
      }
    }
    if ContainsAny(step.name, ["过滤", "层析", "纯化"]) {
      if !AnyParamMentions(step.params, ["压力", "流量"]) {
        found := found + [ControlFinding(step.name)];
      }
    }
  }

  /** `check_gmp_compliance`. */
  method CheckGmpCompliance(product: Product) returns (r: ComplianceReport)
    ensures r.gmpClassification == product.gmpClass.GetOr("未分类")
    ensures r.items == ComplianceItems(product)
    ensures r.counts == SeverityCountsOf(r.items)
    ensures r.overallStatus == (if r.counts.severe == 0 then Compliant else NeedsImprovement)
    ensures r.recommendations == TopRecommendations(r.items)
  {
    var items := CheckSteps(product.steps);
    if product.description == "" {
      items := items + [DescriptionFinding];
    }
    var counts := SeverityCountsOf(items);
    var status := if counts.severe == 0 then Compliant else NeedsImprovement;
    r := ComplianceReport(product.gmpClass.GetOr("未分类"), status, items, counts, TopRecommendations(items));
  }

  // ---------------------------------------------------------------- properties

  /** A step yields at most one severe finding, at most one moderate one, never a minor one; each exactly when its gap is present. */
  lemma StepFindingsShape(step: Step)
    ensures |StepFindings(step)| <= 2
    ensures CountSeverity(StepFindings(step), Severe) == (if LacksSterilityControl(step) then 1 else 0)
    ensures CountSeverity(StepFindings(step), Moderate) == (if LacksProcessControl(step) then 1 else 0)
    ensures CountSeverity(StepFindings(step), Minor) == 0
  {
    var a := if LacksSterilityControl(step) then [SterilityFinding(step.name)] else [];
    var b := if LacksProcessControl(step) then [ControlFinding(step.name)] else [];
    CountConcat(a, b, (f: Finding) => f.severity == Severe);
    CountConcat(a, b, (f: Finding) => f.severity == Moderate);
    CountConcat(a, b, (f: Finding) => f.severity == Minor);
  }

  /** Across the steps: one severe finding per sterile step lacking control, one moderate per separation step lacking control, no minor ones. */
  lemma {:induction false} AllStepFindingsCounts(steps: seq<Step>)
    ensures CountSeverity(AllStepFindings(steps), Severe) == Count(steps, LacksSterilityControl)
    ensures CountSeverity(AllStepFindings(steps), Moderate) == Count(steps, LacksProcessControl)
    ensures CountSeverity(AllStepFindings(steps), Minor) == 0
    decreases |steps|
  {
    if |steps| > 0 {
      var init, last := steps[..|steps| - 1], steps[|steps| - 1];
      AllStepFindingsCounts(init);
      StepFindingsShape(last);
      CountConcat(AllStepFindings(init), StepFindings(last), (f: Finding) => f.severity == Severe);
      CountConcat(AllStepFindings(init), StepFindings(last), (f: Finding) => f.severity == Moderate);
      CountConcat(AllStepFindings(init), StepFindings(last), (f: Finding) => f.severity == Minor);
    }
  }

  /** The tally of the whole report, including the description finding. */
  lemma ComplianceCounts(product: Product)
    ensures var c := SeverityCountsOf(ComplianceItems(product));
      && c.severe == Count(product.steps, LacksSterilityControl)
      && c.moderate == Count(product.steps, LacksProcessControl) + (if product.description == "" then 1 else 0)
      && c.minor == 0
      && c.severe + c.moderate + c.minor == |ComplianceItems(product)|
  {
    var a := AllStepFindings(product.steps);
    var b: seq<Finding> := if product.description == "" then [DescriptionFinding] else [];
    AllStepFindingsCounts(product.steps);
    CountConcat(a, b, (f: Finding) => f.severity == Severe);
    CountConcat(a, b, (f: Finding) => f.severity == Moderate);
    CountConcat(a, b, (f: Finding) => f.severity == Minor);
    SeverityPartition(a + b);
  }

  /** Every finding has exactly one severity, so the three counts add up to the number of findings. */
  lemma {:induction false} SeverityPartition(items: seq<Finding>)
    ensures CountSeverity(items, Severe) + CountSeverity(items, Moderate) + CountSeverity(items, Minor) == |items|
    decreases |items|
  {
    if |items| > 0 {
      SeverityPartition(items[..|items| - 1]);
    }
  }

  /** The process is compliant exactly when no sterile step lacks a sterility parameter. */
  lemma ComplianceGate(product: Product)
    ensures var r := SeverityCountsOf(ComplianceItems(product));
      r.severe == 0 <==> forall i :: 0 <= i < |product.steps| ==> !LacksSterilityControl(product.steps[i])
  {
    ComplianceCounts(product);
    CountZero(product.steps, LacksSterilityControl);
  }

  /** A described process without steps has no findings and is compliant. */
  lemma EmptyProcessCompliant(product: Product)
    requires product.steps == [] && product.description != ""
    ensures ComplianceItems(product) == []
    ensures SeverityCountsOf(ComplianceItems(product)).severe == 0
  {
  }

  /** One described filtration step with no parameters draws exactly one moderate finding naming that step. */
  lemma FiltrationWithoutControlScenario(description: string)
    requires description != ""
    ensures var step := Step("过滤", [], [], [], map[]);
      var items := ComplianceItems(Product(description, None, [step], [], [], [], [], []));
      items == [ControlFinding("过滤")] && items[0].severity == Moderate
  {
    var step := Step("过滤", [], [], [], map[]);
    NotContainsMissingChar("过滤", "灭菌", '灭');
    NotContainsMissingChar("过滤", "无菌", '无');
    assert !LacksSterilityControl(step);
    var keys := ["过滤", "层析", "纯化"];
    assert IsPrefix(keys[0], step.name);
    assert Contains(step.name, keys[0]);
    assert ContainsAny(step.name, keys);
    assert !AnyParamMentions(step.params, ["压力", "流量"]);
    assert LacksProcessControl(step);
    assert [step][..0] == [];
  }
}
