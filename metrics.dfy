/**
 * The process metrics, complexity score and batch-record template of analytics.py.
 */
module Metrics {
  import opened Wrappers
  import opened Seqs
  import opened Text
  import opened Process

  // ---------------------------------------------------------------- durations

  /** How one step's `时间` field reads: absent, a number of hours, or text `float` rejects where no handler catches it. */
  datatype Duration = NoDuration | Hours(h: real) | Unreadable

  /**
   * Only the bare key `时间` is read. Text holding `天` counts days (×24), text holding `h` hours,
   * after the unit and parentheses are taken out; either failing to parse escapes as an error. Other
   * text parses as hours with 0 for text that does not parse.
   */
  function StepDuration(step: Step): Duration {
    if "时间" !in step.timing then NoDuration
    else match step.timing["时间"]
      case Num(x) => Hours(x)
      case Text(s) =>
        if '天' in s then
          (match ParseFloat(StripUnit(s, '天')) case Some(v) => Hours(v * 24.0) case None => Unreadable)
        else if 'h' in s then
          (match ParseFloat(StripUnit(s, 'h')) case Some(v) => Hours(v) case None => Unreadable)
        else Hours(ParseFloat(s).GetOr(0.0))
  }

  /** The summed hours, or None once some step's duration escapes as an error. */
  function TotalHours(steps: seq<Step>): Option<real> {
    TotalOf(steps, StepDuration)
  }

  /** The running total over a sequence of durations, read off its elements by `dur`. */
  function TotalOf<T>(s: seq<T>, dur: T -> Duration): Option<real>
    decreases |s|
  {
    if |s| == 0 then Some(0.0)
    else AddHours(TotalOf(s[..|s| - 1], dur), dur(s[|s| - 1]))
  }

  /** The running total after one more duration: None once it or the duration is. */
  function AddHours(before: Option<real>, d: Duration): Option<real> {
    if before.None? || d.Unreadable? then None else Some(before.value + HoursOf(d))
  }

  function HoursOf(d: Duration): real {
    if d.Hours? then d.h else 0.0
  }

  /** The hours one step contributes. */
  function StepHours(step: Step): real {
    HoursOf(StepDuration(step))
  }

  /** The total is missing exactly when some step is unreadable, and is otherwise the sum of the step hours. */
  lemma TotalHoursMeaning(steps: seq<Step>)
    ensures TotalHours(steps).None? <==> exists i :: 0 <= i < |steps| && StepDuration(steps[i]).Unreadable?
    ensures TotalHours(steps).Some? ==> TotalHours(steps).value == Sum(steps, StepHours)
  {
    TotalOfMeaning(steps, StepDuration, StepHours);
  }

  lemma {:induction false} TotalOfMeaning<T>(s: seq<T>, dur: T -> Duration, hours: T -> real)
    requires forall x :: hours(x) == HoursOf(dur(x))
    ensures TotalOf(s, dur).None? <==> exists i :: 0 <= i < |s| && dur(s[i]).Unreadable?
    ensures TotalOf(s, dur).Some? ==> TotalOf(s, dur).value == Sum(s, hours)
    decreases |s|
  {
    if |s| > 0 {
      var init := s[..|s| - 1];
      TotalOfMeaning(init, dur, hours);
      assert forall i :: 0 <= i < |init| ==> init[i] == s[i];
    }
  }

  /** Steps that carry no bare `时间` key contribute nothing: such processes total zero hours. */
  lemma {:induction false} NoDurationKeyTotalsZero(steps: seq<Step>)
    requires forall i :: 0 <= i < |steps| ==> "时间" !in steps[i].timing
    ensures TotalHours(steps) == Some(0.0)
    decreases |steps|
  {
    if |steps| > 0 {
      NoDurationKeyTotalsZero(steps[..|steps| - 1]);
    }
  }

  /** A duration written as a whole number of days, such as "2天", reads as that many days of 24 hours. */
  lemma DayDurationHours(step: Step, n: nat)
    requires "时间" in step.timing && step.timing["时间"] == Text(NatToString(n) + "天")
    ensures StepDuration(step) == Hours(n as real * 24.0)
  {
    var d := NatToString(n);
    var s := d + "天";
    assert s[|d|] == '天';
    StripUnitOfDigits(d, '天');
    ParseFloatOfNat(n);
    assert ParseFloat(StripUnit(s, '天')) == Some(n as real);
  }

  /** A duration written as a whole number of hours, such as "6h", reads as that many hours. */
  lemma HourDurationHours(step: Step, n: nat)
    requires "时间" in step.timing && step.timing["时间"] == Text(NatToString(n) + "h")
    ensures StepDuration(step) == Hours(n as real)
  {
    var d := NatToString(n);
    var s := d + "h";
    assert s[|d|] == 'h';
    assert '天' !in s by {
      forall k | 0 <= k < |s| ensures s[k] != '天' { if k < |d| { assert IsDigit(d[k]); } }
    }
    StripUnitOfDigits(d, 'h');
    ParseFloatOfNat(n);
    assert ParseFloat(StripUnit(s, 'h')) == Some(n as real);
  }

  // ---------------------------------------------------------------- metrics

  datatype ProcessMetrics = ProcessMetrics(
    totalSteps: nat,
    totalParameters: nat,
    uniqueEquipment: nat,
    totalTimeHours: real,
    avgParamsPerStep: real,
    complexityScore: real,
    equipmentList: set<string>)

  function ParamCount(steps: seq<Step>): nat
    decreases |steps|
  {
    if |steps| == 0 then 0 else ParamCount(steps[..|steps| - 1]) + |steps[|steps| - 1].params|
  }

  /** Every equipment entry of every step, in order, duplicates kept. */
  function AllEquipment(steps: seq<Step>): seq<string>
    decreases |steps|
  {
    if |steps| == 0 then [] else AllEquipment(steps[..|steps| - 1]) + steps[|steps| - 1].equipment
  }

  /** An item is in the equipment set exactly when some step uses it. */
  lemma {:induction false} AllEquipmentMembers(steps: seq<Step>, x: string)
    ensures x in AllEquipment(steps) <==> exists i, j :: 0 <= i < |steps| && 0 <= j < |steps[i].equipment| && steps[i].equipment[j] == x
    decreases |steps|
  {
    if |steps| > 0 {
      var init, last := steps[..|steps| - 1], steps[|steps| - 1];
      AllEquipmentMembers(init, x);
      assert forall i :: 0 <= i < |init| ==> init[i] == steps[i];
      if x in last.equipment {
        var j :| 0 <= j < |last.equipment| && last.equipment[j] == x;
        assert steps[|steps| - 1].equipment[j] == x;
      }
    }
  }

  /** total / steps, or 0 for no steps. */
  function AverageParams(steps: seq<Step>): real {
    if |steps| > 0 then ParamCount(steps) as real / |steps| as real else 0.0
  }

  /** The metrics, or None when a duration escapes as an error. */
  function ProcessMetricsOf(steps: seq<Step>): Option<ProcessMetrics> {
    match TotalHours(steps)
    case None => None
    case Some(hours) =>
      var equipment := set x | x in AllEquipment(steps);
      Some(ProcessMetrics(|steps|, ParamCount(steps), |equipment|, hours, AverageParams(steps), ComplexityScore(steps), equipment))
  }

  /** `calculate_process_metrics`: the parameter and equipment passes, then the duration pass. */
  method CalculateProcessMetrics(steps: seq<Step>) returns (r: Option<ProcessMetrics>)
    ensures r == ProcessMetricsOf(steps)
  {
    var totalParams := CountParameters(steps);
    var allEquipment := CollectEquipment(steps);
    var unique := set x | x in allEquipment;
    var totalTime := SumDurations(steps);
    if totalTime.None? {
      return None;
    }
    var complexity := CalculateComplexityScore(steps);
    var avg := if |steps| > 0 then totalParams as real / |steps| as real else 0.0;
    r := Some(ProcessMetrics(|steps|, totalParams, |unique|, totalTime.value, avg, complexity, unique));
  }

  /** The parameter pass: the number of parameters over all steps. */
  method CountParameters(steps: seq<Step>) returns (totalParams: nat)
    ensures totalParams == ParamCount(steps)
  {
    totalParams := 0;
    for i := 0 to |steps|
      invariant totalParams == ParamCount(steps[..i])
    {
      PrefixSnoc(steps, i);
      totalParams := totalParams + |steps[i].params|;
    }
    WholePrefix(steps);
  }

  /** The equipment pass: every step's equipment list, concatenated. */
  method CollectEquipment(steps: seq<Step>) returns (allEquipment: seq<string>)
    ensures allEquipment == AllEquipment(steps)
  {
    allEquipment := [];
    for i := 0 to |steps|
      invariant allEquipment == AllEquipment(steps[..i])
    {
      PrefixSnoc(steps, i);
      allEquipment := allEquipment + steps[i].equipment;
    }
    WholePrefix(steps);
  }

  /** The duration pass: hours summed over the steps; None where a duration does not parse. */
  method SumDurations(steps: seq<Step>) returns (total: Option<real>)
    ensures total == TotalHours(steps)
  {
    var totalTime := 0.0;
    for i := 0 to |steps|
      invariant TotalHours(steps[..i]) == Some(totalTime)
    {
      var next := AddDuration(steps, i, totalTime);
      if next.None? {
        TotalHoursPrefixNone(steps, i + 1);
        return None;
      }
      totalTime := next.value;
    }
    WholePrefix(steps);
    total := Some(totalTime);
  }

  /** One round of the duration pass: the running total after step `i`, None where its duration escapes. */
  method AddDuration(steps: seq<Step>, i: nat, t: real) returns (next: Option<real>)
    requires i < |steps| && TotalHours(steps[..i]) == Some(t)
    ensures next == TotalHours(steps[..i + 1])
  {
    var d := ReadDuration(steps[i]);
    TotalHoursStep(steps, i, t);
    next := AddDurationTo(t, d);
  }

  /** Adding one read duration to the running total; an unreadable one ends the pass. */
  method AddDurationTo(t: real, d: Duration) returns (next: Option<real>)
    ensures next == AddHours(Some(t), d)
  {
    match d
    case NoDuration =>
      next := Some(t);
    case Hours(h) =>
      next := Some(t + h);
    case Unreadable =>
      next := None;
  }

  /** The body of the duration pass for one step: the unit tests in the source's order. */
  method ReadDuration(step: Step) returns (d: Duration)
    ensures d == StepDuration(step)
  {
    if "时间" !in step.timing {
      return NoDuration;
    }
    match step.timing["时间"]
    case Num(x) =>
      d := Hours(x);
    case Text(s) =>
      if '天' in s {
        var v := ParseFloat(StripUnit(s, '天'));
        d := if v.None? then Unreadable else Hours(v.value * 24.0);
      } else if 'h' in s {
        var v := ParseFloat(StripUnit(s, 'h'));
        d := if v.None? then Unreadable else Hours(v.value);
      } else {
        d := Hours(ParseFloat(s).GetOr(0.0));
      }
  }

  lemma TotalHoursStep(steps: seq<Step>, i: nat, t: real)
    requires i < |steps| && TotalHours(steps[..i]) == Some(t)
    ensures TotalHours(steps[..i + 1]) == AddHours(Some(t), StepDuration(steps[i]))
  {
    TotalOfStep(steps, StepDuration, i);
  }

  lemma TotalOfStep<T>(s: seq<T>, dur: T -> Duration, i: nat)
    requires i < |s|
    ensures TotalOf(s[..i + 1], dur) == AddHours(TotalOf(s[..i], dur), dur(s[i]))
  {
    PrefixSnoc(s, i);
  }

  /** A total that is missing after some prefix stays missing, whatever follows. */
  lemma TotalHoursPrefixNone(steps: seq<Step>, j: nat)
    requires j <= |steps| && TotalHours(steps[..j]).None?
    ensures TotalHours(steps).None?
  {
    var p := steps[..j];
    TotalHoursMeaning(p);
    var i :| 0 <= i < |p| && StepDuration(p[i]).Unreadable?;
    assert p[i] == steps[i];
    TotalHoursMeaning(steps);
  }

  // ---------------------------------------------------------------- complexity

  /** Parameter weights: 3 for sterility/virus/endotoxin/critical, 2 for temperature/pH/pressure/content, 1 otherwise. */
  function ComplexityParamWeight(p: string): (w: real)
    ensures 1.0 <= w <= 3.0
  {
    if ContainsAny(p, ["无菌", "病毒", "内毒素", "关键"]) then 3.0
    else if ContainsAny(p, ["温度", "pH", "压力", "含量"]) then 2.0
    else 1.0
  }

  /** Equipment weights: 3 for bioreactor/chromatography/lyophiliser, 2 for filling/sterilisation/filtration, 1 otherwise. */
  function ComplexityEquipmentWeight(e: string): (w: real)
    ensures 1.0 <= w <= 3.0
  {
    if ContainsAny(e, ["生物反应器", "层析", "冻干"]) then 3.0
    else if ContainsAny(e, ["灌装", "灭菌", "过滤"]) then 2.0
    else 1.0
  }

  function StepParamPoints(step: Step): real { Sum(step.params, ComplexityParamWeight) }
  function StepEquipmentPoints(step: Step): real { Sum(step.equipment, ComplexityEquipmentWeight) }

  /** 0.5 per step + 0.3 per parameter point + 0.2 per equipment point. */
  function ComplexityScore(steps: seq<Step>): real {
    0.5 * |steps| as real + 0.3 * Sum(steps, StepParamPoints) + 0.2 * Sum(steps, StepEquipmentPoints)
  }

  /** `_calculate_complexity_score`: the nested parameter loops, then the nested equipment loops. */
  method CalculateComplexityScore(steps: seq<Step>) returns (score: real)
    ensures score == ComplexityScore(steps)
  {
    score := |steps| as real * 0.5;
    var criticalParams := 0.0;
    for i := 0 to |steps|
      invariant criticalParams == Sum(steps[..i], StepParamPoints)
    {
      SumStep(steps, StepParamPoints, i);
      var params := steps[i].params;
      var here := 0.0;
      for j := 0 to |params|
        invariant here == Sum(params[..j], ComplexityParamWeight)
      {
        SumStep(params, ComplexityParamWeight, j);
        var param := params[j];
        if ContainsAny(param, ["无菌", "病毒", "内毒素", "关键"]) {
          here := here + 3.0;
        } else if ContainsAny(param, ["温度", "pH", "压力", "含量"]) {
          here := here + 2.0;
        } else {
          here := here + 1.0;
        }
      }
      WholePrefix(params);
      criticalParams := criticalParams + here;
    }
    score := score + criticalParams * 0.3;
    var equipmentScore := 0.0;
    for i := 0 to |steps|
      invariant equipmentScore == Sum(steps[..i], StepEquipmentPoints)
    {
      SumStep(steps, StepEquipmentPoints, i);
      var equipment := steps[i].equipment;
      var here := 0.0;
      for j := 0 to |equipment|
        invariant here == Sum(equipment[..j], ComplexityEquipmentWeight)
      {
        SumStep(equipment, ComplexityEquipmentWeight, j);
        var equip := equipment[j];
        if ContainsAny(equip, ["生物反应器", "层析", "冻干"]) {
          here := here + 3.0;
        } else if ContainsAny(equip, ["灌装", "灭菌", "过滤"]) {
          here := here + 2.0;
        } else {
          here := here + 1.0;
        }
      }
      WholePrefix(equipment);
      equipmentScore := equipmentScore + here;
    }
    WholePrefix(steps);
    score := score + equipmentScore * 0.2;
  }

  function EquipmentCount(steps: seq<Step>): nat { |AllEquipment(steps)| }

  /** Each parameter adds between 0.3 and 0.9 and each equipment item between 0.2 and 0.6 on top of 0.5 per step. */
  lemma {:induction false} ComplexityBounds(steps: seq<Step>)
    ensures var base := 0.5 * |steps| as real;
      var p := ParamCount(steps) as real;
      var e := EquipmentCount(steps) as real;
      base + 0.3 * p + 0.2 * e <= ComplexityScore(steps) <= base + 0.9 * p + 0.6 * e
  {
    PointBounds(steps);
  }

  lemma PointBounds(steps: seq<Step>)
    ensures ParamCount(steps) as real <= Sum(steps, StepParamPoints) <= 3.0 * ParamCount(steps) as real
    ensures EquipmentCount(steps) as real <= Sum(steps, StepEquipmentPoints) <= 3.0 * EquipmentCount(steps) as real
  {
    ParamPointBounds(steps);
    EquipmentPointBounds(steps);
  }

  lemma {:induction false} ParamPointBounds(steps: seq<Step>)
    ensures ParamCount(steps) as real <= Sum(steps, StepParamPoints) <= 3.0 * ParamCount(steps) as real
    decreases |steps|
  {
    if |steps| > 0 {
      var last := steps[|steps| - 1];
      var p := steps[..|steps| - 1];
      ParamPointBounds(p);
      StepParamBounds(last);
      assert Sum(steps, StepParamPoints) == Sum(p, StepParamPoints) + StepParamPoints(last);
      BoundsAdd(ParamCount(p), Sum(p, StepParamPoints), |last.params|, StepParamPoints(last),
        ParamCount(steps), Sum(steps, StepParamPoints));
    }
  }

  lemma {:induction false} EquipmentPointBounds(steps: seq<Step>)
    ensures EquipmentCount(steps) as real <= Sum(steps, StepEquipmentPoints) <= 3.0 * EquipmentCount(steps) as real
    decreases |steps|
  {
    if |steps| > 0 {
      var last := steps[|steps| - 1];
      var p := steps[..|steps| - 1];
      EquipmentPointBounds(p);
      StepEquipmentBounds(last);
      EquipmentStepSplit(steps);
      BoundsAdd(EquipmentCount(p), Sum(p, StepEquipmentPoints), |last.equipment|, StepEquipmentPoints(last),
        EquipmentCount(steps), Sum(steps, StepEquipmentPoints));
    }
  }

  lemma StepParamBounds(step: Step)
    ensures |step.params| as real <= StepParamPoints(step) <= 3.0 * |step.params| as real
  {
    SumBounds(step.params, ComplexityParamWeight, 1.0, 3.0);
  }

  lemma StepEquipmentBounds(step: Step)
    ensures |step.equipment| as real <= StepEquipmentPoints(step) <= 3.0 * |step.equipment| as real
  {
    SumBounds(step.equipment, ComplexityEquipmentWeight, 1.0, 3.0);
  }

  lemma EquipmentStepSplit(steps: seq<Step>)
    requires |steps| > 0
    ensures var p := steps[..|steps| - 1];
      var last := steps[|steps| - 1];
      && Sum(steps, StepEquipmentPoints) == Sum(p, StepEquipmentPoints) + StepEquipmentPoints(last)
      && EquipmentCount(steps) == EquipmentCount(p) + |last.equipment|
  {
  }

  /** Bounds between one and three points per item add up. */
  lemma BoundsAdd(n1: nat, s1: real, n2: nat, s2: real, n: nat, s: real)
    requires n1 as real <= s1 <= 3.0 * n1 as real && n2 as real <= s2 <= 3.0 * n2 as real
    requires n == n1 + n2 && s == s1 + s2
    ensures n as real <= s <= 3.0 * n as real
  {
  }

  // ---------------------------------------------------------------- batch-record template

  /** The header fields of a blank batch record, every value empty. */
  const HeaderFields: seq<string> := ["产品名称", "批号", "生产日期", "有效期至", "批量", "生产线", "班次"]

  /**
   * One step of the template: its number, name, the distinct parameters each getting a blank
   * record (target, actual, limits, unit), the equipment and the raw `时间` field ("" when absent).
   * The signature, QC and remark fields are always blank and are not stored.
   */
  datatype StepTemplate = StepTemplate(
    stepNumber: nat,
    stepName: string,
    parameters: seq<string>,
    equipment: seq<string>,
    timeRequired: Value)

  datatype BatchTemplate = BatchTemplate(header: seq<string>, steps: seq<StepTemplate>)

  function StepTemplateOf(step: Step, number: nat): StepTemplate {
    StepTemplate(number, step.name, Dedup(step.params), step.equipment,
      if "时间" in step.timing then step.timing["时间"] else Text(""))
  }

  /** `generate_batch_record_template`. */
  method GenerateBatchRecordTemplate(product: Product) returns (t: BatchTemplate)
    ensures t.header == HeaderFields
    ensures |t.steps| == |product.steps|
    ensures forall i :: 0 <= i < |t.steps| ==> t.steps[i] == StepTemplateOf(product.steps[i], i + 1)
  {
    var steps := product.steps;
    var out: seq<StepTemplate> := [];
    for i := 0 to |steps|
      invariant |out| == i
      invariant forall k :: 0 <= k < i ==> out[k] == StepTemplateOf(steps[k], k + 1)
    {
      var step := steps[i];
      var keys := UniqueParameters(step.params);
      var time := if "时间" in step.timing then step.timing["时间"] else Text("");
      var entry := StepTemplate(i + 1, step.name, keys, step.equipment, time);
      assert entry == StepTemplateOf(steps[i], i + 1);
      out := out + [entry];
    }
    t := BatchTemplate(HeaderFields, out);
  }

  /** The loop that keeps each parameter name once, at its first occurrence. */
  method UniqueParameters<T(==)>(params: seq<T>) returns (keys: seq<T>)
    ensures keys == Dedup(params)
  {
    keys := [];
    for j := 0 to |params|
      invariant keys == Dedup(params[..j])
    {
      DedupStep(params, j);
      if params[j] !in keys {
        keys := keys + [params[j]];
      }
    }
    WholePrefix(params);
  }

  /** Each template step records every parameter of its step exactly once, and nothing else. */
  lemma TemplateParameters(step: Step, number: nat)
    ensures var ps := StepTemplateOf(step, number).parameters;
      && Distinct(ps)
      && (forall p :: p in ps <==> p in step.params)
  {
    DedupMembers(step.params);
  }
}
