/**
 * The batch-record synthesizer of mes_features.py. Each batch n (1..N) reseeds the generator
 * with n, so its draws are a function of n alone: `seeded(n)` supplies them. A normal draw is
 * `loc + scale * gauss(k)` for the k-th normal draw of the batch, a uniform one `lo + (hi - lo) * u`,
 * a plain choice among m options takes the option at `index % m`. Dates are day numbers.
 */
module BatchRecords {
  import opened Wrappers
  import opened Seqs
  import opened Text
  import opened Assoc
  import opened Process

  /** The draws one seed yields, in the order the generator consumes them. */
  datatype Draws = Draws(
    sizeIndex: nat,
    lineIndex: nat,
    shiftIndex: nat,
    yieldU: real,
    qualityU: real,
    statusU: real,
    gauss: nat -> real)

  const BatchSizes: seq<nat> := [100, 200, 300, 500]
  const Lines: seq<string> := ["Line-1", "Line-2", "Line-3"]
  const Shifts: seq<string> := ["A", "B", "C"]

  const InRange := "正常"
  const Deviating := "偏离"

  /** `choice(["合格", "待定", "不合格"], p=[0.95, 0.04, 0.01])`: the first option whose cumulative weight exceeds u. */
  function QualityChoice(u: real): string {
    if u < 0.95 then "合格" else if u < 0.99 then "待定" else "不合格"
  }

  function OverallStatusOf(u: real): string {
    if u > 0.1 then "通过" else "需调查"
  }

  function Uniform(lo: real, hi: real, u: real): real {
    lo + (hi - lo) * u
  }

  // ---------------------------------------------------------------- parameter readings

  datatype ParamKind = Temperature | Pressure | Acidity | Duration | Other

  /**
   * The branch a parameter takes, tested in the source's order. The acidity test looks for "pH"
   * in the lower-cased name, which can never hold it.
   */
  function ClassifyParam(p: string): ParamKind {
    if Contains(p, "温度") then Temperature
    else if Contains(p, "压力") then Pressure
    else if Contains(Lower(p), "pH") then Acidity
    else if Contains(p, "时间") then Duration
    else Other
  }

  /** No parameter reaches the acidity branch: a lower-cased name has no capital H. */
  lemma AcidityBranchUnreachable(p: string)
    ensures ClassifyParam(p) != Acidity
  {
    LowerNeverContainsUpperH(p);
  }

  /**
   * The duration target: the step's `时间` field, "4h" when absent. Text with `天` counts days,
   * text with `h` hours; anything else, a parse failure, and a number (where `in` raises
   * TypeError) all fall back to 4 hours. A negative target can only come from a `天` or `h` text.
   */
  function DurationTarget(step: Step): (t: real)
    ensures "时间" !in step.timing ==> t == 4.0
    ensures "时间" in step.timing && step.timing["时间"].Num? ==> t == 4.0
    ensures "时间" in step.timing && step.timing["时间"].Text? && '天' !in step.timing["时间"].s && 'h' !in step.timing["时间"].s ==> t == 4.0
    ensures "时间" in step.timing && step.timing["时间"].Text? && '天' in step.timing["时间"].s && ParseFloat(StripUnit(step.timing["时间"].s, '天')).None? ==> t == 4.0
    ensures "时间" in step.timing && step.timing["时间"].Text? && '天' !in step.timing["时间"].s && ParseFloat(StripUnit(step.timing["时间"].s, 'h')).None? ==> t == 4.0
    ensures t < 0.0 ==>
      && "时间" in step.timing && step.timing["时间"].Text?
      && ('天' in step.timing["时间"].s || 'h' in step.timing["时间"].s)
  {
    FourHoursText();
    var v := if "时间" in step.timing then step.timing["时间"] else Text("4h");
    match v
    case Num(_) => 4.0
    case Text(s) =>
      if '天' in s then
        (match ParseFloat(StripUnit(s, '天')) case Some(x) => x * 24.0 case None => 4.0)
      else if 'h' in s then ParseFloat(StripUnit(s, 'h')).GetOr(4.0)
      else 4.0
  }

  /** The default text "4h" reads as 4 hours. */
  lemma FourHoursText()
    ensures 'h' in "4h" && '天' !in "4h"
    ensures ParseFloat(StripUnit("4h", 'h')) == Some(4.0)
  {
    var s := "4h";
    assert s[1] == 'h';
    assert "4" == NatToString(4);
    assert s == NatToString(4) + ['h'];
    StripUnitOfDigits(NatToString(4), 'h');
    ParseFloatOfNat(4);
  }

  /** A time of `n` days, written as digits and `天`, targets `24 * n` hours. */
  lemma DayTextTarget(step: Step, n: nat)
    requires "时间" in step.timing && step.timing["时间"] == Text(NatToString(n) + "天")
    ensures DurationTarget(step) == n as real * 24.0
  {
    var d := NatToString(n);
    var s := d + "天";
    assert s == d + ['天'] && s[|d|] == '天';
    StripUnitOfDigits(d, '天');
    ParseFloatOfNat(n);
  }

  /** A time of `n` hours, written as digits and `h`, targets `n` hours. */
  lemma HourTextTarget(step: Step, n: nat)
    requires "时间" in step.timing && step.timing["时间"] == Text(NatToString(n) + "h")
    ensures DurationTarget(step) == n as real
  {
    var d := NatToString(n);
    var s := d + "h";
    assert s == d + ['h'] && s[|d|] == 'h';
    assert '天' !in s by {
      forall k | 0 <= k < |s| ensures s[k] != '天' { if k < |d| { assert IsDigit(d[k]); } }
    }
    StripUnitOfDigits(d, 'h');
    ParseFloatOfNat(n);
  }

  /** Target, simulated value and status of one parameter reading. */
  datatype Reading = Reading(target: real, actual: real, status: string)

  function Judge(ok: bool): string { if ok then InRange else Deviating }

  /** The scale each branch passes to `np.random.normal`: fixed, or a tenth of the duration target `t`. */
  function ReadingScale(kind: ParamKind, t: real): real {
    match kind
    case Temperature => 1.5
    case Pressure => 0.15
    case Acidity => 0.2
    case Duration => t * 0.1
    case Other => 2.0
  }

  /**
   * The reading of a parameter of the given kind for the standard normal draw `g`; `t` is the
   * step's duration target. The simulated value is `normal(target, scale)`, and only a duration
   * reading targets `t`.
   */
  function ReadingOf(kind: ParamKind, t: real, g: real): (r: Reading)
    ensures r.actual == r.target + ReadingScale(kind, t) * g
    ensures kind == Duration ==> r.target == t
    ensures kind != Duration ==> r.target in {25.0, 1.0, 7.0, 100.0}
  {
    match kind
    case Temperature =>
      var a := 25.0 + 1.5 * g; Reading(25.0, a, Judge(Abs(a - 25.0) <= 2.0))
    case Pressure =>
      var a := 1.0 + 0.15 * g; Reading(1.0, a, Judge(Abs(a - 1.0) <= 0.2))
    case Acidity =>
      var a := 7.0 + 0.2 * g; Reading(7.0, a, Judge(6.5 <= a <= 7.5))
    case Duration =>
      var a := t + t * 0.1 * g; Reading(t, a, Judge(Abs(a - t) <= t * 0.15))
    case Other =>
      var a := 100.0 + 2.0 * g; Reading(100.0, a, Judge(95.0 <= a <= 105.0))
  }

  /** A draw g deviates |scale * g| from the target, so within `tol` exactly when |g| <= tol / scale. */
  lemma DeviationBand(scale: real, g: real, tol: real)
    requires scale > 0.0
    ensures Abs(scale * g) <= tol <==> Abs(g) * scale <= tol
  {
    if g < 0.0 {
      assert scale * g < 0.0;
      assert Abs(scale * g) == Abs(g) * scale;
    } else {
      assert scale * g >= 0.0;
    }
  }

  /**
   * In terms of the standard draw, a reading is in range exactly when |g| stays within 4/3 for
   * temperature and pressure and 2.5 for other quantities.
   */
  lemma ReadingStatusBand(kind: ParamKind, t: real, g: real)
    requires kind != Duration && kind != Acidity
    ensures ReadingOf(kind, t, g).status == InRange <==> Abs(g) <= (if kind == Other then 2.5 else 4.0 / 3.0)
  {
    match kind
    case Temperature =>
      assert (25.0 + 1.5 * g) - 25.0 == 1.5 * g;
      DeviationBand(1.5, g, 2.0);
    case Pressure =>
      assert (1.0 + 0.15 * g) - 1.0 == 0.15 * g;
      DeviationBand(0.15, g, 0.2);
    case Other =>
  }

  /** A duration reading with a positive target is in range exactly when |g| <= 1.5. */
  lemma DurationStatusBand(t: real, g: real)
    requires t > 0.0
    ensures ReadingOf(Duration, t, g).status == InRange <==> Abs(g) <= 1.5
  {
    var a := t + t * 0.1 * g;
    assert ReadingOf(Duration, t, g) == Reading(t, a, Judge(Abs(a - t) <= t * 0.15));
    DurationTolerance(t, g);
  }

  lemma DurationTolerance(t: real, g: real)
    requires t > 0.0
    ensures Abs((t + t * 0.1 * g) - t) <= t * 0.15 <==> Abs(g) <= 1.5
  {
    var a := t + t * 0.1 * g;
    assert a - t == (t * 0.1) * g;
    DeviationBand(t * 0.1, g, t * 0.15);
    assert Abs(g) * (t * 0.1) <= t * 0.15 <==> Abs(g) <= 1.5 by {
      assert Abs(g) * (t * 0.1) == (Abs(g) * 0.1) * t;
      assert t * 0.15 == 0.15 * t;
      if Abs(g) * 0.1 <= 0.15 {
        assert (Abs(g) * 0.1) * t <= 0.15 * t;
      } else {
        assert (Abs(g) * 0.1) * t > 0.15 * t;
      }
    }
  }

  /** One simulated parameter: its 1-based step number, its name and its step. */
  datatype Slot = Slot(stepNumber: nat, param: string, step: Step)

  /** The first three parameters of a step, the only ones simulated. */
  function StepSlots(step: Step, number: nat): (r: seq<Slot>)
    ensures |r| <= 3
  {
    var ps := step.params[..Min(3, |step.params|)];
    seq(|ps|, j requires 0 <= j < |ps| => Slot(number, ps[j], step))
  }

  /** Every simulated parameter of the process, in the order the draws are consumed. */
  function ParamSlots(steps: seq<Step>): (r: seq<Slot>)
    ensures |r| <= 3 * |steps|
    decreases |steps|
  {
    if |steps| == 0 then []
    else ParamSlots(steps[..|steps| - 1]) + StepSlots(steps[|steps| - 1], |steps|)
  }

  /** `step_{i}_{param[:10].replace(' ', '_').lower()}`. */
  function ParamKey(slot: Slot): string {
    "step_" + NatToString(slot.stepNumber) + "_" + Lower(ReplaceChar(Take(slot.param, 10), ' ', '_'))
  }

  function SlotKeys(slots: seq<Slot>): (r: seq<string>)
    ensures |r| == |slots| && forall i :: 0 <= i < |slots| ==> r[i] == ParamKey(slots[i])
  {
    seq(|slots|, i requires 0 <= i < |slots| => ParamKey(slots[i]))
  }

  /** The reading of one slot for the normal draw `g`. */
  function SlotReading(slot: Slot, g: real): Reading {
    ReadingOf(ClassifyParam(slot.param), DurationTarget(slot.step), g)
  }

  /** `np.random.normal` raises ValueError for a negative scale: the draw of this slot ends the whole run. */
  predicate Raises(slot: Slot) {
    ReadingScale(ClassifyParam(slot.param), DurationTarget(slot.step)) < 0.0
  }

  predicate AnyRaises(slots: seq<Slot>) {
    Any(slots, Raises)
  }

  /** Only a time parameter of a step whose target is negative raises. */
  lemma RaisesIffNegativeTarget(slot: Slot)
    ensures Raises(slot) <==> ClassifyParam(slot.param) == Duration && DurationTarget(slot.step) < 0.0
  {
    if ClassifyParam(slot.param) == Duration {
      assert ReadingScale(Duration, DurationTarget(slot.step)) == DurationTarget(slot.step) * 0.1;
    }
  }

  /** A step whose simulated parameters include a time parameter while its target is negative. */
  predicate StepRaises(step: Step) {
    DurationTarget(step) < 0.0 && exists j :: 0 <= j < Min(3, |step.params|) && ClassifyParam(step.params[j]) == Duration
  }

  /** The readings of a batch, or nothing when one of its draws raises. */
  function BatchReadings(slots: seq<Slot>, read: (Slot, nat) -> Reading): Option<Assoc<Reading>> {
    if AnyRaises(slots) then None else Some(Readings(slots, read))
  }

  /** The reading of each slot in a batch: the k-th slot uses the k-th normal draw. */
  function Reader(gauss: nat -> real): (Slot, nat) -> Reading {
    (slot: Slot, k: nat) => SlotReading(slot, gauss(k))
  }

  /** The readings of a batch, `read` giving the k-th slot's reading; a repeated key keeps its place and takes the later reading. */
  function Readings(slots: seq<Slot>, read: (Slot, nat) -> Reading): Assoc<Reading>
    decreases |slots|
  {
    if |slots| == 0 then []
    else
      var k := |slots| - 1;
      Put(Readings(slots[..k], read), ParamKey(slots[k]), read(slots[k], k))
  }

  lemma ReadingsSnoc(slots: seq<Slot>, slot: Slot, read: (Slot, nat) -> Reading)
    ensures Readings(slots + [slot], read) == Put(Readings(slots, read), ParamKey(slot), read(slot, |slots|))
  {
    var so := slots + [slot];
    assert so[..|so| - 1] == slots;
    assert so[|so| - 1] == slot;
  }

  lemma SlotKeysSnoc(slots: seq<Slot>, k: nat)
    requires k + 1 == |slots|
    ensures SlotKeys(slots) == SlotKeys(slots[..k]) + [ParamKey(slots[k])]
  {
  }

  /** The columns of a batch are the distinct parameter keys in first-seen order, whatever was drawn. */
  lemma {:induction false} ReadingKeys(slots: seq<Slot>, read: (Slot, nat) -> Reading)
    ensures Keys(Readings(slots, read)) == Dedup(SlotKeys(slots))
    decreases |slots|
  {
    if |slots| > 0 {
      var k := |slots| - 1;
      var slot := slots[k];
      SlotKeysSnoc(slots, k);
      ReadingKeys(slots[..k], read);
      assert Readings(slots, read) == Put(Readings(slots[..k], read), ParamKey(slot), read(slot, k));
      PutDedup(Readings(slots[..k], read), SlotKeys(slots[..k]), ParamKey(slot), read(slot, k));
    }
  }

  /** Every batch of a run has the same columns: the keys do not depend on the draws. */
  lemma SameColumnsEveryBatch(slots: seq<Slot>, g1: nat -> real, g2: nat -> real)
    ensures Keys(Readings(slots, Reader(g1))) == Keys(Readings(slots, Reader(g2)))
  {
    ReadingKeys(slots, Reader(g1));
    ReadingKeys(slots, Reader(g2));
  }

  /** At most three readings per step: only the first three parameters are simulated. */
  lemma ReadingCount(steps: seq<Step>, gauss: nat -> real)
    ensures |Readings(ParamSlots(steps), Reader(gauss))| <= 3 * |steps|
  {
    ReadingKeys(ParamSlots(steps), Reader(gauss));
  }

  // ---------------------------------------------------------------- batch records

  datatype BatchRecord = BatchRecord(
    batchNumber: string,
    productName: string,
    manufacturingDay: int,
    expiryDay: int,
    batchSize: nat,
    line: string,
    shift: string,
    operator: string,
    supervisor: string,
    yieldPercent: real,
    qualityStatus: string,
    overallStatus: string,
    readings: Assoc<Reading>)

  function BatchNumber(n: nat): string { "BATCH-" + ZeroPad(n, 4) }
  function OperatorId(n: nat): string { "OP" + ZeroPad(n % 5 + 1, 3) }
  function SupervisorId(n: nat): string { "SUP" + ZeroPad(n % 3 + 1, 2) }

  /** Batch n, made 2n days after `baseDay` with the draws of seed n. */
  function BatchRecordOf(n: nat, name: string, steps: seq<Step>, baseDay: int, d: Draws): BatchRecord {
    var day := baseDay + 2 * n;
    BatchRecord(
      BatchNumber(n), name, day, day + 730,
      BatchSizes[d.sizeIndex % 4], Lines[d.lineIndex % 3], Shifts[d.shiftIndex % 3],
      OperatorId(n), SupervisorId(n),
      Uniform(85.0, 98.0, d.yieldU), QualityChoice(d.qualityU), OverallStatusOf(d.statusU),
      Readings(ParamSlots(steps), Reader(d.gauss)))
  }

  /** The first word of the description, "产品" without one; None where `split()[0]` raises on white space only. */
  function ProductName(description: string): Option<string> {
    if description == "" then Some("产品") else FirstWord(description)
  }

  lemma ParamSlotsStep(steps: seq<Step>, i: nat)
    requires i < |steps|
    ensures ParamSlots(steps[..i + 1]) == ParamSlots(steps[..i]) + StepSlots(steps[i], i + 1)
  {
    PrefixSnoc(steps, i);
  }

  /**
   * The readings of one step's first three parameters, appended to those before it; `draw`
   * counts the normal draws consumed. Nothing when a draw raises.
   */
  method SimulateStep(readings0: Assoc<Reading>, ghost done: seq<Slot>, step: Step, number: nat, draw0: nat, gauss: nat -> real)
    returns (readings: Option<Assoc<Reading>>, draw: nat)
    requires readings0 == Readings(done, Reader(gauss)) && draw0 == |done| && !AnyRaises(done)
    ensures readings == BatchReadings(done + StepSlots(step, number), Reader(gauss))
    ensures readings.Some? ==> draw == |done + StepSlots(step, number)|
  {
    var acc := readings0;
    draw := draw0;
    var params := step.params[..Min(3, |step.params|)];
    ghost var slots := StepSlots(step, number);
    assert done + slots[..0] == done;
    for j := 0 to |params|
      invariant draw == |done| + j
      invariant acc == Readings(done + slots[..j], Reader(gauss))
      invariant !AnyRaises(done + slots[..j])
    {
      var slot := Slot(number, params[j], step);
      StepSlotAt(step, number, j);
      if ReadingScale(ClassifyParam(params[j]), DurationTarget(step)) < 0.0 {
        RaisesWithin(done, slots, j);
        return None, draw;
      }
      NoRaiseAhead(done, slots, j);
      ReadingsAhead(done, slots, j, Reader(gauss), acc, slot, draw);
      assert Reader(gauss)(slot, draw) == SlotReading(slot, gauss(draw));
      acc := Put(acc, ParamKey(slot), SlotReading(slot, gauss(draw)));
      draw := draw + 1;
    }
    assert slots[..|params|] == slots;
    readings := Some(acc);
  }

  lemma RaisesWithin(done: seq<Slot>, slots: seq<Slot>, j: nat)
    requires j < |slots| && Raises(slots[j])
    ensures AnyRaises(done + slots)
  {
    AnyConcat(done, slots, Raises);
    assert Raises(slots[j]);
  }

  lemma NoRaiseAhead(done: seq<Slot>, slots: seq<Slot>, j: nat)
    requires j < |slots| && !AnyRaises(done + slots[..j]) && !Raises(slots[j])
    ensures !AnyRaises(done + slots[..j + 1])
  {
    ConcatSnoc(done, slots, j);
    AnyConcat(done + slots[..j], [slots[j]], Raises);
  }

  lemma StepSlotAt(step: Step, number: nat, j: nat)
    requires j < Min(3, |step.params|)
    ensures j < |StepSlots(step, number)| && StepSlots(step, number)[j] == Slot(number, step.params[j], step)
  {
  }

  /** One more slot of the step extends the readings by that slot's reading. */
  lemma ReadingsAhead(done: seq<Slot>, slots: seq<Slot>, j: nat, read: (Slot, nat) -> Reading, readings: Assoc<Reading>, slot: Slot, draw: nat)
    requires j < |slots| && slot == slots[j] && draw == |done| + j
    requires readings == Readings(done + slots[..j], read)
    ensures Readings(done + slots[..j + 1], read) == Put(readings, ParamKey(slot), read(slot, draw))
  {
    var pre := done + slots[..j];
    calc {
      Readings(done + slots[..j + 1], read);
      { ConcatSnoc(done, slots, j); }
      Readings(pre + [slots[j]], read);
      { ReadingsSnoc(pre, slots[j], read); }
      Put(Readings(pre, read), ParamKey(slots[j]), read(slots[j], |pre|));
      { ConcatSnoc(done, slots, j);
        assert |pre| == draw;
        PutCongruent(Readings(pre, read), readings, ParamKey(slots[j]), ParamKey(slot), read(slots[j], |pre|), read(slot, draw)); }
      Put(readings, ParamKey(slot), read(slot, draw));
    }
  }

  /** The simulated readings of one batch: each step, each of its first three parameters, one normal draw each. */
  method SimulateReadings(steps: seq<Step>, gauss: nat -> real) returns (readings: Option<Assoc<Reading>>)
    ensures readings == BatchReadings(ParamSlots(steps), Reader(gauss))
  {
    var acc := [];
    var draw := 0;
    for i := 0 to |steps|
      invariant draw == |ParamSlots(steps[..i])|
      invariant acc == Readings(ParamSlots(steps[..i]), Reader(gauss))
      invariant !AnyRaises(ParamSlots(steps[..i]))
    {
      ParamSlotsStep(steps, i);
      var r, d := SimulateStep(acc, ParamSlots(steps[..i]), steps[i], i + 1, draw, gauss);
      if r.None? {
        ParamSlotsPrefix(steps, i + 1);
        AnyPrefix(ParamSlots(steps[..i + 1]), ParamSlots(steps), Raises);
        return None;
      }
      acc, draw := r.value, d;
    }
    WholePrefix(steps);
    readings := Some(acc);
  }

  /** The slots of the first k steps come first among all slots. */
  lemma {:induction false} ParamSlotsPrefix(steps: seq<Step>, k: nat)
    requires k <= |steps|
    ensures ParamSlots(steps[..k]) <= ParamSlots(steps)
    decreases |steps| - k
  {
    if k < |steps| {
      var p := steps[..|steps| - 1];
      assert p[..k] == steps[..k];
      ParamSlotsPrefix(p, k);
    } else {
      assert steps[..k] == steps;
    }
  }

  /** The body of the batch loop: the header fields from the seed's draws, then the readings. */
  method MakeBatchRecord(n: nat, name: string, steps: seq<Step>, base: int, d: Draws) returns (record: Option<BatchRecord>)
    ensures record.None? <==> AnyRaises(ParamSlots(steps))
    ensures record.Some? ==> record.value == BatchRecordOf(n, name, steps, base, d)
  {
    var readings := SimulateReadings(steps, d.gauss);
    if readings.None? {
      return None;
    }
    ghost var slots := ParamSlots(steps);
    assert readings == BatchReadings(slots, Reader(d.gauss));
    assert !AnyRaises(slots);
    var rs := readings.value;
    assert rs == Readings(slots, Reader(d.gauss));
    var day := base + 2 * n;
    record := Some(BatchRecord(
      BatchNumber(n), name, day, day + 730,
      BatchSizes[d.sizeIndex % 4], Lines[d.lineIndex % 3], Shifts[d.shiftIndex % 3],
      OperatorId(n), SupervisorId(n),
      Uniform(85.0, 98.0, d.yieldU), QualityChoice(d.qualityU), OverallStatusOf(d.statusU),
      rs));
  }

  /** The rows of batches 1..N. */
  function Rows(name: string, steps: seq<Step>, numBatches: int, base: int, seeded: nat -> Draws): (rows: seq<BatchRecord>)
    ensures |rows| == Max(numBatches, 0)
  {
    Tabulate(Max(numBatches, 0), RowMaker(name, steps, base, seeded))
  }

  /** The record at position k of the table, batch number k + 1. */
  function RowMaker(name: string, steps: seq<Step>, base: int, seeded: nat -> Draws): nat -> BatchRecord {
    (k: nat) => BatchRecordOf(k + 1, name, steps, base, seeded(k + 1))
  }

  lemma RowMakerAt(name: string, steps: seq<Step>, base: int, seeded: nat -> Draws, k: nat)
    ensures RowMaker(name, steps, base, seeded)(k) == BatchRecordOf(k + 1, name, steps, base, seeded(k + 1))
  {
  }

  /**
   * The rows of batches 1..N, or nothing when a draw of the first batch raises: every batch
   * draws for the same slots, so the first one raises if any does.
   */
  function BatchRows(name: string, steps: seq<Step>, numBatches: int, base: int, seeded: nat -> Draws): Option<seq<BatchRecord>> {
    if numBatches >= 1 && AnyRaises(ParamSlots(steps)) then None
    else Some(Rows(name, steps, numBatches, base, seeded))
  }

  /** The product name and the two early exits, as the source orders them, then the batch loop. */
  function BatchRecordsOf(product: Product, numBatches: int, today: int, seeded: nat -> Draws): Option<seq<BatchRecord>> {
    match ProductName(product.description)
    case None => None
    case Some(name) =>
      if product.steps == [] then Some([])
      else BatchRows(name, product.steps, numBatches, today - 2 * numBatches, seeded)
  }

  /** The batch loop of `generate_batch_records`. */
  method GenerateRows(name: string, steps: seq<Step>, numBatches: int, base: int, seeded: nat -> Draws)
    returns (records: Option<seq<BatchRecord>>)
    ensures records == BatchRows(name, steps, numBatches, base, seeded)
  {
    var acc := [];
    var n := 1;
    while n <= numBatches
      invariant 1 <= n <= Max(numBatches, 0) + 1
      invariant acc == Rows(name, steps, n - 1, base, seeded)
      invariant n > 1 ==> !AnyRaises(ParamSlots(steps))
      decreases numBatches - n
    {
      var record := MakeBatchRecord(n, name, steps, base, seeded(n));
      if record.None? {
        return None;
      }
      RowsSnoc(name, steps, n - 1, base, seeded);
      acc := acc + [record.value];
      n := n + 1;
    }
    records := Some(acc);
  }

  lemma RowsSnoc(name: string, steps: seq<Step>, m: nat, base: int, seeded: nat -> Draws)
    ensures Rows(name, steps, m + 1, base, seeded) == Rows(name, steps, m, base, seeded) + [BatchRecordOf(m + 1, name, steps, base, seeded(m + 1))]
  {
    TabulateSnoc(m, RowMaker(name, steps, base, seeded));
    RowMakerAt(name, steps, base, seeded, m);
  }

  /** `generate_batch_records`. */
  method GenerateBatchRecords(product: Product, numBatches: int, today: int, seeded: nat -> Draws)
    returns (r: Option<seq<BatchRecord>>)
    ensures r == BatchRecordsOf(product, numBatches, today, seeded)
  {
    var name: string;
    if product.description != "" {
      var first := FirstWord(product.description);
      if first.None? {
        return None;
      }
      name := first.value;
    } else {
      name := "产品";
    }
    if product.steps == [] {
      return Some([]);
    }
    r := GenerateRows(name, product.steps, numBatches, today - 2 * numBatches, seeded);
  }

  // ---------------------------------------------------------------- properties

  /**
   * A process with steps yields one row per requested batch, no rows for none. The call fails
   * when the description is white space only (`split()[0]` raises), and when at least one batch
   * is requested and some simulated draw has a negative scale (`np.random.normal` raises).
   */
  lemma BatchCount(product: Product, numBatches: int, today: int, seeded: nat -> Draws)
    ensures var r := BatchRecordsOf(product, numBatches, today, seeded);
      && (r.None? <==>
            || (product.description != "" && forall i :: 0 <= i < |product.description| ==> IsSpace(product.description[i]))
            || (product.steps != [] && numBatches >= 1 && AnyRaises(ParamSlots(product.steps))))
      && (r.Some? && product.steps != [] ==> |r.value| == Max(numBatches, 0))
      && (r.Some? && product.steps == [] ==> r.value == [])
  {
  }

  lemma StepSlotsRaise(step: Step, number: nat)
    ensures AnyRaises(StepSlots(step, number)) <==> StepRaises(step)
  {
    var slots := StepSlots(step, number);
    forall j | 0 <= j < |slots|
      ensures Raises(slots[j]) <==> ClassifyParam(step.params[j]) == Duration && DurationTarget(step) < 0.0
    {
      RaisesIffNegativeTarget(slots[j]);
    }
  }

  /** The run raises exactly when some step times a simulated time parameter with a negative target. */
  lemma {:induction false} AnyRaisesMeaning(steps: seq<Step>)
    ensures AnyRaises(ParamSlots(steps)) <==> Any(steps, StepRaises)
    decreases |steps|
  {
    if |steps| > 0 {
      var n := |steps|;
      var p := steps[..n - 1];
      AnyRaisesMeaning(p);
      AnyConcat(ParamSlots(p), StepSlots(steps[n - 1], n), Raises);
      StepSlotsRaise(steps[n - 1], n);
      AnySnoc(steps, StepRaises);
    }
  }

  /** Steps without a `时间` field, as every catalog step is, never raise. */
  lemma NoTimeFieldNeverRaises(steps: seq<Step>)
    requires forall i :: 0 <= i < |steps| ==> "时间" !in steps[i].timing
    ensures !AnyRaises(ParamSlots(steps))
  {
    AnyRaisesMeaning(steps);
  }

  /** "发酵时间" names a time parameter. */
  lemma FermentationTimeIsDuration()
    ensures ClassifyParam("发酵时间") == Duration
  {
    var p := "发酵时间";
    assert Contains(p, "时间") by {
      assert p[2..] == "时间";
      assert IsPrefix("时间", p[2..]);
      assert p[1..][1..] == p[2..];
    }
    assert '温' !in p && '压' !in p;
    NotContainsMissingChar(p, "温度", '温');
    NotContainsMissingChar(p, "压力", '压');
    AcidityBranchUnreachable(p);
  }

  /** "-2h" holds the unit h and, with it and the parentheses taken out, leaves "-2". */
  lemma MinusTwoText()
    ensures 'h' in "-2h" && '天' !in "-2h"
    ensures StripUnit("-2h", 'h') == "-2"
  {
    assert "-2h"[2] == 'h';
    assert RemoveChar("-2h", 'h') == "-2";
    assert RemoveChar("-2", '(') == "-2";
    assert RemoveChar("-2", ')') == "-2";
  }

  /** "-2" reads as -2. */
  lemma MinusTwoValue()
    ensures ParseFloat("-2") == Some(-2.0)
  {
    assert Strip("-2") == "-2";
    assert "-2"[1..] == NatToString(2);
    StripDigits("2");
    ParseFloatOfNat(2);
  }

  /** A time parameter of a step timed "-2h" draws with scale -0.2, so the first batch already raises. */
  lemma NegativeHoursRaise(today: int, seeded: nat -> Draws)
    ensures var step := Step("发酵", ["发酵时间"], [], [], map["时间" := Text("-2h")]);
      && DurationTarget(step) == -2.0
      && BatchRecordsOf(Product("", None, [step], [], [], [], [], []), 1, today, seeded) == None
  {
    var step := Step("发酵", ["发酵时间"], [], [], map["时间" := Text("-2h")]);
    FermentationTimeIsDuration();
    MinusTwoText();
    MinusTwoValue();
    assert DurationTarget(step) == -2.0;
    assert step.params[0] == "发酵时间";
    assert StepRaises(step);
    StepSlotsRaise(step, 1);
    assert [step][..0] == [];
    assert ParamSlots([step]) == StepSlots(step, 1);
  }

  /** Batch numbers are pairwise distinct. */
  lemma BatchNumbersDistinct(a: nat, b: nat)
    requires a != b
    ensures BatchNumber(a) != BatchNumber(b)
  {
    if BatchNumber(a) == BatchNumber(b) {
      var p := "BATCH-";
      assert ZeroPad(a, 4) == BatchNumber(a)[|p|..];
      assert ZeroPad(b, 4) == BatchNumber(b)[|p|..];
      ZeroPadInjective(a, b, 4);
    }
  }

  /**
   * Each row expires 730 days after it was made, rows are made two days apart, and the last
   * row is made today.
   */
  lemma BatchDates(product: Product, numBatches: int, today: int, seeded: nat -> Draws)
    requires BatchRecordsOf(product, numBatches, today, seeded).Some?
    ensures var rows := BatchRecordsOf(product, numBatches, today, seeded).value;
      && (forall k :: 0 <= k < |rows| ==> rows[k].expiryDay == rows[k].manufacturingDay + 730)
      && (forall k :: 0 <= k < |rows| ==> rows[k].manufacturingDay == today - 2 * numBatches + 2 * (k + 1))
      && (|rows| > 0 ==> rows[|rows| - 1].manufacturingDay == today)
  {
    var rows := BatchRecordsOf(product, numBatches, today, seeded).value;
    var name := ProductName(product.description).value;
    var base := today - 2 * numBatches;
    forall k | 0 <= k < |rows|
      ensures rows[k].expiryDay == rows[k].manufacturingDay + 730
      ensures rows[k].manufacturingDay == base + 2 * (k + 1)
    {
      assert rows[k] == RowMaker(name, product.steps, base, seeded)(k);
      RowMakerAt(name, product.steps, base, seeded, k);
    }
  }

  /** Row k carries batch number k + 1, so no two rows of one table share a batch number. */
  lemma BatchNumbersOfRows(product: Product, numBatches: int, today: int, seeded: nat -> Draws)
    requires BatchRecordsOf(product, numBatches, today, seeded).Some?
    ensures var rows := BatchRecordsOf(product, numBatches, today, seeded).value;
      && (forall k :: 0 <= k < |rows| ==> rows[k].batchNumber == BatchNumber(k + 1))
      && (forall j, k :: 0 <= j < k < |rows| ==> rows[j].batchNumber != rows[k].batchNumber)
  {
    var rows := BatchRecordsOf(product, numBatches, today, seeded).value;
    var name := ProductName(product.description).value;
    var base := today - 2 * numBatches;
    forall k | 0 <= k < |rows| ensures rows[k].batchNumber == BatchNumber(k + 1) {
      assert rows[k] == RowMaker(name, product.steps, base, seeded)(k);
      RowMakerAt(name, product.steps, base, seeded, k);
    }
    forall j, k | 0 <= j < k < |rows| ensures rows[j].batchNumber != rows[k].batchNumber {
      BatchNumbersDistinct(j + 1, k + 1);
    }
  }

  /** Operators repeat with period 5 and supervisors with period 3, whatever was drawn. */
  lemma StaffRotation(n: nat)
    ensures OperatorId(n + 5) == OperatorId(n)
    ensures SupervisorId(n + 3) == SupervisorId(n)
    ensures n % 5 == 0 ==> OperatorId(n) == "OP001"
  {
    assert (n + 5) % 5 == n % 5;
    assert (n + 3) % 3 == n % 3;
    if n % 5 == 0 {
      assert ZeroPad(1, 3) == "001";
    }
  }

  /** Yield lies in [85, 98) for a uniform draw in [0, 1). */
  lemma YieldRange(u: real)
    requires 0.0 <= u < 1.0
    ensures 85.0 <= Uniform(85.0, 98.0, u) < 98.0
  {
  }

  /**
   * Reseeding per batch: batch k + 1 carries the same values at any run length; only its dates
   * move with the run length.
   */
  lemma ReproducibleBatches(product: Product, n1: int, n2: int, today: int, seeded: nat -> Draws, k: nat)
    requires BatchRecordsOf(product, n1, today, seeded).Some? && product.steps != []
    requires k < n1 && k < n2
    ensures var r1 := BatchRecordsOf(product, n1, today, seeded).value;
      var r2 := BatchRecordsOf(product, n2, today, seeded).value;
      && k < |r1| && k < |r2|
      && r1[k].(manufacturingDay := 0, expiryDay := 0) == r2[k].(manufacturingDay := 0, expiryDay := 0)
      && r1[k].manufacturingDay - r2[k].manufacturingDay == 2 * (n2 - n1)
  {
    var name := ProductName(product.description).value;
    var r1 := BatchRecordsOf(product, n1, today, seeded).value;
    var r2 := BatchRecordsOf(product, n2, today, seeded).value;
    assert r1[k] == RowMaker(name, product.steps, today - 2 * n1, seeded)(k);
    assert r2[k] == RowMaker(name, product.steps, today - 2 * n2, seeded)(k);
    RowMakerAt(name, product.steps, today - 2 * n1, seeded, k);
    RowMakerAt(name, product.steps, today - 2 * n2, seeded, k);
  }
}
