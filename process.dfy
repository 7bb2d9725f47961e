/**
 * The process definitions the catalog supplies. A step is a dict in the source; every field the
 * core reads with a default (`name` -> "", `关键参数`/`设备`/`PAT应用` -> []) is a plain field here,
 * an absent field standing as its default. Duration fields keep their source keys
 * (`时间`, `时间(min)`, `时间(h)`, `时间(天)`, `time(h)`, `time(min)`), since which key is present decides
 * how they are read.
 */
module Process {
  import opened Wrappers
  import opened Text

  /** A scalar stored in a dict field: a number (`120`, `12.5`) or text (`"4h"`, `"2天"`). */
  datatype Value = Num(x: real) | Text(s: string)

  /** `float(str(v))`: numbers read back as themselves, text through Python's float syntax. */
  function FloatOf(v: Value): Option<real> {
    match v
    case Num(x) => Some(x)
    case Text(s) => ParseFloat(s)
  }

  datatype Step = Step(
    name: string,
    params: seq<string>,      // 关键参数
    equipment: seq<string>,   // 设备
    pat: seq<string>,         // PAT应用
    timing: map<string, Value>)

  /** A product entry of the catalog; list fields stand empty when absent. */
  datatype Product = Product(
    description: string,
    gmpClass: Option<string>,          // GMP分类
    steps: seq<Step>,                  // 工艺步骤
    ichGuidelines: seq<string>,        // ICH指导原则
    keyFeatures: seq<string>,          // 关键特征
    validationReqs: seq<string>,       // 工艺验证要求
    dataIntegrityReqs: seq<string>,    // 数据完整性要求
    qualityAttributes: seq<string>)    // 关键质量属性

  /** The text `s` with the unit character `u` and parentheses taken out: `s.replace(u, "").replace("(", "").replace(")", "")`. */
  function StripUnit(s: string, u: char): string {
    RemoveChar(RemoveChar(RemoveChar(s, u), '('), ')')
  }

  /** Taking the unit and parentheses out of a digit string followed by its unit gives back the digits. */
  lemma StripUnitOfDigits(d: string, u: char)
    requires AllDigits(d) && !IsDigit(u) && u != '(' && u != ')'
    ensures StripUnit(d + [u], u) == d
  {
    assert u !in d && '(' !in d && ')' !in d by {
      forall k | 0 <= k < |d| ensures d[k] != u && d[k] != '(' && d[k] != ')' { assert IsDigit(d[k]); }
    }
    RemoveCharConcat(d, [u], u);
    RemoveAbsentChar(d, u);
    assert RemoveChar([u], u) == "";
    assert d + "" == d;
    RemoveAbsentChar(d, '(');
    RemoveAbsentChar(d, ')');
  }
}
