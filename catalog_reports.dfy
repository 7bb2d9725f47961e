/**
 * The tables database.py computes over the whole catalog: the GMP risk matrix, the PAT application
 * matrix, the equipment master list and the high-risk share of the MES requirements report.
 */
module CatalogReports {
  import opened Wrappers
  import opened Seqs
  import opened Text
  import opened Assoc
  import opened Process
  import opened Sorting
  import opened Catalog

  // ---------------------------------------------------------------- GMP risk levels

  /** The members of `GMPRiskLevel`. */
  datatype GmpLevel = Low | Medium | MediumHigh | High | Critical | Atmp

  /** The enum values the catalog stores in `GMP分类`. */
  function LevelName(l: GmpLevel): string {
    match l
    case Low => "低风险"
    case Medium => "中风险"
    case MediumHigh => "中高风险"
    case High => "高风险"
    case Critical => "极高风险"
    case Atmp => "先进治疗产品"
  }

  /** The simplified risk score of each level: 1 to 4 in order, 5 for the critical level and ATMPs. */
  function LevelScore(l: GmpLevel): nat {
    match l
    case Low => 1
    case Medium => 2
    case MediumHigh => 3
    case High => 4
    case Critical => 5
    case Atmp => 5
  }

  /** The score `get_gmp_risk_matrix` gives a stored GMP class; 0 for a class that names no level. */
  function GmpScore(cls: string): nat {
    if cls == LevelName(Low) then 1
    else if cls == LevelName(Medium) then 2
    else if cls == LevelName(MediumHigh) then 3
    else if cls == LevelName(High) then 4
    else if cls == LevelName(Critical) || cls == LevelName(Atmp) then 5
    else 0
  }

  /** Different levels are stored under different names. */
  lemma LevelNameInjective(a: GmpLevel, b: GmpLevel)
    requires LevelName(a) == LevelName(b)
    ensures a == b
  {
  }

  /** The if-chain gives each level its score, and 0 exactly to a class naming no level. */
  lemma GmpScoreOfLevels(cls: string)
    ensures forall l :: GmpScore(LevelName(l)) == LevelScore(l)
    ensures GmpScore(cls) == 0 <==> forall l :: LevelName(l) != cls
    ensures GmpScore(cls) <= 5
  {
    forall l ensures GmpScore(LevelName(l)) == LevelScore(l) {
      LevelScoreOf(l);
    }
    if GmpScore(cls) != 0 {
      var l :| LevelName(l) == cls && GmpScore(cls) == LevelScore(l);
    }
  }

  lemma LevelScoreOf(l: GmpLevel)
    ensures GmpScore(LevelName(l)) == LevelScore(l)
  {
    forall m | m != l ensures LevelName(m) != LevelName(l) {
      if LevelName(m) == LevelName(l) {
        LevelNameInjective(m, l);
      }
    }
  }

  // ---------------------------------------------------------------- GMP risk matrix

  datatype RiskRow = RiskRow(
    category: string,          // 产品类别
    product: string,           // 产品名称
    level: string,             // 风险等级
    score: nat,                // 风险评分
    validation: string,        // 工艺验证要求
    dataIntegrity: string,     // 数据完整性要求
    guidelines: string,        // ICH指导原则
    controlPoints: nat)        // 关键控制点

  /** `', '.join(items) if items else fallback`. */
  function JoinOr(items: seq<string>, fallback: string): string {
    if |items| == 0 then fallback else Join(", ", items)
  }

  /** The fallback stands for an empty list; otherwise every item appears in the joined text. */
  lemma JoinOrShape(items: seq<string>, fallback: string)
    ensures |items| == 0 ==> JoinOr(items, fallback) == fallback
    ensures forall k :: 0 <= k < |items| ==> Contains(JoinOr(items, fallback), items[k])
  {
    forall k | 0 <= k < |items| ensures Contains(JoinOr(items, fallback), items[k]) {
      JoinHasItems(", ", items, k);
    }
  }

  /** The risk-matrix row of one product. */
  function RiskRowOf(c: string, p: string, x: Product): RiskRow {
    var cls := x.gmpClass.GetOr("");
    RiskRow(c, p, cls, GmpScore(cls), JoinOr(x.validationReqs, "标准验证"), JoinOr(x.dataIntegrityReqs, "基础要求"),
      JoinOr(x.ichGuidelines, "通用要求"), |x.qualityAttributes|)
  }

  function RiskRows(c: string, p: string, x: Product): seq<RiskRow> {
    [RiskRowOf(c, p, x)]
  }

  function RowScore(r: RiskRow): int { r.score }

  /**
   * `get_gmp_risk_matrix`: one row per product of the merged catalog, ordered by descending score.
   * pandas' default sort is not stable, so only the order of scores is promised, not the order of ties.
   * A frame built from no rows has no score column, and sorting it raises `KeyError`: None.
   */
  method GetGmpRiskMatrix(g: Groups) returns (matrix: Option<seq<RiskRow>>)
    ensures matrix.None? <==> CatalogRows(AllProcesses(g), RiskRows) == []
    ensures matrix.Some? ==> multiset(matrix.value) == multiset(CatalogRows(AllProcesses(g), RiskRows))
    ensures matrix.Some? ==> SortedBy(matrix.value, DescBy(RowScore))
  {
    var unsorted := CollectRows(AllProcesses(g), RiskRows);
    if unsorted == [] {
      matrix := None;
    } else {
      DescByTotal(RowScore);
      var rows := SortBy(unsorted, DescBy(RowScore));
      matrix := Some(rows);
    }
  }

  /** The risk matrix raises exactly when the merged catalog has no product. */
  lemma RiskMatrixEmpty(g: Groups)
    ensures CatalogRows(AllProcesses(g), RiskRows) == [] <==> ProductCount(AllProcesses(g)) == 0
  {
    OneRowPerProduct(AllProcesses(g), RiskRows);
  }

  /**
   * Every row of the matrix belongs to a product of the merged catalog and every product has its row;
   * a row's score is the score of the level it shows, at most 5, and higher rows never score lower.
   */
  lemma RiskMatrixRows(g: Groups, rows: seq<RiskRow>, r: RiskRow)
    requires multiset(rows) == multiset(CatalogRows(AllProcesses(g), RiskRows))
    requires SortedBy(rows, DescBy(RowScore))
    ensures |rows| == ProductCount(AllProcesses(g))
    ensures r in rows <==> exists i, j :: RowOfProduct(AllProcesses(g), RiskRows, r, i, j)
    ensures r in rows ==> r.score == GmpScore(r.level) <= 5
    ensures forall i, j :: 0 <= i <= j < |rows| ==> rows[i].score >= rows[j].score
  {
    var all := AllProcesses(g);
    var unsorted := CatalogRows(all, RiskRows);
    OneRowPerProduct(all, RiskRows);
    assert |rows| == |multiset(rows)| == |multiset(unsorted)| == |unsorted|;
    assert r in rows <==> r in multiset(rows);
    CatalogRowsMembers(all, RiskRows, r);
    if r in rows {
      var i: nat, j: nat :| RowOfProduct(all, RiskRows, r, i, j);
      GmpScoreOfLevels(r.level);
    }
    forall i, j | 0 <= i <= j < |rows| ensures rows[i].score >= rows[j].score {
      DescSortedEveryPair(rows, RowScore, i, j);
    }
  }

  // ---------------------------------------------------------------- high-risk share

  /** The classes `generate_mes_requirements_report` counts as high risk. */
  predicate IsHighRiskClass(cls: string) {
    cls == LevelName(High) || cls == LevelName(Critical) || cls == LevelName(Atmp)
  }

  /** One mark for a product whose class is high risk, none otherwise. */
  function HighRiskMark(c: string, p: string, x: Product): seq<string> {
    if IsHighRiskClass(x.gmpClass.GetOr("")) then [p] else []
  }

  /** The number of high-risk products in the catalog. */
  function HighRiskCount(all: Group): nat {
    |CatalogRows(all, HighRiskMark)|
  }

  /** `high_risk_count / product_count * 100` when there are products, 0 otherwise (before rounding). */
  function HighRiskPercentage(high: nat, products: nat): real {
    if products > 0 then high as real / products as real * 100.0 else 0.0
  }

  /** The statistics the report draws from the catalog. */
  datatype CatalogStatistics = CatalogStatistics(categories: nat, products: nat, highRisk: nat, highRiskPercentage: real)

  /** The counting part of `generate_mes_requirements_report`. */
  method CatalogStatisticsOf(g: Groups) returns (stats: CatalogStatistics)
    ensures stats.categories == |AllProcesses(g)|
    ensures stats.products == ProductCount(AllProcesses(g))
    ensures stats.highRisk == HighRiskCount(AllProcesses(g))
    ensures stats.highRiskPercentage == HighRiskPercentage(stats.highRisk, stats.products)
  {
    var all := AllProcesses(g);
    var productCount := ProductCount(all);
    var highRiskCount := 0;
    for i := 0 to |all|
      invariant highRiskCount == |CatalogRows(all[..i], HighRiskMark)|
    {
      CatalogRowsStep(all, HighRiskMark, i);
      var k := CountHighRisk(all[i].0, all[i].1);
      highRiskCount := highRiskCount + k;
    }
    WholePrefix(all);
    stats := CatalogStatistics(|all|, productCount, highRiskCount, HighRiskPercentage(highRiskCount, productCount));
  }

  /** The inner loop over the products of one category. */
  method CountHighRisk(c: string, products: Assoc<Product>) returns (k: nat)
    ensures k == |CategoryRows(c, products, HighRiskMark)|
  {
    k := 0;
    for j := 0 to |products|
      invariant k == |CategoryRows(c, products[..j], HighRiskMark)|
    {
      CategoryRowsStep(c, products, HighRiskMark, j);
      if IsHighRiskClass(products[j].1.gmpClass.GetOr("")) {
        k := k + 1;
      }
    }
    WholePrefix(products);
  }

  /** High-risk products are products: the count never exceeds the product count. */
  lemma HighRiskAtMostProducts(all: Group)
    ensures HighRiskCount(all) <= ProductCount(all)
  {
    AtMostOneRowPerProduct(all, HighRiskMark);
  }

  /** The share lies between 0 and 100; it is 0 exactly without high-risk products and 100 exactly when all are. */
  lemma HighRiskPercentageBounds(high: nat, products: nat)
    requires high <= products
    ensures 0.0 <= HighRiskPercentage(high, products) <= 100.0
    ensures HighRiskPercentage(high, products) == 0.0 <==> high == 0
    ensures products > 0 ==> (HighRiskPercentage(high, products) == 100.0 <==> high == products)
  {
    if products > 0 {
      var q := high as real / products as real;
      var n := products as real;
      assert q * n == high as real;
      assert 0.0 <= q;
      if q == 1.0 {
        assert high as real == n;
      }
      if high == products {
        assert q == 1.0;
      }
    }
  }

  // ---------------------------------------------------------------- PAT application matrix

  /** The technology keys searched for in a PAT entry and the names they stand for, in the source's order. */
  const PatTechnologies: Assoc<string> := [
    ("NIR", "近红外光谱"), ("FTIR", "傅里叶变换红外光谱"), ("Raman", "拉曼光谱"), ("HPLC", "高效液相色谱"),
    ("GC", "气相色谱"), ("FBRM", "聚焦光束反射测量"), ("PVM", "过程视频显微镜"), ("UV", "紫外光谱"),
    ("浊度", "浊度监测"), ("粒径", "在线粒度分析"), ("温度", "在线温度监测"), ("pH", "在线pH监测"),
    ("压力", "在线压力监测")]

  /** The names of the technologies of `table` whose key occurs in the entry, in table order. */
  function MatchedTechnologies(table: Assoc<string>, entry: string): seq<string>
    decreases |table|
  {
    if |table| == 0 then []
    else
      var last := table[|table| - 1];
      MatchedTechnologies(table[..|table| - 1], entry) + (if Contains(entry, last.0) then [last.1] else [])
  }

  lemma MatchedStep(table: Assoc<string>, entry: string, k: nat)
    requires k < |table|
    ensures MatchedTechnologies(table[..k + 1], entry) ==
      MatchedTechnologies(table[..k], entry) + (if Contains(entry, table[k].0) then [table[k].1] else [])
  {
    PrefixSnoc(table, k);
  }

  /** Nothing matches exactly when no key of the table occurs in the entry. */
  lemma {:induction false} NoneMatched(table: Assoc<string>, entry: string)
    ensures |MatchedTechnologies(table, entry)| == 0 <==> forall k :: 0 <= k < |table| ==> !Contains(entry, table[k].0)
    decreases |table|
  {
    if |table| > 0 {
      var p := table[..|table| - 1];
      NoneMatched(p, entry);
      assert forall k :: 0 <= k < |p| ==> p[k] == table[k];
    }
  }

  /** A name is matched exactly when it is the name of a key occurring in the entry. */
  lemma {:induction false} MatchedMembers(table: Assoc<string>, entry: string, name: string)
    ensures name in MatchedTechnologies(table, entry) <==>
      exists k :: 0 <= k < |table| && Contains(entry, table[k].0) && table[k].1 == name
    decreases |table|
  {
    if |table| > 0 {
      var n := |table| - 1;
      var p := table[..n];
      MatchedMembers(p, entry, name);
      if exists k :: 0 <= k < |p| && Contains(entry, p[k].0) && p[k].1 == name {
        var k :| 0 <= k < |p| && Contains(entry, p[k].0) && p[k].1 == name;
        assert table[k] == p[k];
      }
      if exists k :: 0 <= k < |table| && Contains(entry, table[k].0) && table[k].1 == name {
        var k :| 0 <= k < |table| && Contains(entry, table[k].0) && table[k].1 == name;
        if k < n {
          assert p[k] == table[k];
        }
      }
    }
  }

  /** What one PAT entry adds to `pat_apps`: the names of the technologies it mentions, or the entry itself when it mentions none. */
  function EntryApps(entry: string): (r: seq<string>)
    ensures |r| > 0
  {
    var matched := MatchedTechnologies(PatTechnologies, entry);
    if |matched| == 0 then [entry] else matched
  }

  /** What one step adds: the names of its PAT entries, in order. */
  function StepApps(step: Step): seq<string> {
    FlatMap(step.pat, EntryApps)
  }

  /** The set `pat_apps` of a product, as its elements in order of first insertion. */
  function PatApps(x: Product): seq<string> {
    Dedup(FlatMap(x.steps, StepApps))
  }

  datatype PatRow = PatRow(
    category: string,          // 工艺类别
    product: string,           // 产品类型
    technologies: string,      // PAT技术应用
    count: nat,                // PAT应用数量
    automation: string)        // 自动化水平

  /** 高 from four applications on, 中 from two, 低 below. */
  function AutomationLevel(count: nat): string {
    if count >= 4 then "高" else if count >= 2 then "中" else "低"
  }

  /** The PAT-matrix row of one product; none when the product uses no PAT. */
  function PatRows(c: string, p: string, x: Product): seq<PatRow> {
    var apps := PatApps(x);
    StrOrderTotal();
    if |apps| == 0 then []
    else [PatRow(c, p, Join(", ", SortBy(apps, StrOrder())), |apps|, AutomationLevel(|apps|))]
  }

  function PatRowCount(r: PatRow): int { r.count }

  /** The innermost loop over a technology table for one entry, adding the names matched to those found so far. */
  method AddMatches(table: Assoc<string>, entry: string, ghost history: seq<string>, apps0: seq<string>)
    returns (apps: seq<string>, matchedAny: bool)
    requires apps0 == Dedup(history)
    ensures apps == Dedup(history + MatchedTechnologies(table, entry))
    ensures matchedAny <==> |MatchedTechnologies(table, entry)| > 0
  {
    apps := apps0;
    matchedAny := false;
    assert table[..0] == [] && history + [] == history;
    for k := 0 to |table|
      invariant apps == Dedup(history + MatchedTechnologies(table[..k], entry))
      invariant matchedAny <==> |MatchedTechnologies(table[..k], entry)| > 0
    {
      MatchedStep(table, entry, k);
      ghost var matched := MatchedTechnologies(table[..k], entry);
      ghost var before := history + matched;
      if Contains(entry, table[k].0) {
        DedupSnoc(before, table[k].1);
        AppendAssoc(history, matched, [table[k].1]);
        if table[k].1 !in apps {
          apps := apps + [table[k].1];
        }
        matchedAny := true;
      } else {
        assert MatchedTechnologies(table[..k + 1], entry) == matched + [] == matched;
      }
    }
    WholePrefix(table);
  }

  /** One PAT entry: the technologies it mentions, or the entry itself when `any(key in pat ...)` fails. */
  method AddEntryApps(entry: string, ghost history: seq<string>, apps0: seq<string>) returns (apps: seq<string>)
    requires apps0 == Dedup(history)
    ensures apps == Dedup(history + EntryApps(entry))
  {
    var matchedAny;
    apps, matchedAny := AddMatches(PatTechnologies, entry, history, apps0);
    if !matchedAny {
      assert history + MatchedTechnologies(PatTechnologies, entry) == history;
      DedupSnoc(history, entry);
      if entry !in apps {
        apps := apps + [entry];
      }
    }
  }

  /** The loop over the PAT entries of one step. */
  method AddStepApps(step: Step, ghost history: seq<string>, apps0: seq<string>) returns (apps: seq<string>)
    requires apps0 == Dedup(history)
    ensures apps == Dedup(history + StepApps(step))
  {
    apps := apps0;
    var entries := step.pat;
    assert entries[..0] == [] && history + [] == history;
    for k := 0 to |entries|
      invariant apps == Dedup(history + FlatMap(entries[..k], EntryApps))
    {
      FlatMapStep(entries, EntryApps, k);
      ghost var before := history + FlatMap(entries[..k], EntryApps);
      apps := AddEntryApps(entries[k], before, apps);
      AppendAssoc(history, FlatMap(entries[..k], EntryApps), EntryApps(entries[k]));
    }
    WholePrefix(entries);
  }

  /** The loop over the steps of one product, collecting `pat_apps`. */
  method CollectPatApps(x: Product) returns (apps: seq<string>)
    ensures apps == PatApps(x)
  {
    apps := [];
    var steps := x.steps;
    for i := 0 to |steps|
      invariant apps == Dedup(FlatMap(steps[..i], StepApps))
    {
      FlatMapStep(steps, StepApps, i);
      apps := AddStepApps(steps[i], FlatMap(steps[..i], StepApps), apps);
    }
    WholePrefix(steps);
  }

  /** The row of one product, built from its collected applications. */
  method PatRowsOf(c: string, p: string, x: Product) returns (rows: seq<PatRow>)
    ensures rows == PatRows(c, p, x)
  {
    var apps := CollectPatApps(x);
    if |apps| > 0 {
      var count := |apps|;
      var level := if count >= 4 then "高" else if count >= 2 then "中" else "低";
      StrOrderTotal();
      rows := [PatRow(c, p, Join(", ", SortBy(apps, StrOrder())), count, level)];
    } else {
      rows := [];
    }
  }

  /** `get_pat_application_matrix`: a row for each product using PAT, ordered by descending application count. */
  method GetPatApplicationMatrix(g: Groups) returns (matrix: Option<seq<PatRow>>)
    ensures matrix.None? <==> CatalogRows(AllProcesses(g), PatRows) == []
    ensures matrix.Some? ==> multiset(matrix.value) == multiset(CatalogRows(AllProcesses(g), PatRows))
    ensures matrix.Some? ==> SortedBy(matrix.value, DescBy(PatRowCount))
  {
    var all := AllProcesses(g);
    var unsorted := [];
    for i := 0 to |all|
      invariant unsorted == CatalogRows(all[..i], PatRows)
    {
      CatalogRowsStep(all, PatRows, i);
      var categoryRows := PatCategory(all[i].0, all[i].1);
      unsorted := unsorted + categoryRows;
    }
    WholePrefix(all);
    if unsorted == [] {
      matrix := None;
    } else {
      DescByTotal(PatRowCount);
      var rows := SortBy(unsorted, DescBy(PatRowCount));
      matrix := Some(rows);
    }
  }

  /** The loop over the products of one category. */
  method PatCategory(c: string, products: Assoc<Product>) returns (rows: seq<PatRow>)
    ensures rows == CategoryRows(c, products, PatRows)
  {
    rows := [];
    for j := 0 to |products|
      invariant rows == CategoryRows(c, products[..j], PatRows)
    {
      CategoryRowsStep(c, products, PatRows, j);
      var productRows := PatRowsOf(c, products[j].0, products[j].1);
      rows := rows + productRows;
    }
    WholePrefix(products);
  }

  /** A product has a row exactly when one of its steps lists a PAT entry. */
  lemma PatRowIffPatUsed(c: string, p: string, x: Product)
    ensures |PatRows(c, p, x)| <= 1
    ensures |PatRows(c, p, x)| == 1 <==> exists i :: 0 <= i < |x.steps| && |x.steps[i].pat| > 0
  {
    var history := FlatMap(x.steps, StepApps);
    FlatMapEmpty(x.steps, StepApps);
    forall i | 0 <= i < |x.steps| ensures |StepApps(x.steps[i])| == 0 <==> |x.steps[i].pat| == 0 {
      FlatMapEmpty(x.steps[i].pat, EntryApps);
      if |x.steps[i].pat| > 0 {
        assert |EntryApps(x.steps[i].pat[0])| > 0;
      }
    }
    DedupMembers(history);
    if |history| > 0 {
      assert history[0] in Dedup(history);
    }
  }

  /** Some step of the product lists a PAT entry. */
  ghost predicate UsesPat(x: Product) {
    exists i :: 0 <= i < |x.steps| && |x.steps[i].pat| > 0
  }

  /** The PAT matrix raises exactly when no product of the merged catalog lists a PAT entry. */
  lemma PatMatrixEmpty(g: Groups)
    ensures CatalogRows(AllProcesses(g), PatRows) == [] <==>
      forall i, j :: 0 <= i < |AllProcesses(g)| && 0 <= j < |AllProcesses(g)[i].1| ==> !UsesPat(AllProcesses(g)[i].1[j].1)
  {
    var all := AllProcesses(g);
    var rows := CatalogRows(all, PatRows);
    if rows != [] {
      CatalogRowsMembers(all, PatRows, rows[0]);
      var i: nat, j: nat :| RowOfProduct(all, PatRows, rows[0], i, j);
      PatRowIffPatUsed(all[i].0, all[i].1[j].0, all[i].1[j].1);
    }
    forall i, j | 0 <= i < |all| && 0 <= j < |all[i].1| && UsesPat(all[i].1[j].1) ensures rows != [] {
      var x := all[i].1[j].1;
      PatRowIffPatUsed(all[i].0, all[i].1[j].0, x);
      var r := PatRows(all[i].0, all[i].1[j].0, x)[0];
      assert RowOfProduct(all, PatRows, r, i, j);
      CatalogRowsMembers(all, PatRows, r);
    }
  }

  /**
   * An application is listed for a product exactly when one of its entries mentions the technology's
   * key, or is itself the application and mentions no key at all.
   */
  lemma PatAppsMembers(x: Product, app: string)
    ensures app in PatApps(x) <==> exists i, k :: 0 <= i < |x.steps| && 0 <= k < |x.steps[i].pat| && app in EntryApps(x.steps[i].pat[k])
    ensures forall e :: app in EntryApps(e) <==>
      (exists t :: 0 <= t < |PatTechnologies| && Contains(e, PatTechnologies[t].0) && PatTechnologies[t].1 == app)
      || (app == e && forall t :: 0 <= t < |PatTechnologies| ==> !Contains(e, PatTechnologies[t].0))
  {
    var history := FlatMap(x.steps, StepApps);
    DedupMembers(history);
    FlatMapMembers(x.steps, StepApps, app);
    forall i | 0 <= i < |x.steps| ensures app in StepApps(x.steps[i]) <==> exists k :: 0 <= k < |x.steps[i].pat| && app in EntryApps(x.steps[i].pat[k]) {
      FlatMapMembers(x.steps[i].pat, EntryApps, app);
    }
    forall e ensures app in EntryApps(e) <==>
      (exists t :: 0 <= t < |PatTechnologies| && Contains(e, PatTechnologies[t].0) && PatTechnologies[t].1 == app)
      || (app == e && forall t :: 0 <= t < |PatTechnologies| ==> !Contains(e, PatTechnologies[t].0))
    {
      NoneMatched(PatTechnologies, e);
      MatchedMembers(PatTechnologies, e, app);
    }
  }

  /**
   * A row counts the distinct applications, lists them sorted and each once, and labels its automation
   * level 高 from four on, 中 from two and 低 for one.
   */
  lemma PatRowShape(c: string, p: string, x: Product, r: PatRow)
    requires r in PatRows(c, p, x)
    ensures r.count == |PatApps(x)| >= 1
    ensures forall a :: a in PatApps(x) ==> Contains(r.technologies, a)
    ensures (r.automation == "高" <==> r.count >= 4) && (r.automation == "中" <==> 2 <= r.count < 4)
      && (r.automation == "低" <==> r.count == 1)
  {
    var apps := PatApps(x);
    StrOrderTotal();
    var sorted := SortBy(apps, StrOrder());
    forall a | a in apps ensures Contains(r.technologies, a) {
      assert a in multiset(apps);
      var k :| 0 <= k < |sorted| && sorted[k] == a;
      JoinHasItems(", ", sorted, k);
    }
  }

  // ---------------------------------------------------------------- equipment master list

  /** A piece of equipment used by a product, with the product's `f"{category} - {product}"` label. */
  type Occurrence = (string, string)

  function ProductLabel(c: string, p: string): string {
    c + " - " + p
  }

  /** The equipment of one step, each paired with the product's label. */
  function StepOccurrences(owner: string, step: Step): seq<Occurrence> {
    seq(|step.equipment|, k requires 0 <= k < |step.equipment| => (step.equipment[k], owner))
  }

  /** The equipment of a product's steps, step by step, each paired with the product's label. */
  function StepsOccurrences(owner: string, steps: seq<Step>): seq<Occurrence>
    decreases |steps|
  {
    if |steps| == 0 then []
    else StepsOccurrences(owner, steps[..|steps| - 1]) + StepOccurrences(owner, steps[|steps| - 1])
  }

  function EquipmentOccurrences(c: string, p: string, x: Product): seq<Occurrence> {
    StepsOccurrences(ProductLabel(c, p), x.steps)
  }

  /**
   * One pass of the innermost loop: the equipment gets an empty list when first seen, and the owner
   * is appended unless the list holds it already.
   */
  function Register(d: Assoc<seq<string>>, o: Occurrence): Assoc<seq<string>> {
    var labels := Get(d, o.0).GetOr([]);
    Put(d, o.0, if o.1 in labels then labels else labels + [o.1])
  }

  /** `equipment_dict` after the occurrences, in order. */
  function Fold(occs: seq<Occurrence>): Assoc<seq<string>>
    decreases |occs|
  {
    if |occs| == 0 then [] else Register(Fold(occs[..|occs| - 1]), occs[|occs| - 1])
  }

  lemma FoldSnoc(occs: seq<Occurrence>, o: Occurrence)
    ensures Fold(occs + [o]) == Register(Fold(occs), o)
  {
    assert (occs + [o])[..|occs|] == occs;
  }

  /** The equipment names of the occurrences, in order. */
  function EquipmentNames(occs: seq<Occurrence>): seq<string>
    decreases |occs|
  {
    if |occs| == 0 then [] else EquipmentNames(occs[..|occs| - 1]) + [occs[|occs| - 1].0]
  }

  /** The labels recorded with equipment `e`, in order. */
  function LabelsFor(occs: seq<Occurrence>, e: string): seq<string>
    decreases |occs|
  {
    if |occs| == 0 then []
    else LabelsFor(occs[..|occs| - 1], e) + (if occs[|occs| - 1].0 == e then [occs[|occs| - 1].1] else [])
  }

  /**
   * The dictionary lists each piece of equipment once, in order of first use, and under it the
   * labels of the products using it in order of first use, each once.
   */
  lemma {:induction false} FoldContents(occs: seq<Occurrence>, e: string)
    ensures Keys(Fold(occs)) == Dedup(EquipmentNames(occs))
    ensures Get(Fold(occs), e).GetOr([]) == Dedup(LabelsFor(occs, e))
    decreases |occs|
  {
    if |occs| > 0 {
      var p := occs[..|occs| - 1];
      var o := occs[|occs| - 1];
      var d := Fold(p);
      FoldContents(p, e);
      FoldContents(p, o.0);
      var labels := Get(d, o.0).GetOr([]);
      var v := if o.1 in labels then labels else labels + [o.1];
      assert Fold(occs) == Put(d, o.0, v);
      PutDedup(d, EquipmentNames(p), o.0, v);
      if o.0 == e {
        DedupSnoc(LabelsFor(p, e), o.1);
      } else {
        assert LabelsFor(occs, e) == LabelsFor(p, e) + [] == LabelsFor(p, e);
      }
    }
  }

  /** A owner is recorded with equipment `e` exactly when the pair occurs. */
  lemma {:induction false} LabelsForMembers(occs: seq<Occurrence>, e: string, l: string)
    ensures l in LabelsFor(occs, e) <==> (e, l) in occs
    decreases |occs|
  {
    if |occs| > 0 {
      var p := occs[..|occs| - 1];
      LabelsForMembers(p, e, l);
      assert occs == p + [occs[|occs| - 1]];
    }
  }

  /** A piece of equipment is paired with a owner exactly when the owner is the product's and some step lists it. */
  lemma {:induction false} StepsOccurrencesMembers(owner: string, steps: seq<Step>, o: Occurrence)
    ensures o in StepsOccurrences(owner, steps) <==> o.1 == owner && exists i :: 0 <= i < |steps| && o.0 in steps[i].equipment
    decreases |steps|
  {
    if |steps| > 0 {
      var n := |steps| - 1;
      var p := steps[..n];
      StepsOccurrencesMembers(owner, p, o);
      StepOccurrencesMembers(owner, steps[n], o);
      assert StepsOccurrences(owner, steps) == StepsOccurrences(owner, p) + StepOccurrences(owner, steps[n]);
      SomeStepUsesSplit(steps, p, steps[n], o.0);
    }
  }

  /** Some step uses the equipment exactly when one before the last does or the last does. */
  lemma SomeStepUsesSplit(steps: seq<Step>, p: seq<Step>, last: Step, name: string)
    requires |steps| > 0 && p == steps[..|steps| - 1] && last == steps[|steps| - 1]
    ensures (exists i :: 0 <= i < |steps| && name in steps[i].equipment) <==>
      (exists i :: 0 <= i < |p| && name in p[i].equipment) || name in last.equipment
  {
    var n := |steps| - 1;
    if exists i :: 0 <= i < |p| && name in p[i].equipment {
      var i :| 0 <= i < |p| && name in p[i].equipment;
      assert steps[i] == p[i];
    }
    if exists i :: 0 <= i < |steps| && name in steps[i].equipment {
      var i :| 0 <= i < |steps| && name in steps[i].equipment;
      if i < n {
        assert p[i] == steps[i];
      }
    }
  }

  lemma StepOccurrencesMembers(owner: string, step: Step, o: Occurrence)
    ensures o in StepOccurrences(owner, step) <==> o.1 == owner && o.0 in step.equipment
  {
    var occs := StepOccurrences(owner, step);
    if o in occs {
      var k :| 0 <= k < |occs| && occs[k] == o;
    }
    if o.1 == owner && o.0 in step.equipment {
      var k :| 0 <= k < |step.equipment| && step.equipment[k] == o.0;
      assert occs[k] == o;
    }
  }

  /** `Register` is the source's two updates: an empty list for new equipment, then the label appended when missing. */
  lemma RegisterInTwoSteps(d: Assoc<seq<string>>, e: string, l: string)
    ensures var d1 := if e in Keys(d) then d else Put(d, e, []);
      var labels := Get(d1, e).GetOr([]);
      Register(d, (e, l)) == if l in labels then d1 else Put(d1, e, labels + [l])
  {
    if e in Keys(d) {
      RegisterKnown(d, e, l);
    } else {
      RegisterNew(d, e, l);
    }
  }

  lemma RegisterKnown(d: Assoc<seq<string>>, e: string, l: string)
    requires e in Keys(d)
    ensures var labels := Get(d, e).GetOr([]);
      Register(d, (e, l)) == if l in labels then d else Put(d, e, labels + [l])
  {
    var labels := Get(d, e).GetOr([]);
    if l in labels {
      PutSame(d, e, labels);
    }
  }

  lemma RegisterNew(d: Assoc<seq<string>>, e: string, l: string)
    requires e !in Keys(d)
    ensures var d1 := Put(d, e, []);
      Get(d1, e).GetOr([]) == [] && Register(d, (e, l)) == Put(d1, e, [] + [l])
  {
    assert Get(d, e).GetOr([]) == [];
    assert [] + [l] == [l];
    PutTwice(d, e, [], [l]);
  }

  /** The dictionary before sorting. */
  function EquipmentDict(g: Groups): Assoc<seq<string>> {
    Fold(CatalogRows(AllProcesses(g), EquipmentOccurrences))
  }

  /** The loop over the equipment of one step. */
  method RegisterStep(owner: string, step: Step, ghost done: seq<Occurrence>, d0: Assoc<seq<string>>)
    returns (d: Assoc<seq<string>>)
    requires d0 == Fold(done)
    ensures d == Fold(done + StepOccurrences(owner, step))
  {
    d := d0;
    var occs := StepOccurrences(owner, step);
    assert done + occs[..0] == done;
    for k := 0 to |step.equipment|
      invariant d == Fold(done + occs[..k])
    {
      ConcatSnoc(done, occs, k);
      FoldSnoc(done + occs[..k], occs[k]);
      var equipment := step.equipment[k];
      RegisterInTwoSteps(d, equipment, owner);
      if equipment !in Keys(d) {
        d := Put(d, equipment, []);
      }
      var labels := Get(d, equipment).GetOr([]);
      if owner !in labels {
        d := Put(d, equipment, labels + [owner]);
      }
    }
    WholePrefix(occs);
  }

  /** The loop over the steps of one product. */
  method RegisterSteps(owner: string, steps: seq<Step>, ghost done: seq<Occurrence>, d0: Assoc<seq<string>>)
    returns (d: Assoc<seq<string>>)
    requires d0 == Fold(done)
    ensures d == Fold(done + StepsOccurrences(owner, steps))
  {
    d := d0;
    assert steps[..0] == [] && done + [] == done;
    for i := 0 to |steps|
      invariant d == Fold(done + StepsOccurrences(owner, steps[..i]))
    {
      PrefixSnoc(steps, i);
      ghost var before := StepsOccurrences(owner, steps[..i]);
      assert StepsOccurrences(owner, steps[..i + 1]) == before + StepOccurrences(owner, steps[i]);
      AppendAssoc(done, before, StepOccurrences(owner, steps[i]));
      d := RegisterStep(owner, steps[i], done + before, d);
    }
    WholePrefix(steps);
  }

  /** The loop over the products of one category. */
  method RegisterCategory(c: string, products: Assoc<Product>, ghost done: seq<Occurrence>, d0: Assoc<seq<string>>)
    returns (d: Assoc<seq<string>>)
    requires d0 == Fold(done)
    ensures d == Fold(done + CategoryRows(c, products, EquipmentOccurrences))
  {
    d := d0;
    assert products[..0] == [] && done + [] == done;
    for j := 0 to |products|
      invariant d == Fold(done + CategoryRows(c, products[..j], EquipmentOccurrences))
    {
      CategoryRowsStep(c, products, EquipmentOccurrences, j);
      ghost var before := CategoryRows(c, products[..j], EquipmentOccurrences);
      AppendAssoc(done, before, EquipmentOccurrences(c, products[j].0, products[j].1));
      var owner := c + " - " + products[j].0;
      d := RegisterSteps(owner, products[j].1.steps, done + before, d);
    }
    WholePrefix(products);
  }

  /** `get_equipment_master_list`: the dictionary built over the merged catalog, its entries sorted by equipment name. */
  method GetEquipmentMasterList(g: Groups) returns (list: Assoc<seq<string>>)
    ensures multiset(list) == multiset(EquipmentDict(g))
    ensures SortedBy(list, ByKey())
  {
    var all := AllProcesses(g);
    var d: Assoc<seq<string>> := [];
    for i := 0 to |all|
      invariant d == Fold(CatalogRows(all[..i], EquipmentOccurrences))
    {
      CatalogRowsStep(all, EquipmentOccurrences, i);
      d := RegisterCategory(all[i].0, all[i].1, CatalogRows(all[..i], EquipmentOccurrences), d);
    }
    WholePrefix(all);
    ByKeyTotal<seq<string>>();
    list := SortBy(d, ByKey());
  }

  /** A name is among the equipment names exactly when it is paired with some label. */
  lemma {:induction false} EquipmentNamesMembers(occs: seq<Occurrence>, e: string)
    ensures e in EquipmentNames(occs) <==> exists l :: (e, l) in occs
    decreases |occs|
  {
    if |occs| > 0 {
      var p := occs[..|occs| - 1];
      EquipmentNamesMembers(p, e);
      assert occs == p + [occs[|occs| - 1]];
    }
  }

  /**
   * The master list holds one entry per piece of equipment any step of any product uses, each name
   * once; under it stand, each once, exactly the labels of the products with a step using it.
   */
  lemma EquipmentMasterListContents(g: Groups, list: Assoc<seq<string>>, e: string, labels: seq<string>)
    requires multiset(list) == multiset(EquipmentDict(g))
    ensures UniqueKeys(list)
    ensures e in Keys(list) <==> exists l :: (e, l) in CatalogRows(AllProcesses(g), EquipmentOccurrences)
    ensures (e, labels) in list ==> (Distinct(labels)
      && forall l :: l in labels <==> (e, l) in CatalogRows(AllProcesses(g), EquipmentOccurrences))
  {
    var occs := CatalogRows(AllProcesses(g), EquipmentOccurrences);
    var d := Fold(occs);
    FoldContents(occs, e);
    assert UniqueKeys(d);
    PermutedKeys(d, list);
    EquipmentNamesMembers(occs, e);
    DedupMembers(EquipmentNames(occs));
    if (e, labels) in list {
      assert (e, labels) in multiset(d);
      InUniqueGet(d, e, labels);
      DedupMembers(LabelsFor(occs, e));
      forall l ensures l in labels <==> (e, l) in occs {
        LabelsForMembers(occs, e, l);
      }
    }
  }

  /** The occurrence pairs of a product: its label with each piece of equipment a step of it lists. */
  lemma EquipmentOccurrencesMembers(c: string, p: string, x: Product, o: Occurrence)
    ensures o in EquipmentOccurrences(c, p, x) <==>
      o.1 == c + " - " + p && exists i :: 0 <= i < |x.steps| && o.0 in x.steps[i].equipment
  {
    StepsOccurrencesMembers(ProductLabel(c, p), x.steps, o);
  }
}
