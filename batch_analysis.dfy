/**
 * The analyses mes_features.py runs over a table of batch records: per-parameter trend
 * statistics, the quality report and the OEE estimate. The table is the records laid out as
 * `pd.DataFrame(records)` does: its columns are the records' keys in first-seen order, a record
 * without a column reads as NaN there, and `pd.to_numeric(..., errors='coerce')` reads text as
 * NaN. A cell is `Some(x)` for a number and `None` for NaN.
 */
module BatchAnalysis {
  import opened Wrappers
  import opened Seqs
  import opened Text
  import opened Assoc
  import opened BatchRecords
  import opened SeriesStats

  // ---------------------------------------------------------------- the table

  /** The keys every record dict starts with, in insertion order. */
  const FixedColumns: seq<string> := [
    "batch_number", "product_name", "manufacturing_date", "expiry_date", "batch_size", "line",
    "shift", "operator", "supervisor", "yield_percent", "quality_status", "overall_status"]

  const TargetSuffix := "_target"
  const ActualSuffix := "_actual"
  const StatusSuffix := "_status"

  /** The three columns each reading adds, in the order they are assigned. */
  function ReadingColumns(readings: Assoc<Reading>): seq<string>
    decreases |readings|
  {
    if |readings| == 0 then []
    else
      var k := readings[|readings| - 1].0;
      ReadingColumns(readings[..|readings| - 1]) + [k + TargetSuffix, k + ActualSuffix, k + StatusSuffix]
  }

  function RecordColumns(row: BatchRecord): seq<string> {
    FixedColumns + ReadingColumns(row.readings)
  }

  function AllColumns(rows: seq<BatchRecord>): seq<string>
    decreases |rows|
  {
    if |rows| == 0 then [] else AllColumns(rows[..|rows| - 1]) + RecordColumns(rows[|rows| - 1])
  }

  /** `DataFrame(records).columns`: every key of every record, once, in first-seen order. */
  function Columns(rows: seq<BatchRecord>): seq<string> {
    Dedup(AllColumns(rows))
  }

  /** A key of the readings with its three columns, looked up front to back. */
  function ReadingCell(readings: Assoc<Reading>, col: string): Option<real>
    decreases |readings|
  {
    if |readings| == 0 then None
    else
      var k := readings[0].0;
      var r := readings[0].1;
      if col == k + TargetSuffix then Some(r.target)
      else if col == k + ActualSuffix then Some(r.actual)
      else if col == k + StatusSuffix then None
      else ReadingCell(readings[1..], col)
  }

  /** The numeric value of `row` in column `col`: None for text and for a column the row lacks. */
  function Cell(row: BatchRecord, col: string): Option<real> {
    if col == "batch_size" then Some(row.batchSize as real)
    else if col == "yield_percent" then Some(row.yieldPercent)
    else if col in FixedColumns then None
    else ReadingCell(row.readings, col)
  }

  /** `pd.to_numeric(df[col], errors='coerce').dropna()`: the numbers of the column, in row order. */
  function ColumnValues(rows: seq<BatchRecord>, col: string): (v: seq<real>)
    ensures |v| <= |rows|
    decreases |rows|
  {
    if |rows| == 0 then []
    else
      var v0 := ColumnValues(rows[..|rows| - 1], col);
      match Cell(rows[|rows| - 1], col)
      case Some(x) => v0 + [x]
      case None => v0
  }

  /** Strings ending in different characters differ. */
  lemma EndsDiffer(a: string, b: string, s1: string, s2: string)
    requires |s1| > 0 && |s2| > 0 && s1[|s1| - 1] != s2[|s2| - 1]
    ensures a + s1 != b + s2
  {
    var x, y := a + s1, b + s2;
    assert x[|x| - 1] == s1[|s1| - 1];
    assert y[|y| - 1] == s2[|s2| - 1];
  }

  lemma SameSuffixCancels(a: string, b: string, s: string)
    ensures a + s == b + s ==> a == b
  {
    if a + s == b + s {
      assert a == (a + s)[..|a|];
      assert b == (b + s)[..|b|];
    }
  }

  lemma ActualNotFixed(b: string)
    ensures b + ActualSuffix !in FixedColumns
  {
    forall c | c in FixedColumns ensures c != b + ActualSuffix {
      assert c[|c| - 1] != 'l';
      EndsDiffer(b, "", ActualSuffix, c);
    }
  }

  /** Columns of different kinds never coincide: their last characters differ. */
  lemma SuffixesDiffer(a: string, b: string)
    ensures a + TargetSuffix != b + ActualSuffix
    ensures a + StatusSuffix != b + ActualSuffix
    ensures a + ActualSuffix == b + ActualSuffix ==> a == b
    ensures b + ActualSuffix !in FixedColumns
  {
    EndsDiffer(a, b, TargetSuffix, ActualSuffix);
    EndsDiffer(a, b, StatusSuffix, ActualSuffix);
    SameSuffixCancels(a, b, ActualSuffix);
    ActualNotFixed(b);
  }

  /**
   * The `<key>_actual` column of a record holds the actual value of its reading `key`, and NaN
   * when the record has no such reading.
   */
  lemma {:induction false} ReadingActualCell(readings: Assoc<Reading>, k: string)
    ensures ReadingCell(readings, k + ActualSuffix)
      == match Get(readings, k) case Some(r) => Some(r.actual) case None => None
    decreases |readings|
  {
    if |readings| > 0 {
      SuffixesDiffer(readings[0].0, k);
      ReadingActualCell(readings[1..], k);
    }
  }

  lemma ActualCell(row: BatchRecord, k: string)
    ensures Cell(row, k + ActualSuffix)
      == match Get(row.readings, k) case Some(r) => Some(r.actual) case None => None
  {
    SuffixesDiffer(k, k);
    assert k + ActualSuffix != "batch_size" && k + ActualSuffix != "yield_percent";
    ReadingActualCell(row.readings, k);
  }

  /** A column every row fills has one value per row. */
  lemma {:induction false} FullColumn(rows: seq<BatchRecord>, col: string)
    requires forall i :: 0 <= i < |rows| ==> Cell(rows[i], col).Some?
    ensures |ColumnValues(rows, col)| == |rows|
    decreases |rows|
  {
    if |rows| > 0 {
      FullColumn(rows[..|rows| - 1], col);
    }
  }

  // ---------------------------------------------------------------- column statistics

  /** The display name: `col.replace("_actual", "").replace("_", " ").title()`. */
  function ParamName(col: string): string {
    Title(ReplaceChar(RemoveAll(col, ActualSuffix), '_', ' '))
  }

  datatype ParamStats = ParamStats(
    mean: real,
    std: Option<real>,
    min: real,
    max: real,
    cv: Option<real>,
    trend: string,
    cpk: real,
    outliers: seq<nat>)

  /** The coefficient of variation `std / mean * 100`, 0 for a zero mean; None for the NaN of one value. */
  function Cv(v: seq<real>, sqrt: real -> real): Option<real>
    requires |v| > 0
  {
    var m := Mean(v);
    if m == 0.0 then Some(0.0)
    else
      match Std(v, sqrt)
      case Some(s) => Some(s / m * 100.0)
      case None => None
  }

  /** The statistics `analyze_batch_trends` records for one column. */
  function StatsOf(v: seq<real>, sqrt: real -> real): ParamStats
    requires |v| > 0
  {
    ParamStats(Mean(v), Std(v, sqrt), MinOf(v), MaxOf(v), Cv(v, sqrt), Trend(v), Cpk(v, sqrt), Outliers(v, sqrt))
  }

  /**
   * What the statistics of a column promise: the mean lies between the extremes, σ is missing
   * exactly for a single value and is never negative, Cpk is 0 or 1, the outliers are ascending
   * positions of the column and fewer than a quarter of n - 1, and short columns have no trend.
   */
  lemma StatsSound(v: seq<real>, sqrt: real -> real)
    requires |v| > 0 && IsSqrt(sqrt)
    ensures var st := StatsOf(v, sqrt);
      && st.min <= st.mean <= st.max
      && (st.std.None? <==> |v| == 1)
      && (st.std.Some? ==> st.std.value >= 0.0)
      && (st.cv.None? <==> |v| == 1 && st.mean != 0.0)
      && (st.cpk == 0.0 || st.cpk == 1.0)
      && StrictlyIncreasing(st.outliers)
      && (forall j :: 0 <= j < |st.outliers| ==> st.outliers[j] < |v|)
      && 4 * |st.outliers| < Max(|v| - 1, 1)
      && (|v| < 3 ==> st.trend == TrendTooShort)
  {
    MeanBetweenExtremes(v);
    CpkIsOneOrZero(v, sqrt);
    OutlierBound(v, sqrt);
    if |v| >= 2 {
      assert sqrt(SampleVariance(v)) >= 0.0;
    }
  }

  // ---------------------------------------------------------------- analyze_batch_trends

  /** `pattern.lower() in col.lower() and "_actual" in col`. */
  predicate ColumnMatches(col: string, pattern: string) {
    Contains(Lower(col), Lower(pattern)) && Contains(col, ActualSuffix)
  }

  function MatchesPattern(pattern: string): string -> bool {
    (col: string) => ColumnMatches(col, pattern)
  }

  /** The inner loop: each column with numbers stores its statistics under its name; a later column of the same name overwrites. */
  function AddColumns(acc: Assoc<ParamStats>, rows: seq<BatchRecord>, cols: seq<string>, sqrt: real -> real): Assoc<ParamStats>
    decreases |cols|
  {
    if |cols| == 0 then acc
    else
      var a := AddColumns(acc, rows, cols[..|cols| - 1], sqrt);
      var c := cols[|cols| - 1];
      var v := ColumnValues(rows, c);
      if |v| > 0 then Put(a, ParamName(c), StatsOf(v, sqrt)) else a
  }

  /** The outer loop over the requested patterns. */
  function AddPatterns(rows: seq<BatchRecord>, cols: seq<string>, patterns: seq<string>, sqrt: real -> real): Assoc<ParamStats>
    decreases |patterns|
  {
    if |patterns| == 0 then []
    else
      var before := AddPatterns(rows, cols, patterns[..|patterns| - 1], sqrt);
      AddColumns(before, rows, Filter(cols, MatchesPattern(patterns[|patterns| - 1])), sqrt)
  }

  /** `analyze_batch_trends`: nothing for an empty table or no patterns. */
  function TrendsOf(rows: seq<BatchRecord>, patterns: seq<string>, sqrt: real -> real): Assoc<ParamStats> {
    if |rows| == 0 || |patterns| == 0 then [] else AddPatterns(rows, Columns(rows), patterns, sqrt)
  }

  /** Column `col` stores `st` under `name`. */
  predicate Describes(rows: seq<BatchRecord>, col: string, name: string, st: ParamStats, sqrt: real -> real) {
    var v := ColumnValues(rows, col);
    ParamName(col) == name && |v| > 0 && st == StatsOf(v, sqrt)
  }

  /** Some column of `cols` stores `st` under `name`. */
  predicate ExplainedIn(rows: seq<BatchRecord>, cols: seq<string>, name: string, st: ParamStats, sqrt: real -> real) {
    exists c :: c in cols && Describes(rows, c, name, st, sqrt)
  }

  /** Some column of `cols` with numbers is named `name`. */
  predicate NamedIn(rows: seq<BatchRecord>, cols: seq<string>, name: string) {
    exists c :: c in cols && ParamName(c) == name && |ColumnValues(rows, c)| > 0
  }

  predicate MatchesSome(col: string, patterns: seq<string>) {
    exists j :: 0 <= j < |patterns| && ColumnMatches(col, patterns[j])
  }

  lemma NamedInSnoc(rows: seq<BatchRecord>, p: seq<string>, c: string, name: string)
    ensures NamedIn(rows, p + [c], name) <==> NamedIn(rows, p, name) || (ParamName(c) == name && |ColumnValues(rows, c)| > 0)
  {
    if NamedIn(rows, p + [c], name) {
      var c' :| c' in p + [c] && ParamName(c') == name && |ColumnValues(rows, c')| > 0;
      if c' != c {
        assert c' in p;
      }
    }
  }

  /** The names the inner loop adds are those of its columns with numbers. */
  lemma AddColumnsKeys(acc: Assoc<ParamStats>, rows: seq<BatchRecord>, cols: seq<string>, sqrt: real -> real)
    ensures forall name :: name in Keys(AddColumns(acc, rows, cols, sqrt)) <==> name in Keys(acc) || NamedIn(rows, cols, name)
  {
    forall name
      ensures name in Keys(AddColumns(acc, rows, cols, sqrt)) <==> name in Keys(acc) || NamedIn(rows, cols, name)
    {
      AddColumnsKey(acc, rows, cols, sqrt, name);
    }
  }

  lemma {:induction false} AddColumnsKey(acc: Assoc<ParamStats>, rows: seq<BatchRecord>, cols: seq<string>, sqrt: real -> real, name: string)
    ensures name in Keys(AddColumns(acc, rows, cols, sqrt)) <==> name in Keys(acc) || NamedIn(rows, cols, name)
    decreases |cols|
  {
    if |cols| > 0 {
      var p := cols[..|cols| - 1];
      var c := cols[|cols| - 1];
      AddColumnsKey(acc, rows, p, sqrt, name);
      DropLastSnoc(cols);
      NamedInSnoc(rows, p, c, name);
      var v := ColumnValues(rows, c);
      if |v| > 0 {
        PutKeyIn(AddColumns(acc, rows, p, sqrt), ParamName(c), StatsOf(v, sqrt), name);
      }
    }
  }

  /** Every entry the inner loop leaves is the one it started with or the statistics of one of its columns. */
  lemma {:induction false} AddColumnsValues(acc: Assoc<ParamStats>, rows: seq<BatchRecord>, cols: seq<string>, sqrt: real -> real, name: string)
    ensures var r := AddColumns(acc, rows, cols, sqrt);
      Get(r, name).Some? ==> Get(r, name) == Get(acc, name) || ExplainedIn(rows, cols, name, Get(r, name).value, sqrt)
    decreases |cols|
  {
    if |cols| > 0 {
      AddColumnsValues(acc, rows, cols[..|cols| - 1], sqrt, name);
      AddColumnValueAt(acc, rows, cols, sqrt, name);
    }
  }

  /** One more column: the entry under `name` is the previous one or that column's statistics. */
  lemma AddColumnValueAt(acc: Assoc<ParamStats>, rows: seq<BatchRecord>, cols: seq<string>, sqrt: real -> real, name: string)
    requires |cols| > 0
    requires var a := AddColumns(acc, rows, cols[..|cols| - 1], sqrt);
      Get(a, name).Some? ==> Get(a, name) == Get(acc, name) || ExplainedIn(rows, cols[..|cols| - 1], name, Get(a, name).value, sqrt)
    ensures var r := AddColumns(acc, rows, cols, sqrt);
      Get(r, name).Some? ==> Get(r, name) == Get(acc, name) || ExplainedIn(rows, cols, name, Get(r, name).value, sqrt)
  {
    var p := cols[..|cols| - 1];
    var c := cols[|cols| - 1];
    var a := AddColumns(acc, rows, p, sqrt);
    var v := ColumnValues(rows, c);
    var r := AddColumns(acc, rows, cols, sqrt);
    if Get(r, name).Some? {
      if |v| > 0 && name == ParamName(c) {
        assert c in cols && Describes(rows, c, name, Get(r, name).value, sqrt);
      } else {
        assert Get(r, name) == Get(a, name);
        if Get(a, name) != Get(acc, name) {
          var c' :| c' in p && Describes(rows, c', name, Get(a, name).value, sqrt);
          assert c' in cols;
        }
      }
    }
  }

  lemma {:induction false} AddColumnsUnique(acc: Assoc<ParamStats>, rows: seq<BatchRecord>, cols: seq<string>, sqrt: real -> real)
    requires UniqueKeys(acc)
    ensures UniqueKeys(AddColumns(acc, rows, cols, sqrt))
    decreases |cols|
  {
    if |cols| > 0 {
      var p := cols[..|cols| - 1];
      var c := cols[|cols| - 1];
      AddColumnsUnique(acc, rows, p, sqrt);
      var v := ColumnValues(rows, c);
      if |v| > 0 {
        PutUnique(AddColumns(acc, rows, p, sqrt), ParamName(c), StatsOf(v, sqrt));
      }
    }
  }

  lemma MatchesSomeSnoc(c: string, ps: seq<string>, last: string)
    ensures MatchesSome(c, ps + [last]) <==> MatchesSome(c, ps) || ColumnMatches(c, last)
  {
    var qs := ps + [last];
    if MatchesSome(c, ps) {
      var j :| 0 <= j < |ps| && ColumnMatches(c, ps[j]);
      assert qs[j] == ps[j];
    }
    if ColumnMatches(c, last) {
      assert qs[|ps|] == last;
    }
    if MatchesSome(c, qs) && !ColumnMatches(c, last) {
      var j :| 0 <= j < |qs| && ColumnMatches(c, qs[j]);
      assert j < |ps| && ps[j] == qs[j];
    }
  }

  lemma FilterMember<T>(s: seq<T>, p: T -> bool, x: T)
    ensures x in Filter(s, p) <==> x in s && p(x)
  {
    var r := Filter(s, p);
    if x in r {
      var j :| 0 <= j < |r| && r[j] == x;
    }
  }

  /** A column with numbers that matches one of the patterns. */
  predicate Selected(rows: seq<BatchRecord>, cols: seq<string>, patterns: seq<string>, c: string) {
    c in cols && MatchesSome(c, patterns) && |ColumnValues(rows, c)| > 0
  }

  /** Some selected column bears `name`. */
  predicate SelectedName(rows: seq<BatchRecord>, cols: seq<string>, patterns: seq<string>, name: string) {
    exists c :: c in cols && Selected(rows, cols, patterns, c) && ParamName(c) == name
  }

  /** Some selected column bears `name` and has the statistics `st`. */
  predicate Explained(rows: seq<BatchRecord>, cols: seq<string>, patterns: seq<string>, name: string, st: ParamStats, sqrt: real -> real) {
    exists c :: c in cols && Selected(rows, cols, patterns, c) && Describes(rows, c, name, st, sqrt)
  }

  /** A column that one more pattern selects either was selected already or is among that pattern's matches. */
  lemma SelectedNameSnoc(rows: seq<BatchRecord>, cols: seq<string>, ps: seq<string>, last: string, name: string)
    ensures SelectedName(rows, cols, ps + [last], name) <==>
      SelectedName(rows, cols, ps, name) || NamedIn(rows, Filter(cols, MatchesPattern(last)), name)
  {
    var matching := Filter(cols, MatchesPattern(last));
    if SelectedName(rows, cols, ps + [last], name) {
      var c :| c in cols && Selected(rows, cols, ps + [last], c) && ParamName(c) == name;
      MatchesSomeSnoc(c, ps, last);
      FilterMember(cols, MatchesPattern(last), c);
      if !ColumnMatches(c, last) {
        assert Selected(rows, cols, ps, c);
      }
    }
    if SelectedName(rows, cols, ps, name) {
      var c :| c in cols && Selected(rows, cols, ps, c) && ParamName(c) == name;
      MatchesSomeSnoc(c, ps, last);
      assert Selected(rows, cols, ps + [last], c);
    }
    if NamedIn(rows, matching, name) {
      var c :| c in matching && ParamName(c) == name && |ColumnValues(rows, c)| > 0;
      MatchesSomeSnoc(c, ps, last);
      FilterMember(cols, MatchesPattern(last), c);
      assert Selected(rows, cols, ps + [last], c);
    }
  }

  lemma {:induction false} AddPatternsKeys(rows: seq<BatchRecord>, cols: seq<string>, patterns: seq<string>, sqrt: real -> real)
    ensures forall name :: name in Keys(AddPatterns(rows, cols, patterns, sqrt)) <==> SelectedName(rows, cols, patterns, name)
    decreases |patterns|
  {
    if |patterns| > 0 {
      var ps := patterns[..|patterns| - 1];
      var last := patterns[|patterns| - 1];
      assert patterns == ps + [last];
      var matching := Filter(cols, MatchesPattern(last));
      AddPatternsKeys(rows, cols, ps, sqrt);
      AddColumnsKeys(AddPatterns(rows, cols, ps, sqrt), rows, matching, sqrt);
      forall name
        ensures SelectedName(rows, cols, patterns, name) <==> SelectedName(rows, cols, ps, name) || NamedIn(rows, matching, name)
      {
        SelectedNameSnoc(rows, cols, ps, last, name);
      }
    }
  }

  /** Statistics explained by the patterns so far or by one more pattern's matches are explained by the longer list. */
  lemma ExplainedSnoc(rows: seq<BatchRecord>, cols: seq<string>, ps: seq<string>, last: string, name: string, st: ParamStats, sqrt: real -> real)
    requires Explained(rows, cols, ps, name, st, sqrt) || ExplainedIn(rows, Filter(cols, MatchesPattern(last)), name, st, sqrt)
    ensures Explained(rows, cols, ps + [last], name, st, sqrt)
  {
    if Explained(rows, cols, ps, name, st, sqrt) {
      var c :| c in cols && Selected(rows, cols, ps, c) && Describes(rows, c, name, st, sqrt);
      MatchesSomeSnoc(c, ps, last);
      assert Selected(rows, cols, ps + [last], c);
    } else {
      var c :| c in Filter(cols, MatchesPattern(last)) && Describes(rows, c, name, st, sqrt);
      MatchesSomeSnoc(c, ps, last);
      FilterMember(cols, MatchesPattern(last), c);
      assert Selected(rows, cols, ps + [last], c);
    }
  }

  lemma {:induction false} AddPatternsValues(rows: seq<BatchRecord>, cols: seq<string>, patterns: seq<string>, sqrt: real -> real, name: string)
    ensures var r := AddPatterns(rows, cols, patterns, sqrt);
      Get(r, name).Some? ==> Explained(rows, cols, patterns, name, Get(r, name).value, sqrt)
    decreases |patterns|
  {
    if |patterns| > 0 {
      var ps := patterns[..|patterns| - 1];
      var last := patterns[|patterns| - 1];
      assert patterns == ps + [last];
      AddPatternsValues(rows, cols, ps, sqrt, name);
      AddPatternValueStep(rows, cols, ps, last, sqrt, name);
    }
  }

  /** One more pattern keeps every entry explained: the entry was there before or comes from the pattern's matches. */
  lemma AddPatternValueStep(rows: seq<BatchRecord>, cols: seq<string>, ps: seq<string>, last: string, sqrt: real -> real, name: string)
    requires var before := AddPatterns(rows, cols, ps, sqrt);
      Get(before, name).Some? ==> Explained(rows, cols, ps, name, Get(before, name).value, sqrt)
    ensures var r := AddPatterns(rows, cols, ps + [last], sqrt);
      Get(r, name).Some? ==> Explained(rows, cols, ps + [last], name, Get(r, name).value, sqrt)
  {
    var q := ps + [last];
    assert q[..|q| - 1] == ps;
    var before := AddPatterns(rows, cols, ps, sqrt);
    var matching := Filter(cols, MatchesPattern(last));
    var r := AddPatterns(rows, cols, q, sqrt);
    assert r == AddColumns(before, rows, matching, sqrt);
    AddColumnsValues(before, rows, matching, sqrt, name);
    if Get(r, name).Some? {
      ExplainedSnoc(rows, cols, ps, last, name, Get(r, name).value, sqrt);
    }
  }

  lemma {:induction false} AddPatternsUnique(rows: seq<BatchRecord>, cols: seq<string>, patterns: seq<string>, sqrt: real -> real)
    ensures UniqueKeys(AddPatterns(rows, cols, patterns, sqrt))
    decreases |patterns|
  {
    if |patterns| > 0 {
      var ps := patterns[..|patterns| - 1];
      AddPatternsUnique(rows, cols, ps, sqrt);
      AddColumnsUnique(AddPatterns(rows, cols, ps, sqrt), rows, Filter(cols, MatchesPattern(patterns[|patterns| - 1])), sqrt);
    }
  }

  /**
   * The result of `analyze_batch_trends` holds an entry for a name exactly when some table column
   * that matches a requested pattern, has numbers and bears that name; every entry is the
   * statistics of such a column; and names are unique.
   */
  lemma TrendsEntries(rows: seq<BatchRecord>, patterns: seq<string>, sqrt: real -> real)
    requires |rows| > 0 && |patterns| > 0
    ensures var r := TrendsOf(rows, patterns, sqrt);
      && (forall name :: name in Keys(r) <==> SelectedName(rows, Columns(rows), patterns, name))
      && (forall name :: Get(r, name).Some? ==> Explained(rows, Columns(rows), patterns, name, Get(r, name).value, sqrt))
      && UniqueKeys(r)
  {
    var cols := Columns(rows);
    assert TrendsOf(rows, patterns, sqrt) == AddPatterns(rows, cols, patterns, sqrt);
    AddPatternsKeys(rows, cols, patterns, sqrt);
    forall name | Get(AddPatterns(rows, cols, patterns, sqrt), name).Some?
      ensures Explained(rows, cols, patterns, name, Get(AddPatterns(rows, cols, patterns, sqrt), name).value, sqrt)
    {
      AddPatternsValues(rows, cols, patterns, sqrt, name);
    }
    AddPatternsUnique(rows, cols, patterns, sqrt);
  }

  /** No table or no pattern: no analysis. */
  lemma TrendsEmpty(rows: seq<BatchRecord>, patterns: seq<string>, sqrt: real -> real)
    ensures |rows| == 0 || |patterns| == 0 ==> TrendsOf(rows, patterns, sqrt) == []
  {
  }

  /** `analyze_batch_trends`. */
  method AnalyzeBatchTrends(rows: seq<BatchRecord>, patterns: seq<string>, sqrt: real -> real)
    returns (results: Assoc<ParamStats>)
    ensures results == TrendsOf(rows, patterns, sqrt)
  {
    if |rows| == 0 || |patterns| == 0 {
      return [];
    }
    var cols := Columns(rows);
    results := [];
    for j := 0 to |patterns|
      invariant results == AddPatterns(rows, cols, patterns[..j], sqrt)
    {
      PrefixSnoc(patterns, j);
      var matching := Filter(cols, MatchesPattern(patterns[j]));
      results := AnalyzeColumns(results, rows, matching, sqrt);
    }
    WholePrefix(patterns);
  }

  /** The loop over the columns one pattern selects. */
  method AnalyzeColumns(acc: Assoc<ParamStats>, rows: seq<BatchRecord>, cols: seq<string>, sqrt: real -> real)
    returns (results: Assoc<ParamStats>)
    ensures results == AddColumns(acc, rows, cols, sqrt)
  {
    results := acc;
    for i := 0 to |cols|
      invariant results == AddColumns(acc, rows, cols[..i], sqrt)
    {
      PrefixSnoc(cols, i);
      var values := ColumnValues(rows, cols[i]);
      if |values| > 0 {
        var outliers := DetectOutliers(values, sqrt);
        var stats := ParamStats(Mean(values), Std(values, sqrt), MinOf(values), MaxOf(values),
          Cv(values, sqrt), Trend(values), Cpk(values, sqrt), outliers);
        results := Put(results, ParamName(cols[i]), stats);
      }
    }
    WholePrefix(cols);
  }

  // ---------------------------------------------------------------- generate_quality_report

  const PassedStatus := "通过"
  const Qualified := "合格"
  const Pending := "待定"
  const Rejected := "不合格"

  function IsPassed(row: BatchRecord): bool { row.overallStatus == PassedStatus }

  function IsFailed(row: BatchRecord): bool { row.overallStatus != PassedStatus }

  function HasQuality(status: string): BatchRecord -> bool {
    (row: BatchRecord) => row.qualityStatus == status
  }

  function Yields(rows: seq<BatchRecord>): (y: seq<real>)
    ensures |y| == |rows|
    ensures forall i :: 0 <= i < |rows| ==> y[i] == rows[i].yieldPercent
  {
    seq(|rows|, i requires 0 <= i < |rows| => rows[i].yieldPercent)
  }

  function IsActualColumn(col: string): bool { Contains(col, ActualSuffix) }

  datatype Summary = Summary(total: nat, passed: nat, failed: nat, yieldAverage: real, yieldMin: real, yieldMax: real)

  datatype Distribution = Distribution(qualified: nat, pending: nat, rejected: nat)

  datatype Stability = Stability(cv: Option<real>, tier: string)

  datatype QualityReport = QualityReport(
    summary: Summary,
    distribution: Distribution,
    stability: Assoc<Stability>,
    recommendations: seq<string>)

  const TierHigh := "高"
  const TierMedium := "中"
  const TierLow := "低"

  /** `"高" if cv < 5 else "中" if cv < 10 else "低"`; NaN fails both tests. */
  function Tier(cv: Option<real>): string {
    match cv
    case None => TierLow
    case Some(c) => if c < 5.0 then TierHigh else if c < 10.0 then TierMedium else TierLow
  }

  lemma TierMeaning(cv: Option<real>)
    ensures Tier(cv) == TierHigh <==> cv.Some? && cv.value < 5.0
    ensures Tier(cv) == TierMedium <==> cv.Some? && 5.0 <= cv.value < 10.0
    ensures Tier(cv) == TierLow <==> cv.None? || cv.value >= 10.0
  {
  }

  function SummaryOf(rows: seq<BatchRecord>): Summary
    requires |rows| > 0
  {
    var y := Yields(rows);
    Summary(|rows|, Count(rows, IsPassed), Count(rows, IsFailed), Mean(y), MinOf(y), MaxOf(y))
  }

  /** The quality counts; the rejected count is guarded by `"不合格" in values`, as written. */
  function DistributionOf(rows: seq<BatchRecord>): Distribution {
    var rejectedPresent := exists i :: 0 <= i < |rows| && rows[i].qualityStatus == Rejected;
    Distribution(
      Count(rows, HasQuality(Qualified)),
      Count(rows, HasQuality(Pending)),
      if rejectedPresent then Count(rows, HasQuality(Rejected)) else 0)
  }

  /** The stability loop over the given columns. */
  function StabilityFold(rows: seq<BatchRecord>, cols: seq<string>, sqrt: real -> real): Assoc<Stability>
    decreases |cols|
  {
    if |cols| == 0 then []
    else
      var a := StabilityFold(rows, cols[..|cols| - 1], sqrt);
      var c := cols[|cols| - 1];
      var v := ColumnValues(rows, c);
      if |v| > 0 then Put(a, ParamName(c), Stability(Cv(v, sqrt), Tier(Cv(v, sqrt)))) else a
  }

  /** The columns the stability section looks at: the first five `_actual` columns. */
  function StabilityColumns(rows: seq<BatchRecord>): seq<string> {
    Prefix(Filter(Columns(rows), IsActualColumn), 5)
  }

  const LowYieldAdvice := "收率偏低，建议优化工艺"
  const LowStabilityAdvice := "稳定性低，建议加强控制"

  function FailureAdvice(failed: nat): string {
    "需要调查" + NatToString(failed) + "个失败批次"
  }

  function IsLowEntry(e: (string, Stability)): bool { e.1.tier == TierLow }

  /** One advice per low-stability entry, in the report's order. */
  function LowStabilityAdvices(stability: Assoc<Stability>): seq<string>
    decreases |stability|
  {
    if |stability| == 0 then []
    else
      var e := stability[|stability| - 1];
      LowStabilityAdvices(stability[..|stability| - 1]) + (if IsLowEntry(e) then [e.0 + LowStabilityAdvice] else [])
  }

  function Recommendations(summary: Summary, stability: Assoc<Stability>): seq<string> {
    (if summary.failed > 0 then [FailureAdvice(summary.failed)] else [])
    + (if summary.yieldAverage < 90.0 then [LowYieldAdvice] else [])
    + LowStabilityAdvices(stability)
  }

  /** `generate_quality_report`: nothing for an empty table. */
  function QualityReportOf(rows: seq<BatchRecord>, sqrt: real -> real): (r: Option<QualityReport>)
    ensures r.None? <==> |rows| == 0
    ensures r.Some? ==>
      && r.value.summary.total == |rows|
      && r.value.summary.yieldMin <= r.value.summary.yieldAverage <= r.value.summary.yieldMax
  {
    if |rows| == 0 then None
    else
      MeanBetweenExtremes(Yields(rows));
      var summary := SummaryOf(rows);
      var stability := StabilityFold(rows, StabilityColumns(rows), sqrt);
      Some(QualityReport(summary, DistributionOf(rows), stability, Recommendations(summary, stability)))
  }

  /** `generate_quality_report`. */
  method GenerateQualityReport(rows: seq<BatchRecord>, sqrt: real -> real) returns (report: Option<QualityReport>)
    ensures report == QualityReportOf(rows, sqrt)
  {
    if |rows| == 0 {
      return None;
    }
    var summary := SummaryOf(rows);
    var cols := StabilityColumns(rows);
    var stability := AssessStability(rows, cols, sqrt);
    var recommendations := Recommend(summary, stability);
    report := Some(QualityReport(summary, DistributionOf(rows), stability, recommendations));
  }

  /** The recommendations: failures first, then a low average yield, then each low-stability parameter. */
  method Recommend(summary: Summary, stability: Assoc<Stability>) returns (recommendations: seq<string>)
    ensures recommendations == Recommendations(summary, stability)
  {
    recommendations := [];
    if summary.failed > 0 {
      recommendations := recommendations + [FailureAdvice(summary.failed)];
    }
    assert recommendations == if summary.failed > 0 then [FailureAdvice(summary.failed)] else [];
    if summary.yieldAverage < 90.0 {
      recommendations := recommendations + [LowYieldAdvice];
    }
    assert recommendations == (if summary.failed > 0 then [FailureAdvice(summary.failed)] else [])
      + (if summary.yieldAverage < 90.0 then [LowYieldAdvice] else []);
    var advice := AdviseOnStability(stability);
    recommendations := recommendations + advice;
  }

  /** The loop over the stability columns. */
  method AssessStability(rows: seq<BatchRecord>, cols: seq<string>, sqrt: real -> real) returns (stability: Assoc<Stability>)
    ensures stability == StabilityFold(rows, cols, sqrt)
  {
    stability := [];
    for i := 0 to |cols|
      invariant stability == StabilityFold(rows, cols[..i], sqrt)
    {
      PrefixSnoc(cols, i);
      var values := ColumnValues(rows, cols[i]);
      if |values| > 0 {
        var cv := Cv(values, sqrt);
        var tier := if cv.Some? && cv.value < 5.0 then TierHigh
          else if cv.Some? && cv.value < 10.0 then TierMedium
          else TierLow;
        stability := Put(stability, ParamName(cols[i]), Stability(cv, tier));
      }
    }
    WholePrefix(cols);
  }

  /** The loop over the stability entries that appends an advice for each low one. */
  method AdviseOnStability(stability: Assoc<Stability>) returns (advice: seq<string>)
    ensures advice == LowStabilityAdvices(stability)
  {
    advice := [];
    for i := 0 to |stability|
      invariant advice == LowStabilityAdvices(stability[..i])
    {
      PrefixSnoc(stability, i);
      if stability[i].1.tier == TierLow {
        advice := advice + [stability[i].0 + LowStabilityAdvice];
      }
    }
    WholePrefix(stability);
  }

  lemma {:induction false} LowStabilityAdvicesCount(stability: Assoc<Stability>)
    ensures |LowStabilityAdvices(stability)| == Count(stability, IsLowEntry)
    decreases |stability|
  {
    if |stability| > 0 {
      LowStabilityAdvicesCount(stability[..|stability| - 1]);
    }
  }

  /** The stability section holds one entry per name of a column with numbers, each once. */
  lemma {:induction false} StabilityFoldEntries(rows: seq<BatchRecord>, cols: seq<string>, sqrt: real -> real)
    ensures var st := StabilityFold(rows, cols, sqrt);
      && UniqueKeys(st)
      && |st| <= |cols|
      && (forall name :: name in Keys(st) <==> NamedIn(rows, cols, name))
    decreases |cols|
  {
    if |cols| > 0 {
      var p := cols[..|cols| - 1];
      var c := cols[|cols| - 1];
      assert cols == p + [c];
      StabilityFoldEntries(rows, p, sqrt);
      var a := StabilityFold(rows, p, sqrt);
      var v := ColumnValues(rows, c);
      var st := StabilityFold(rows, cols, sqrt);
      if |v| > 0 {
        var e := Stability(Cv(v, sqrt), Tier(Cv(v, sqrt)));
        assert st == Put(a, ParamName(c), e);
        PutUnique(a, ParamName(c), e);
        assert |Keys(st)| <= |Keys(a)| + 1;
      } else {
        assert st == a;
      }
      forall name ensures name in Keys(st) <==> NamedIn(rows, cols, name) {
        NamedInSnoc(rows, p, c, name);
      }
    }
  }

  /**
   * The report's counts: every batch is passed or failed; the guarded rejected count is the plain
   * count; batches whose quality is one of the three choices are split among them.
   */
  lemma ReportCounts(rows: seq<BatchRecord>, sqrt: real -> real)
    requires |rows| > 0
    ensures var r := QualityReportOf(rows, sqrt).value;
      && r.summary.total == |rows|
      && r.summary.passed + r.summary.failed == |rows|
      && (r.summary.failed == 0 <==> forall i :: 0 <= i < |rows| ==> rows[i].overallStatus == PassedStatus)
      && r.distribution.rejected == Count(rows, HasQuality(Rejected))
      && ((forall i :: 0 <= i < |rows| ==> rows[i].qualityStatus in {Qualified, Pending, Rejected}) ==>
            r.distribution.qualified + r.distribution.pending + r.distribution.rejected == |rows|)
  {
    var r := QualityReportOf(rows, sqrt).value;
    assert r.summary == SummaryOf(rows) && r.distribution == DistributionOf(rows);
    SummaryCounts(rows);
    DistributionCounts(rows);
  }

  lemma SummaryCounts(rows: seq<BatchRecord>)
    requires |rows| > 0
    ensures var s := SummaryOf(rows);
      && s.total == |rows|
      && s.passed + s.failed == |rows|
      && (s.failed == 0 <==> forall i :: 0 <= i < |rows| ==> rows[i].overallStatus == PassedStatus)
  {
    CountComplement(rows, IsPassed, IsFailed);
    CountZero(rows, IsFailed);
  }

  lemma DistributionCounts(rows: seq<BatchRecord>)
    ensures var d := DistributionOf(rows);
      && d.rejected == Count(rows, HasQuality(Rejected))
      && ((forall i :: 0 <= i < |rows| ==> rows[i].qualityStatus in {Qualified, Pending, Rejected}) ==>
            d.qualified + d.pending + d.rejected == |rows|)
  {
    var rejectedPresent := exists i :: 0 <= i < |rows| && rows[i].qualityStatus == Rejected;
    if !rejectedPresent {
      CountZero(rows, HasQuality(Rejected));
    }
    if forall i :: 0 <= i < |rows| ==> rows[i].qualityStatus in {Qualified, Pending, Rejected} {
      QualityPartition(rows);
    }
  }

  lemma {:induction false} QualityPartition(rows: seq<BatchRecord>)
    requires forall i :: 0 <= i < |rows| ==> rows[i].qualityStatus in {Qualified, Pending, Rejected}
    ensures Count(rows, HasQuality(Qualified)) + Count(rows, HasQuality(Pending)) + Count(rows, HasQuality(Rejected)) == |rows|
    decreases |rows|
  {
    if |rows| > 0 {
      var p := rows[..|rows| - 1];
      assert forall i :: 0 <= i < |p| ==> p[i] == rows[i];
      QualityPartition(p);
    }
  }

  /**
   * The report's shape: at most five stability entries, all with names of `_actual` columns with
   * numbers among the first five; the advice list holds the failure advice iff a batch failed, the
   * yield advice iff the average yield is below 90, and one advice per low-stability entry.
   */
  lemma ReportShape(rows: seq<BatchRecord>, sqrt: real -> real)
    requires |rows| > 0
    ensures var r := QualityReportOf(rows, sqrt).value;
      && UniqueKeys(r.stability)
      && |r.stability| <= 5
      && (forall name :: name in Keys(r.stability) <==> NamedIn(rows, StabilityColumns(rows), name))
      && (forall c :: c in StabilityColumns(rows) ==> c in Columns(rows) && Contains(c, ActualSuffix))
      && |r.recommendations| == (if r.summary.failed > 0 then 1 else 0)
           + (if r.summary.yieldAverage < 90.0 then 1 else 0)
           + Count(r.stability, IsLowEntry)
      && (r.summary.failed > 0 <==> FailureAdvice(r.summary.failed) in r.recommendations)
  {
    var cols := StabilityColumns(rows);
    StabilityFoldEntries(rows, cols, sqrt);
    var r := QualityReportOf(rows, sqrt).value;
    LowStabilityAdvicesCount(r.stability);
    var all := Filter(Columns(rows), IsActualColumn);
    forall c | c in cols ensures c in Columns(rows) && Contains(c, ActualSuffix) {
      var j :| 0 <= j < |cols| && cols[j] == c;
      assert c == all[j];
    }
    if r.summary.failed == 0 {
      AdviceNeverFailure(r.summary, r.stability);
    }
  }

  /** Without a failed batch no advice names failures: the other advices differ in their first character or are longer. */
  lemma AdviceNeverFailure(summary: Summary, stability: Assoc<Stability>)
    requires summary.failed == 0
    ensures FailureAdvice(summary.failed) !in Recommendations(summary, stability)
  {
    var f := FailureAdvice(summary.failed);
    assert f == "需要调查0个失败批次";
    LowAdvicesEnding(stability);
    var recs := Recommendations(summary, stability);
    forall x | x in recs ensures x != f {
      if x != LowYieldAdvice {
        assert x in LowStabilityAdvices(stability);
        assert |x| >= |LowStabilityAdvice| > |f|;
      }
    }
  }

  lemma {:induction false} LowAdvicesEnding(stability: Assoc<Stability>)
    ensures forall x :: x in LowStabilityAdvices(stability) ==>
      |x| >= |LowStabilityAdvice| && x[|x| - |LowStabilityAdvice|..] == LowStabilityAdvice
    decreases |stability|
  {
    if |stability| > 0 {
      LowAdvicesEnding(stability[..|stability| - 1]);
      var e := stability[|stability| - 1];
      var y := e.0 + LowStabilityAdvice;
      assert y[|y| - |LowStabilityAdvice|..] == LowStabilityAdvice;
    }
  }

  // ---------------------------------------------------------------- calculate_oee

  datatype Oee = Oee(
    availability: real,
    performance: real,
    quality: real,
    oee: real,
    level: string,
    availabilityLoss: real,
    performanceLoss: real,
    qualityLoss: real)

  const WorldClass := "世界级"
  const Excellent := "优秀"
  const Fair := "一般"
  const NeedsImprovement := "需要改进"

  function OeeLevel(oee: real): string {
    if oee >= 85.0 then WorldClass else if oee >= 75.0 then Excellent else if oee >= 65.0 then Fair else NeedsImprovement
  }

  /**
   * `calculate_oee`: availability uniform in [85, 95), performance uniform in [90, 98) (drawn from
   * `u1`, `u2`), quality the mean yield as a fraction; nothing for an empty table.
   */
  function OeeOf(rows: seq<BatchRecord>, u1: real, u2: real): (r: Option<Oee>)
    ensures r.None? <==> |rows| == 0
    ensures r.Some? ==>
      && r.value.level == OeeLevel(r.value.oee)
      && r.value.oee == r.value.availability * r.value.performance * r.value.quality / 10000.0
      && r.value.availability + r.value.availabilityLoss == 100.0
      && r.value.performance + r.value.performanceLoss == 100.0
      && r.value.quality + r.value.qualityLoss == 100.0
    ensures r.Some? && 0.0 <= u1 < 1.0 && 0.0 <= u2 < 1.0 ==>
      85.0 <= r.value.availability < 95.0 && 90.0 <= r.value.performance < 98.0
  {
    if |rows| == 0 then None
    else
      var a := Uniform(85.0, 95.0, u1);
      var p := Uniform(90.0, 98.0, u2);
      var q := Mean(Yields(rows)) / 100.0;
      var oee := a * p * q / 10000.0 * 100.0;
      Some(Oee(a, p, q * 100.0, oee, OeeLevel(oee), 100.0 - a, 100.0 - p, 100.0 - q * 100.0))
  }

  /** The level only rises with the OEE. */
  lemma OeeLevelMonotone(x: real, y: real)
    requires x <= y
    ensures x >= 65.0 ==> OeeLevel(y) != NeedsImprovement
    ensures OeeLevel(x) == WorldClass ==> OeeLevel(y) == WorldClass
    ensures OeeLevel(y) == NeedsImprovement ==> OeeLevel(x) == NeedsImprovement
  {
  }

  /**
   * With every yield in [85, 98] and both draws in [0, 1), the OEE is at least 65.025: the
   * estimate is never "需要改进"; it stays below 91.238.
   */
  lemma OeeOfGeneratedYields(rows: seq<BatchRecord>, u1: real, u2: real)
    requires |rows| > 0 && 0.0 <= u1 < 1.0 && 0.0 <= u2 < 1.0
    requires forall i :: 0 <= i < |rows| ==> 85.0 <= rows[i].yieldPercent <= 98.0
    ensures var r := OeeOf(rows, u1, u2).value;
      && 65.025 <= r.oee < 91.238
      && r.level != NeedsImprovement
  {
    var y := Yields(rows);
    MeanBounds(y, 85.0, 98.0);
    var a := Uniform(85.0, 95.0, u1);
    var p := Uniform(90.0, 98.0, u2);
    var q := Mean(y) / 100.0;
    MulLe(0.0, u1, 10.0);
    MulLe(0.0, u2, 8.0);
    MulLess(u1, 1.0, 10.0);
    MulLess(u2, 1.0, 8.0);
    assert 85.0 <= a < 95.0 && 90.0 <= p < 98.0 && 0.85 <= q <= 0.98;
    ProductBounds(a, p, q);
    var x := a * p * q;
    var r := OeeOf(rows, u1, u2).value;
    assert r.oee == x / 10000.0 * 100.0;
    assert 65.025 <= x / 10000.0 * 100.0 < 91.238;
    OeeLevelMonotone(65.025, r.oee);
  }

  /** The product bounds behind the OEE range. */
  lemma ProductBounds(a: real, p: real, q: real)
    requires 85.0 <= a < 95.0 && 90.0 <= p < 98.0 && 0.85 <= q <= 0.98
    ensures 6502.5 <= a * p * q < 9123.8
  {
    calc {
      6502.5;
      (85.0 * 90.0) * 0.85;
    <= { MulLe(85.0, a, 90.0); MulLe(90.0, p, a); MulLe(85.0 * 90.0, a * p, 0.85); }
      (a * p) * 0.85;
    <= { MulLe(0.85, q, a * p); }
      a * p * q;
    }
    calc {
      a * p * q;
    <= { MulLe(q, 0.98, a * p); }
      (a * p) * 0.98;
    < { MulLess(a, 95.0, p); MulLess(p, 98.0, 95.0); MulLess(a * p, 95.0 * 98.0, 0.98); }
      (95.0 * 98.0) * 0.98;
      9123.8;
    }
  }
}
