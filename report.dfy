/**
 * The report layer (cyclocalc/report/report_generator.py): bucketing,
 * per-function risk scoring, the summary, smell detection, the per-file
 * risk ranking, the anchor sanitiser, the source-preview window and the
 * top-N function table. The HTML it renders is not modelled; each dict
 * the Python builds becomes a datatype, and each message becomes a tag.
 */
module ReportGenerator {
  import opened Python
  import opened StableSort

  // ---------------------------------------------------------------------
  // Input records
  // ---------------------------------------------------------------------

  /** One entry of `func_stats`: the keys the report reads. */
  datatype FuncStat = FuncStat(file: string, name: string, cc: int, length: int, nest: int)

  /** One entry of `file_stats`. `unusedImportsCount` is 0 where the dict has no such key. */
  datatype FileStat = FileStat(
    file: string,
    commentRatio: real,
    docstringCoverage: real,
    longLineRatio: real,
    namingIssueRatio: real,
    unusedImportsCount: int,
    unusedImports: seq<string>)

  function CcOf(f: FuncStat): int { f.cc }
  function LengthOf(f: FuncStat): int { f.length }
  function NestOf(f: FuncStat): int { f.nest }

  // ---------------------------------------------------------------------
  // Thresholds
  // ---------------------------------------------------------------------

  const CC_HIGH := 10
  const CC_MED := 7
  const LEN_HIGH := 60
  const LEN_MED := 40
  const NEST_HIGH := 5
  const NEST_MED := 3
  const DOC_LOW: real := 0.30
  const COMMENT_LOW: real := 0.02
  const LONG_LINE_HIGH: real := 0.10
  const NAMING_HIGH: real := 0.10

  // ---------------------------------------------------------------------
  // Buckets
  // ---------------------------------------------------------------------

  const CC_LABELS: seq<string> := ["1-3", "4-6", "7-10", "11+"]
  const LEN_LABELS: seq<string> := ["1-20", "21-40", "41-60", "61+"]

  /** `_cc_bucket`: the histogram range a complexity falls in. */
  function CcBucket(cc: int): (r: string)
    ensures r in CC_LABELS
    ensures r == CC_LABELS[0] <==> cc <= 3
    ensures r == CC_LABELS[1] <==> 4 <= cc <= 6
    ensures r == CC_LABELS[2] <==> 7 <= cc <= 10
    ensures r == CC_LABELS[3] <==> 11 <= cc
  {
    if cc <= 3 then "1-3"
    else if cc <= 6 then "4-6"
    else if cc <= 10 then "7-10"
    else "11+"
  }

  /** `_len_bucket`: the histogram range a function length falls in. */
  function LenBucket(ln: int): (r: string)
    ensures r in LEN_LABELS
    ensures r == LEN_LABELS[0] <==> ln <= 20
    ensures r == LEN_LABELS[1] <==> 21 <= ln <= 40
    ensures r == LEN_LABELS[2] <==> 41 <= ln <= 60
    ensures r == LEN_LABELS[3] <==> 61 <= ln
  {
    if ln <= 20 then "1-20"
    else if ln <= 40 then "21-40"
    else if ln <= 60 then "41-60"
    else "61+"
  }

  /** The labels are distinct, so every value lands in exactly one bucket. */
  lemma LabelsDistinct()
    ensures forall i, j :: 0 <= i < j < 4 ==> CC_LABELS[i] != CC_LABELS[j] && LEN_LABELS[i] != LEN_LABELS[j]
  {
    assert CC_LABELS[0][0] == '1' && CC_LABELS[1][0] == '4' && CC_LABELS[2][0] == '7' && CC_LABELS[3][1] == '1';
    assert |CC_LABELS[2]| == 4 && |CC_LABELS[3]| == 3;
    assert LEN_LABELS[0][0] == '1' && LEN_LABELS[1][0] == '2' && LEN_LABELS[2][0] == '4' && LEN_LABELS[3][0] == '6';
  }

  // ---------------------------------------------------------------------
  // Anchor
  // ---------------------------------------------------------------------

  /** `s.replace(c, d)` for single characters. */
  function ReplaceChar(s: string, c: char, d: char): string
  {
    if s == [] then [] else ReplaceChar(s[..|s| - 1], c, d) + [if s[|s| - 1] == c then d else s[|s| - 1]]
  }

  lemma {:induction false} ReplaceCharAt(s: string, c: char, d: char)
    ensures |ReplaceChar(s, c, d)| == |s|
    ensures forall i :: 0 <= i < |s| ==> ReplaceChar(s, c, d)[i] == (if s[i] == c then d else s[i])
  {
    if s != [] {
      ReplaceCharAt(s[..|s| - 1], c, d);
    }
  }

  /** How often `c` occurs in `s`. */
  function Occurrences(s: string, c: char): nat
  {
    if s == [] then 0 else Occurrences(s[..|s| - 1], c) + (if s[|s| - 1] == c then 1 else 0)
  }

  /** `s.replace(c, "")`: drops every `c` and keeps the rest in order. */
  function RemoveChar(s: string, c: char): string
  {
    if s == [] then []
    else RemoveChar(s[..|s| - 1], c) + (if s[|s| - 1] == c then [] else [s[|s| - 1]])
  }

  lemma {:induction false} RemoveCharFacts(s: string, c: char)
    ensures |RemoveChar(s, c)| == |s| - Occurrences(s, c)
    ensures forall i :: 0 <= i < |RemoveChar(s, c)| ==> RemoveChar(s, c)[i] != c && RemoveChar(s, c)[i] in s
  {
    if s != [] {
      var init := s[..|s| - 1];
      RemoveCharFacts(init, c);
      assert forall x :: x in init ==> x in s;
    }
  }

  lemma {:induction false} ReplaceKeepsOccurrences(s: string, c: char, d: char, e: char)
    requires c != e && d != e
    ensures Occurrences(ReplaceChar(s, c, d), e) == Occurrences(s, e)
  {
    if s != [] {
      ReplaceKeepsOccurrences(s[..|s| - 1], c, d, e);
      ReplaceCharAt(s, c, d);
      assert ReplaceChar(s, c, d)[..|s| - 1] == ReplaceChar(s[..|s| - 1], c, d);
    }
  }

  lemma {:induction false} RemoveAbsent(s: string, c: char)
    requires forall i :: 0 <= i < |s| ==> s[i] != c
    ensures RemoveChar(s, c) == s
  {
    if s != [] {
      RemoveAbsent(s[..|s| - 1], c);
    }
  }

  lemma {:induction false} ReplaceAbsent(s: string, c: char, d: char)
    requires forall i :: 0 <= i < |s| ==> s[i] != c
    ensures ReplaceChar(s, c, d) == s
  {
    if s != [] {
      ReplaceAbsent(s[..|s| - 1], c, d);
    }
  }

  /** `_file_anchor`: an HTML id made from a path. */
  function FileAnchor(path: string): string
  {
    "file_" + RemoveChar(ReplaceChar(ReplaceChar(ReplaceChar(path, '\\', '_'), '/', '_'), '.', '_'), ':')
  }

  /** The three replacements keep the length and the colons and leave no separator behind. */
  lemma {:induction false} ReplaceSeparators(path: string)
    ensures var c := ReplaceChar(ReplaceChar(ReplaceChar(path, '\\', '_'), '/', '_'), '.', '_');
      |c| == |path| && Occurrences(c, ':') == Occurrences(path, ':')
      && forall i :: 0 <= i < |c| ==> c[i] != '\\' && c[i] != '/' && c[i] != '.'
  {
    var a := ReplaceChar(path, '\\', '_');
    var b := ReplaceChar(a, '/', '_');
    ReplaceKeepsOccurrences(path, '\\', '_', ':');
    ReplaceKeepsOccurrences(a, '/', '_', ':');
    ReplaceKeepsOccurrences(b, '.', '_', ':');
    ReplaceCharAt(path, '\\', '_');
    ReplaceCharAt(a, '/', '_');
    ReplaceCharAt(b, '.', '_');
  }

  /** The anchor starts with "file_", drops every ':' and contains none of the
      characters the sanitiser replaces or removes. */
  lemma FileAnchorProperties(path: string)
    ensures StartsWith(FileAnchor(path), "file_")
    ensures |FileAnchor(path)| == 5 + |path| - Occurrences(path, ':')
    ensures forall i :: 0 <= i < |FileAnchor(path)| ==>
      FileAnchor(path)[i] != '\\' && FileAnchor(path)[i] != '/' && FileAnchor(path)[i] != '.' && FileAnchor(path)[i] != ':'
  {
    var c := ReplaceChar(ReplaceChar(ReplaceChar(path, '\\', '_'), '/', '_'), '.', '_');
    ReplaceSeparators(path);
    var safe := RemoveChar(c, ':');
    RemoveCharFacts(c, ':');
    assert FileAnchor(path) == "file_" + safe;
    forall i | 0 <= i < |safe| ensures safe[i] != '\\' && safe[i] != '/' && safe[i] != '.' && safe[i] != ':' {
      assert safe[i] in c;
    }
  }

  /** A path made only of characters the sanitiser keeps is used as it is. */
  lemma FileAnchorOfPlainPath(path: string)
    requires forall i :: 0 <= i < |path| ==> path[i] != '\\' && path[i] != '/' && path[i] != '.' && path[i] != ':'
    ensures FileAnchor(path) == "file_" + path
  {
    var a := ReplaceChar(path, '\\', '_');
    var b := ReplaceChar(a, '/', '_');
    ReplaceAbsent(path, '\\', '_');
    ReplaceAbsent(path, '/', '_');
    ReplaceAbsent(path, '.', '_');
    RemoveAbsent(path, ':');
  }

  // ---------------------------------------------------------------------
  // Source preview
  // ---------------------------------------------------------------------

  const DEFAULT_MAX_LINES := 30
  const TRUNCATED_MARKER := "... (truncated)"
  const NO_LINENO_TEXT := "(no lineno info)"
  const READ_FAILED_TEXT := "(failed to read source)"

  /** The source lines shown for a function, and whether more were cut off. */
  datatype Window = Window(shown: seq<string>, truncated: bool)

  /** The line-window arithmetic of `_read_func_preview`: `lineno` is 1-based and
      `length` an estimate of the function's length. */
  function PreviewWindow(lines: seq<string>, lineno: int, length: int, maxLines: int): (w: Window)
    ensures 0 <= maxLines ==> |w.shown| == Max(0, Min(Min(Max(length, 1), |lines| - Max(lineno - 1, 0)), maxLines))
    ensures 0 <= maxLines ==> forall i :: 0 <= i < |w.shown| ==> Max(lineno - 1, 0) + i < |lines| && w.shown[i] == lines[Max(lineno - 1, 0) + i]
    ensures w.truncated <==> maxLines < Min(Max(length, 1), |lines| - Max(lineno - 1, 0))
  {
    var start := Max(lineno - 1, 0);
    var estEnd := Min(start + Max(length, 1), |lines|);
    var end := Min(estEnd, start + maxLines);
    Window(Slice(lines, start, end), end < estEnd)
  }

  /** The window never shows more than `maxLines` lines, and shows none when the
      function starts past the end of the file. */
  lemma PreviewWindowBounds(lines: seq<string>, lineno: int, length: int, maxLines: int)
    ensures 0 <= maxLines ==> |PreviewWindow(lines, lineno, length, maxLines).shown| <= maxLines
    ensures 0 <= maxLines && lineno > |lines| ==> PreviewWindow(lines, lineno, length, maxLines).shown == []
    ensures lineno > |lines| && maxLines >= 0 ==> !PreviewWindow(lines, lineno, length, maxLines).truncated
    ensures 1 <= lineno <= |lines| && maxLines >= 1 ==> PreviewWindow(lines, lineno, length, maxLines).shown[0] == lines[lineno - 1]
  {
  }

  /** `_read_func_preview`: `source` is the file's lines, or `None` when reading it failed. */
  function ReadFuncPreview(source: Option<seq<string>>, lineno: Option<int>, length: int, maxLines: int): (r: string)
    ensures lineno.None? ==> r == NO_LINENO_TEXT
    ensures lineno.Some? && source.None? ==> r == READ_FAILED_TEXT
    ensures lineno.Some? && source.Some? && 0 <= maxLines && Max(lineno.value - 1, 0) <= |source.value| ==>
      var lines, s := source.value, Max(lineno.value - 1, 0);
      var avail := Min(Max(length, 1), |lines| - s);
      var k := Min(avail, maxLines);
      r == Join(lines[s..s + k] + (if k < avail then [TRUNCATED_MARKER] else []), "\n")
    ensures lineno.Some? && source.Some? && 0 <= maxLines && lineno.value > |source.value| ==> r == ""
  {
    match lineno
    case None => NO_LINENO_TEXT
    case Some(n) =>
      match source
      case None => READ_FAILED_TEXT
      case Some(lines) =>
        var w := PreviewWindow(lines, n, length, maxLines);
        Join(w.shown + (if w.truncated then [TRUNCATED_MARKER] else []), "\n")
  }

  // ---------------------------------------------------------------------
  // Risk level of one function
  // ---------------------------------------------------------------------

  datatype Level = Low | Medium | High
  datatype Metric = CcMetric | LenMetric | NestMetric

  /** A reason such as "CC≥10": the metric and the threshold it reached. */
  datatype Reason = Reason(metric: Metric, threshold: int)

  /** The explanation shown next to a level: the reasons, or the level's fixed
      fallback text when there are none. */
  datatype Explanation = Because(reasons: seq<Reason>) | Fallback

  /** Points a metric earns: 2 from the high threshold, 1 from the medium one. */
  function Points(v: int, high: int, med: int): nat
  {
    if v >= high then 2 else if v >= med then 1 else 0
  }

  function Score(cc: int, length: int, nest: int): nat
  {
    Points(cc, CC_HIGH, CC_MED) + Points(length, LEN_HIGH, LEN_MED) + Points(nest, NEST_HIGH, NEST_MED)
  }

  function LevelOf(score: int): Level
  {
    if score >= 4 then High else if score >= 2 then Medium else Low
  }

  function MetricReason(m: Metric, v: int, high: int, med: int): (r: seq<Reason>)
    ensures |r| <= 1
    ensures r != [] <==> Points(v, high, med) > 0
    ensures r != [] ==> r[0].metric == m && v >= r[0].threshold && (r[0].threshold == high || r[0].threshold == med)
    ensures r != [] && v >= high ==> r[0].threshold == high
  {
    if v >= high then [Reason(m, high)] else if v >= med then [Reason(m, med)] else []
  }

  /** The reasons `risk_level` lists, in the order CC, LEN, NEST. */
  function Reasons(cc: int, length: int, nest: int): seq<Reason>
  {
    MetricReason(CcMetric, cc, CC_HIGH, CC_MED)
      + MetricReason(LenMetric, length, LEN_HIGH, LEN_MED)
      + MetricReason(NestMetric, nest, NEST_HIGH, NEST_MED)
  }

  function MetricRank(m: Metric): nat
  {
    match m
    case CcMetric => 0
    case LenMetric => 1
    case NestMetric => 2
  }

  /** At most one reason per metric, in metric order; none exactly when the score is 0;
      each names a threshold the value reached. */
  lemma ReasonsProperties(cc: int, length: int, nest: int)
    ensures |Reasons(cc, length, nest)| <= 3
    ensures forall i, j :: 0 <= i < j < |Reasons(cc, length, nest)| ==>
      MetricRank(Reasons(cc, length, nest)[i].metric) < MetricRank(Reasons(cc, length, nest)[j].metric)
    ensures Reasons(cc, length, nest) == [] <==> Score(cc, length, nest) == 0
    ensures forall r :: r in Reasons(cc, length, nest) ==>
      (r.metric == CcMetric ==> cc >= r.threshold && (r.threshold == CC_HIGH || r.threshold == CC_MED)) &&
      (r.metric == LenMetric ==> length >= r.threshold && (r.threshold == LEN_HIGH || r.threshold == LEN_MED)) &&
      (r.metric == NestMetric ==> nest >= r.threshold && (r.threshold == NEST_HIGH || r.threshold == NEST_MED))
    ensures forall r :: r in Reasons(cc, length, nest) ==>
      (r.metric == CcMetric && cc >= CC_HIGH ==> r.threshold == CC_HIGH) &&
      (r.metric == LenMetric && length >= LEN_HIGH ==> r.threshold == LEN_HIGH) &&
      (r.metric == NestMetric && nest >= NEST_HIGH ==> r.threshold == NEST_HIGH)
  {
    var a := MetricReason(CcMetric, cc, CC_HIGH, CC_MED);
    var b := MetricReason(LenMetric, length, LEN_HIGH, LEN_MED);
    var c := MetricReason(NestMetric, nest, NEST_HIGH, NEST_MED);
    assert Reasons(cc, length, nest) == a + b + c;
    forall r: Reason | r in a + b + c
      ensures (r.metric == CcMetric ==> cc >= r.threshold && (r.threshold == CC_HIGH || r.threshold == CC_MED)) &&
              (r.metric == LenMetric ==> length >= r.threshold && (r.threshold == LEN_HIGH || r.threshold == LEN_MED)) &&
              (r.metric == NestMetric ==> nest >= r.threshold && (r.threshold == NEST_HIGH || r.threshold == NEST_MED))
      ensures (r.metric == CcMetric && cc >= CC_HIGH ==> r.threshold == CC_HIGH) &&
              (r.metric == LenMetric && length >= LEN_HIGH ==> r.threshold == LEN_HIGH) &&
              (r.metric == NestMetric && nest >= NEST_HIGH ==> r.threshold == NEST_HIGH)
    {
      if r in a { assert r == a[0]; } else if r in b { assert r == b[0]; } else { assert r == c[0]; }
    }
  }

  /** A metric is named among the reasons exactly when it reached its medium threshold. */
  lemma ReasonsCoverMetrics(cc: int, length: int, nest: int)
    ensures (exists r :: r in Reasons(cc, length, nest) && r.metric == CcMetric) <==> cc >= CC_MED
    ensures (exists r :: r in Reasons(cc, length, nest) && r.metric == LenMetric) <==> length >= LEN_MED
    ensures (exists r :: r in Reasons(cc, length, nest) && r.metric == NestMetric) <==> nest >= NEST_MED
  {
    var a := MetricReason(CcMetric, cc, CC_HIGH, CC_MED);
    var b := MetricReason(LenMetric, length, LEN_HIGH, LEN_MED);
    var c := MetricReason(NestMetric, nest, NEST_HIGH, NEST_MED);
    assert Reasons(cc, length, nest) == a + b + c;
    forall r: Reason | r in a + b + c
      ensures r.metric == CcMetric ==> r in a
      ensures r.metric == LenMetric ==> r in b
      ensures r.metric == NestMetric ==> r in c
    {
      if r in a { assert r == a[0]; } else if r in b { assert r == b[0]; } else { assert r == c[0]; }
    }
    if cc >= CC_MED { assert a[0] in a + b + c; }
    if length >= LEN_MED { assert b[0] in a + b + c; }
    if nest >= NEST_MED { assert c[0] in a + b + c; }
  }

  /** `risk_level`: a running score and a growing list of reasons. */
  method RiskLevel(cc: int, length: int, nest: int) returns (level: Level, explanation: Explanation)
    ensures level == High <==> Score(cc, length, nest) >= 4
    ensures level == Medium <==> 2 <= Score(cc, length, nest) < 4
    ensures level == Low <==> Score(cc, length, nest) < 2
    ensures explanation == (if Reasons(cc, length, nest) == [] then Fallback else Because(Reasons(cc, length, nest)))
    ensures explanation == Fallback ==> level == Low
  {
    var score := 0;
    var reasons := [];
    if cc >= CC_HIGH {
      score := score + 2;
      reasons := reasons + [Reason(CcMetric, CC_HIGH)];
    } else if cc >= CC_MED {
      score := score + 1;
      reasons := reasons + [Reason(CcMetric, CC_MED)];
    }
    if length >= LEN_HIGH {
      score := score + 2;
      reasons := reasons + [Reason(LenMetric, LEN_HIGH)];
    } else if length >= LEN_MED {
      score := score + 1;
      reasons := reasons + [Reason(LenMetric, LEN_MED)];
    }
    if nest >= NEST_HIGH {
      score := score + 2;
      reasons := reasons + [Reason(NestMetric, NEST_HIGH)];
    } else if nest >= NEST_MED {
      score := score + 1;
      reasons := reasons + [Reason(NestMetric, NEST_MED)];
    }
    assert score == Score(cc, length, nest);
    assert reasons == Reasons(cc, length, nest);
    explanation := if reasons == [] then Fallback else Because(reasons);
    if score >= 4 {
      level := High;
    } else if score >= 2 {
      level := Medium;
    } else {
      level := Low;
    }
  }

  /** Raising any one metric never lowers the level. */
  lemma RiskLevelMonotone(cc: int, length: int, nest: int, cc': int, length': int, nest': int)
    requires cc <= cc' && length <= length' && nest <= nest'
    ensures Score(cc, length, nest) <= Score(cc', length', nest')
    ensures LevelOf(Score(cc, length, nest)) == High ==> LevelOf(Score(cc', length', nest')) == High
    ensures LevelOf(Score(cc, length, nest)) == Medium ==> LevelOf(Score(cc', length', nest')) != Low
  {
  }

  // ---------------------------------------------------------------------
  // Summary
  // ---------------------------------------------------------------------

  /** How many functions `bucketOf` puts in `bin`. */
  function Tally(stats: seq<FuncStat>, bucketOf: FuncStat -> string, bin: string): (r: nat)
    ensures r <= |stats|
  {
    if stats == [] then 0
    else Tally(stats[..|stats| - 1], bucketOf, bin) + (if bucketOf(stats[|stats| - 1]) == bin then 1 else 0)
  }

  function CcBucketOf(f: FuncStat): string { CcBucket(f.cc) }
  function LenBucketOf(f: FuncStat): string { LenBucket(f.length) }

  /** The four tallies of a bucketing into four distinct labels add up to the number of functions. */
  lemma {:induction false} TalliesSum(stats: seq<FuncStat>, bucketOf: FuncStat -> string, labels: seq<string>)
    requires |labels| == 4
    requires forall i, j :: 0 <= i < j < 4 ==> labels[i] != labels[j]
    requires forall f :: bucketOf(f) in labels
    ensures Tally(stats, bucketOf, labels[0]) + Tally(stats, bucketOf, labels[1])
          + Tally(stats, bucketOf, labels[2]) + Tally(stats, bucketOf, labels[3]) == |stats|
  {
    if stats != [] {
      TalliesSum(stats[..|stats| - 1], bucketOf, labels);
    }
  }

  /** `max(f(x) for x in s)` of a non-empty list. */
  function SeqMax(s: seq<FuncStat>, f: FuncStat -> int): (r: int)
    requires s != []
    ensures forall i :: 0 <= i < |s| ==> f(s[i]) <= r
    ensures exists i :: 0 <= i < |s| && f(s[i]) == r
  {
    if |s| == 1 then f(s[0])
    else
      var m := SeqMax(s[..|s| - 1], f);
      assert forall i :: 0 <= i < |s| - 1 ==> s[..|s| - 1][i] == s[i];
      Max(m, f(s[|s| - 1]))
  }

  /** `max(...) if ... else 0`. */
  function MaxOrZero(s: seq<FuncStat>, f: FuncStat -> int): int
  {
    if s == [] then 0 else SeqMax(s, f)
  }

  /** `sum(...) / len(...) if ... else 0`, without rounding. */
  function Average(s: seq<FuncStat>, f: FuncStat -> int): real
  {
    if s == [] then 0.0 else Sum(s, f) as real / |s| as real
  }

  /** An average lies between zero-or-minimum and the maximum: here, it never exceeds the maximum. */
  lemma {:induction false} SumAtMostMax(s: seq<FuncStat>, f: FuncStat -> int, m: int)
    requires forall i :: 0 <= i < |s| ==> f(s[i]) <= m
    ensures Sum(s, f) <= |s| * m
  {
    if s != [] {
      assert forall i :: 0 <= i < |s| - 1 ==> s[..|s| - 1][i] == s[i];
      SumAtMostMax(s[..|s| - 1], f, m);
    }
  }

  lemma AverageAtMostMax(s: seq<FuncStat>, f: FuncStat -> int)
    requires s != []
    ensures Average(s, f) <= SeqMax(s, f) as real
  {
    SumAtMostMax(s, f, SeqMax(s, f));
    QuotientAtMost(Sum(s, f) as real, |s| as real, SeqMax(s, f) as real);
  }

  /** Dividing by a positive count: `a <= n * m` gives `a / n <= m`. */
  lemma QuotientAtMost(a: real, n: real, m: real)
    requires 0.0 < n && a <= n * m
    ensures a / n <= m
  {
    var q := a / n;
    assert q * n == a;
    assert (m - q) * n == n * m - a;
    assert 0.0 <= (m - q) * n;
  }

  /** The file-metric averages; all 0 when there are no files. */
  datatype FileMetricAvg = FileMetricAvg(
    commentRatio: real,
    docstringCoverage: real,
    longLineRatio: real,
    namingIssueRatio: real,
    unusedImportsCount: real)

  function CommentRatioOf(fs: FileStat): real { fs.commentRatio }
  function DocstringCoverageOf(fs: FileStat): real { fs.docstringCoverage }
  function LongLineRatioOf(fs: FileStat): real { fs.longLineRatio }
  function NamingIssueRatioOf(fs: FileStat): real { fs.namingIssueRatio }
  function UnusedImportsCountOf(fs: FileStat): real { fs.unusedImportsCount as real }

  function FileAverage(files: seq<FileStat>, f: FileStat -> real): real
  {
    if files == [] then 0.0 else SumReal(files, f) / |files| as real
  }

  datatype Summary = Summary(
    numFiles: nat,
    numFunctions: nat,
    ccAvg: real,
    ccMax: int,
    lenAvg: real,
    lenMax: int,
    ccDist: map<string, nat>,
    lenDist: map<string, nat>,
    fileMetricAvg: FileMetricAvg)

  /** The counting loop of `build_summary`: one bucket counter per label, each
      function adding one to the counter of its bucket. */
  method CountBuckets(stats: seq<FuncStat>, bucketOf: FuncStat -> string, labels: seq<string>)
    returns (dist: map<string, nat>)
    requires forall f :: bucketOf(f) in labels
    ensures dist.Keys == set l | l in labels
    ensures forall l :: l in labels ==> dist[l] == Tally(stats, bucketOf, l)
  {
    dist := map l | l in labels :: 0;
    for i := 0 to |stats|
      invariant dist.Keys == set l | l in labels
      invariant forall l :: l in labels ==> dist[l] == Tally(stats[..i], bucketOf, l)
    {
      assert stats[..i + 1][..i] == stats[..i];
      var b := bucketOf(stats[i]);
      dist := dist[b := dist[b] + 1];
    }
    assert stats[..|stats|] == stats;
  }

  /** `build_summary`. */
  method BuildSummary(funcStats: seq<FuncStat>, fileStats: seq<FileStat>) returns (summary: Summary)
    ensures summary.numFiles == |fileStats| && summary.numFunctions == |funcStats|
    ensures summary.ccAvg == Average(funcStats, CcOf) && summary.lenAvg == Average(funcStats, LengthOf)
    ensures funcStats == [] ==> summary.ccMax == 0 && summary.lenMax == 0
    ensures forall i :: 0 <= i < |funcStats| ==> funcStats[i].cc <= summary.ccMax && funcStats[i].length <= summary.lenMax
    ensures funcStats != [] ==> (exists i :: 0 <= i < |funcStats| && funcStats[i].cc == summary.ccMax)
    ensures funcStats != [] ==> (exists i :: 0 <= i < |funcStats| && funcStats[i].length == summary.lenMax)
    ensures summary.ccDist.Keys == set l | l in CC_LABELS
    ensures summary.lenDist.Keys == set l | l in LEN_LABELS
    ensures forall l :: l in CC_LABELS ==> summary.ccDist[l] == Tally(funcStats, CcBucketOf, l)
    ensures forall l :: l in LEN_LABELS ==> summary.lenDist[l] == Tally(funcStats, LenBucketOf, l)
    ensures summary.ccDist[CC_LABELS[0]] + summary.ccDist[CC_LABELS[1]] + summary.ccDist[CC_LABELS[2]]
          + summary.ccDist[CC_LABELS[3]] == |funcStats|
    ensures summary.lenDist[LEN_LABELS[0]] + summary.lenDist[LEN_LABELS[1]] + summary.lenDist[LEN_LABELS[2]]
          + summary.lenDist[LEN_LABELS[3]] == |funcStats|
    ensures summary.fileMetricAvg == FileMetricAvg(
      FileAverage(fileStats, CommentRatioOf), FileAverage(fileStats, DocstringCoverageOf),
      FileAverage(fileStats, LongLineRatioOf), FileAverage(fileStats, NamingIssueRatioOf),
      FileAverage(fileStats, UnusedImportsCountOf))
  {
    var ccDist := CountBuckets(funcStats, CcBucketOf, CC_LABELS);
    var lenDist := CountBuckets(funcStats, LenBucketOf, LEN_LABELS);
    LabelsDistinct();
    TalliesSum(funcStats, CcBucketOf, CC_LABELS);
    TalliesSum(funcStats, LenBucketOf, LEN_LABELS);
    var avg := FileMetricAvg(0.0, 0.0, 0.0, 0.0, 0.0);
    if fileStats != [] {
      var n := |fileStats| as real;
      avg := FileMetricAvg(
        SumReal(fileStats, CommentRatioOf) / n, SumReal(fileStats, DocstringCoverageOf) / n,
        SumReal(fileStats, LongLineRatioOf) / n, SumReal(fileStats, NamingIssueRatioOf) / n,
        SumReal(fileStats, UnusedImportsCountOf) / n);
    }
    summary := Summary(
      |fileStats|, |funcStats|,
      Average(funcStats, CcOf), MaxOrZero(funcStats, CcOf),
      Average(funcStats, LengthOf), MaxOrZero(funcStats, LengthOf),
      ccDist, lenDist, avg);
  }

  // ---------------------------------------------------------------------
  // Smells
  // ---------------------------------------------------------------------

  datatype SmellKind =
    | HighComplexity | MediumComplexity
    | VeryLongFunction | LongFunction
    | VeryDeepNesting | DeepNesting
    | LowDocstringCoverage | LowCommentRatio | ManyLongLines | ManyNamingIssues | UnusedImports

  datatype Target = FunctionTarget | FileTarget

  /** The measured value a smell reports. */
  datatype Detail =
    | CcValue(cc: int) | LenValue(length: int) | NestValue(nest: int)
    | DocValue(coverage: real) | CommentValue(ratio: real) | LongLineValue(ratio: real)
    | NamingValue(ratio: real) | UnusedList(names: seq<string>)

  datatype Smell = Smell(kind: SmellKind, level: Level, target: Target, file: string, name: string, detail: Detail)

  /** The smell a function gets for one metric: the high one from the high
      threshold, else the medium one from the medium threshold. */
  function MetricSmell(f: FuncStat, v: int, high: int, med: int, highKind: SmellKind, medKind: SmellKind, detail: Detail): seq<Smell>
  {
    if v >= high then [Smell(highKind, High, FunctionTarget, f.file, f.name, detail)]
    else if v >= med then [Smell(medKind, Medium, FunctionTarget, f.file, f.name, detail)]
    else []
  }

  lemma MetricSmellExact(f: FuncStat, v: int, high: int, med: int, highKind: SmellKind, medKind: SmellKind, detail: Detail)
    ensures var r := MetricSmell(f, v, high, med, highKind, medKind, detail);
      |r| <= 1
      && (forall k :: HasKind(r, k) <==> (k == highKind && v >= high) || (k == medKind && med <= v < high))
      && (forall s :: s in r ==>
            (s.target == FunctionTarget && s.file == f.file && s.name == f.name && (s.level == High <==> v >= high) && s.level != Low))
  {
    HasKindSingle(Smell(highKind, High, FunctionTarget, f.file, f.name, detail));
    HasKindSingle(Smell(medKind, Medium, FunctionTarget, f.file, f.name, detail));
  }

  /** The smells one function contributes, in the order cc, length, nesting. */
  function FunctionSmells(f: FuncStat): seq<Smell>
  {
    MetricSmell(f, f.cc, CC_HIGH, CC_MED, HighComplexity, MediumComplexity, CcValue(f.cc))
    + MetricSmell(f, f.length, LEN_HIGH, LEN_MED, VeryLongFunction, LongFunction, LenValue(f.length))
    + MetricSmell(f, f.nest, NEST_HIGH, NEST_MED, VeryDeepNesting, DeepNesting, NestValue(f.nest))
  }

  /** A file smell of `kind`, present when its test holds. */
  function FileCheck(fs: FileStat, test: bool, kind: SmellKind, detail: Detail): seq<Smell>
  {
    if test then [Smell(kind, Medium, FileTarget, fs.file, "", detail)] else []
  }

  lemma FileCheckExact(fs: FileStat, test: bool, kind: SmellKind, detail: Detail)
    ensures var r := FileCheck(fs, test, kind, detail);
      |r| <= 1
      && (forall k :: HasKind(r, k) <==> test && k == kind)
      && (forall s :: s in r ==> s.target == FileTarget && s.file == fs.file && s.name == "" && s.level == Medium)
  {
    HasKindSingle(Smell(kind, Medium, FileTarget, fs.file, "", detail));
  }

  /** The smells one file contributes: all medium, with an empty name. */
  function FileSmells(fs: FileStat): seq<Smell>
  {
    FileCheck(fs, fs.docstringCoverage < DOC_LOW, LowDocstringCoverage, DocValue(fs.docstringCoverage))
    + FileCheck(fs, fs.commentRatio < COMMENT_LOW, LowCommentRatio, CommentValue(fs.commentRatio))
    + FileCheck(fs, fs.longLineRatio > LONG_LINE_HIGH, ManyLongLines, LongLineValue(fs.longLineRatio))
    + FileCheck(fs, fs.namingIssueRatio > NAMING_HIGH, ManyNamingIssues, NamingValue(fs.namingIssueRatio))
    + FileCheck(fs, fs.unusedImportsCount > 0, UnusedImports, UnusedList(fs.unusedImports))
  }

  /** Some smell in the list has kind `k`. */
  predicate HasKind(smells: seq<Smell>, k: SmellKind)
  {
    exists i :: 0 <= i < |smells| && smells[i].kind == k
  }

  lemma HasKindSingle(x: Smell)
    ensures forall k :: HasKind([x], k) <==> k == x.kind
    ensures forall k :: !HasKind([], k)
  {
    assert [x][0] == x;
  }

  lemma HasKindAppend(a: seq<Smell>, b: seq<Smell>, k: SmellKind)
    ensures HasKind(a + b, k) <==> HasKind(a, k) || HasKind(b, k)
  {
    if HasKind(a + b, k) {
      var i :| 0 <= i < |a + b| && (a + b)[i].kind == k;
      if i >= |a| { assert b[i - |a|].kind == k; } else { assert a[i].kind == k; }
    }
    if HasKind(a, k) {
      var i :| 0 <= i < |a| && a[i].kind == k;
      assert (a + b)[i].kind == k;
    }
    if HasKind(b, k) {
      var i :| 0 <= i < |b| && b[i].kind == k;
      assert (a + b)[|a| + i].kind == k;
    }
  }

  /** At most one smell per metric for a function: the high one exactly when the high
      threshold is reached, the medium one exactly when only the medium one is. */
  lemma FunctionSmellsExact(f: FuncStat)
    ensures |FunctionSmells(f)| <= 3
    ensures forall s :: s in FunctionSmells(f) ==>
      s.target == FunctionTarget && s.file == f.file && s.name == f.name && s.level != Low
    ensures HasKind(FunctionSmells(f), HighComplexity) <==> f.cc >= CC_HIGH
    ensures HasKind(FunctionSmells(f), MediumComplexity) <==> CC_MED <= f.cc < CC_HIGH
    ensures HasKind(FunctionSmells(f), VeryLongFunction) <==> f.length >= LEN_HIGH
    ensures HasKind(FunctionSmells(f), LongFunction) <==> LEN_MED <= f.length < LEN_HIGH
    ensures HasKind(FunctionSmells(f), VeryDeepNesting) <==> f.nest >= NEST_HIGH
    ensures HasKind(FunctionSmells(f), DeepNesting) <==> NEST_MED <= f.nest < NEST_HIGH
  {
    var a := MetricSmell(f, f.cc, CC_HIGH, CC_MED, HighComplexity, MediumComplexity, CcValue(f.cc));
    var b := MetricSmell(f, f.length, LEN_HIGH, LEN_MED, VeryLongFunction, LongFunction, LenValue(f.length));
    var c := MetricSmell(f, f.nest, NEST_HIGH, NEST_MED, VeryDeepNesting, DeepNesting, NestValue(f.nest));
    MetricSmellExact(f, f.cc, CC_HIGH, CC_MED, HighComplexity, MediumComplexity, CcValue(f.cc));
    MetricSmellExact(f, f.length, LEN_HIGH, LEN_MED, VeryLongFunction, LongFunction, LenValue(f.length));
    MetricSmellExact(f, f.nest, NEST_HIGH, NEST_MED, VeryDeepNesting, DeepNesting, NestValue(f.nest));
    forall k: SmellKind ensures HasKind(a + b + c, k) <==> HasKind(a, k) || HasKind(b, k) || HasKind(c, k) {
      HasKindAppend(a, b, k);
      HasKindAppend(a + b, c, k);
    }
  }

  /** A file's smells are at most five, all medium, naming the file with an empty name. */
  lemma FileSmellsShape(fs: FileStat)
    ensures |FileSmells(fs)| <= 5
    ensures forall s :: s in FileSmells(fs) ==>
      s.target == FileTarget && s.file == fs.file && s.name == "" && s.level == Medium
  {
    var a := FileCheck(fs, fs.docstringCoverage < DOC_LOW, LowDocstringCoverage, DocValue(fs.docstringCoverage));
    var b := FileCheck(fs, fs.commentRatio < COMMENT_LOW, LowCommentRatio, CommentValue(fs.commentRatio));
    var c := FileCheck(fs, fs.longLineRatio > LONG_LINE_HIGH, ManyLongLines, LongLineValue(fs.longLineRatio));
    var d := FileCheck(fs, fs.namingIssueRatio > NAMING_HIGH, ManyNamingIssues, NamingValue(fs.namingIssueRatio));
    var e := FileCheck(fs, fs.unusedImportsCount > 0, UnusedImports, UnusedList(fs.unusedImports));
    FileCheckExact(fs, fs.docstringCoverage < DOC_LOW, LowDocstringCoverage, DocValue(fs.docstringCoverage));
    FileCheckExact(fs, fs.commentRatio < COMMENT_LOW, LowCommentRatio, CommentValue(fs.commentRatio));
    FileCheckExact(fs, fs.longLineRatio > LONG_LINE_HIGH, ManyLongLines, LongLineValue(fs.longLineRatio));
    FileCheckExact(fs, fs.namingIssueRatio > NAMING_HIGH, ManyNamingIssues, NamingValue(fs.namingIssueRatio));
    FileCheckExact(fs, fs.unusedImportsCount > 0, UnusedImports, UnusedList(fs.unusedImports));
    assert FileSmells(fs) == a + b + c + d + e;
  }

  /** Each file smell appears exactly when its strict threshold test holds. */
  lemma FileSmellsExact(fs: FileStat)
    ensures HasKind(FileSmells(fs), LowDocstringCoverage) <==> fs.docstringCoverage < DOC_LOW
    ensures HasKind(FileSmells(fs), LowCommentRatio) <==> fs.commentRatio < COMMENT_LOW
    ensures HasKind(FileSmells(fs), ManyLongLines) <==> fs.longLineRatio > LONG_LINE_HIGH
    ensures HasKind(FileSmells(fs), ManyNamingIssues) <==> fs.namingIssueRatio > NAMING_HIGH
    ensures HasKind(FileSmells(fs), UnusedImports) <==> fs.unusedImportsCount > 0
  {
    var a := FileCheck(fs, fs.docstringCoverage < DOC_LOW, LowDocstringCoverage, DocValue(fs.docstringCoverage));
    var b := FileCheck(fs, fs.commentRatio < COMMENT_LOW, LowCommentRatio, CommentValue(fs.commentRatio));
    var c := FileCheck(fs, fs.longLineRatio > LONG_LINE_HIGH, ManyLongLines, LongLineValue(fs.longLineRatio));
    var d := FileCheck(fs, fs.namingIssueRatio > NAMING_HIGH, ManyNamingIssues, NamingValue(fs.namingIssueRatio));
    var e := FileCheck(fs, fs.unusedImportsCount > 0, UnusedImports, UnusedList(fs.unusedImports));
    FileCheckExact(fs, fs.docstringCoverage < DOC_LOW, LowDocstringCoverage, DocValue(fs.docstringCoverage));
    FileCheckExact(fs, fs.commentRatio < COMMENT_LOW, LowCommentRatio, CommentValue(fs.commentRatio));
    FileCheckExact(fs, fs.longLineRatio > LONG_LINE_HIGH, ManyLongLines, LongLineValue(fs.longLineRatio));
    FileCheckExact(fs, fs.namingIssueRatio > NAMING_HIGH, ManyNamingIssues, NamingValue(fs.namingIssueRatio));
    FileCheckExact(fs, fs.unusedImportsCount > 0, UnusedImports, UnusedList(fs.unusedImports));
    assert FileSmells(fs) == a + b + c + d + e;
    forall k: SmellKind
      ensures HasKind(a + b + c + d + e, k) <==> HasKind(a, k) || HasKind(b, k) || HasKind(c, k) || HasKind(d, k) || HasKind(e, k)
    {
      HasKindAppend(a, b, k);
      HasKindAppend(a + b, c, k);
      HasKindAppend(a + b + c, d, k);
      HasKindAppend(a + b + c + d, e, k);
    }
  }

  function FunctionSmellCap(f: FuncStat): int { 3 }
  function FileSmellCap(fs: FileStat): int { 5 }
  predicate IsFunctionSmell(s: Smell) { s.target == FunctionTarget }
  predicate IsFileSmell(s: Smell) { s.target == FileTarget }

  /** The body of the function loop of `detect_smells`. */
  method SmellsOfFunction(f: FuncStat) returns (added: seq<Smell>)
    ensures added == FunctionSmells(f)
  {
    added := [];
    if f.cc >= CC_HIGH {
      added := added + [Smell(HighComplexity, High, FunctionTarget, f.file, f.name, CcValue(f.cc))];
    } else if f.cc >= CC_MED {
      added := added + [Smell(MediumComplexity, Medium, FunctionTarget, f.file, f.name, CcValue(f.cc))];
    }
    if f.length >= LEN_HIGH {
      added := added + [Smell(VeryLongFunction, High, FunctionTarget, f.file, f.name, LenValue(f.length))];
    } else if f.length >= LEN_MED {
      added := added + [Smell(LongFunction, Medium, FunctionTarget, f.file, f.name, LenValue(f.length))];
    }
    if f.nest >= NEST_HIGH {
      added := added + [Smell(VeryDeepNesting, High, FunctionTarget, f.file, f.name, NestValue(f.nest))];
    } else if f.nest >= NEST_MED {
      added := added + [Smell(DeepNesting, Medium, FunctionTarget, f.file, f.name, NestValue(f.nest))];
    }
  }

  /** The body of the file loop of `detect_smells`. */
  method SmellsOfFile(fs: FileStat) returns (added: seq<Smell>)
    ensures added == FileSmells(fs)
  {
    added := [];
    if fs.docstringCoverage < DOC_LOW {
      added := added + [Smell(LowDocstringCoverage, Medium, FileTarget, fs.file, "", DocValue(fs.docstringCoverage))];
    }
    assert added == FileCheck(fs, fs.docstringCoverage < DOC_LOW, LowDocstringCoverage, DocValue(fs.docstringCoverage));
    if fs.commentRatio < COMMENT_LOW {
      added := added + [Smell(LowCommentRatio, Medium, FileTarget, fs.file, "", CommentValue(fs.commentRatio))];
    }
    ghost var two := added;
    if fs.longLineRatio > LONG_LINE_HIGH {
      added := added + [Smell(ManyLongLines, Medium, FileTarget, fs.file, "", LongLineValue(fs.longLineRatio))];
    }
    assert added == two + FileCheck(fs, fs.longLineRatio > LONG_LINE_HIGH, ManyLongLines, LongLineValue(fs.longLineRatio));
    if fs.namingIssueRatio > NAMING_HIGH {
      added := added + [Smell(ManyNamingIssues, Medium, FileTarget, fs.file, "", NamingValue(fs.namingIssueRatio))];
    }
    if fs.unusedImportsCount > 0 {
      added := added + [Smell(UnusedImports, Medium, FileTarget, fs.file, "", UnusedList(fs.unusedImports))];
    }
  }

  /** `detect_smells`: the function loop, then the file loop, each appending. */
  method DetectSmells(funcStats: seq<FuncStat>, fileStats: seq<FileStat>) returns (smells: seq<Smell>)
    ensures smells == FlatMap(funcStats, FunctionSmells) + FlatMap(fileStats, FileSmells)
  {
    smells := [];
    for i := 0 to |funcStats|
      invariant smells == FlatMap(funcStats[..i], FunctionSmells)
    {
      assert funcStats[..i + 1][..i] == funcStats[..i];
      assert FlatMap(funcStats[..i + 1], FunctionSmells) == FlatMap(funcStats[..i], FunctionSmells) + FunctionSmells(funcStats[i]);
      var added := SmellsOfFunction(funcStats[i]);
      smells := smells + added;
    }
    assert funcStats[..|funcStats|] == funcStats;
    ghost var functionPart := smells;
    for j := 0 to |fileStats|
      invariant smells == functionPart + FlatMap(fileStats[..j], FileSmells)
    {
      assert fileStats[..j + 1][..j] == fileStats[..j];
      assert FlatMap(fileStats[..j + 1], FileSmells) == FlatMap(fileStats[..j], FileSmells) + FileSmells(fileStats[j]);
      var added := SmellsOfFile(fileStats[j]);
      smells := smells + added;
    }
    assert fileStats[..|fileStats|] == fileStats;
  }

  /** Every function smell comes before every file smell, and there are at most three
      per function and five per file. */
  lemma DetectSmellsShape(funcStats: seq<FuncStat>, fileStats: seq<FileStat>)
    ensures var smells := FlatMap(funcStats, FunctionSmells) + FlatMap(fileStats, FileSmells);
      (forall i, j :: 0 <= i < j < |smells| && smells[i].target == FileTarget ==> smells[j].target == FileTarget)
      && |smells| <= 3 * |funcStats| + 5 * |fileStats|
  {
    var a := FlatMap(funcStats, FunctionSmells);
    var b := FlatMap(fileStats, FileSmells);
    forall f | f in funcStats ensures forall y :: y in FunctionSmells(f) ==> IsFunctionSmell(y) {
      FunctionSmellsExact(f);
    }
    forall fs | fs in fileStats ensures forall y :: y in FileSmells(fs) ==> IsFileSmell(y) {
      FileSmellsShape(fs);
    }
    FlatMapAll(funcStats, FunctionSmells, IsFunctionSmell);
    FlatMapAll(fileStats, FileSmells, IsFileSmell);
    var smells := a + b;
    assert forall k :: 0 <= k < |a| ==> smells[k].target == FunctionTarget by {
      forall k | 0 <= k < |a| ensures smells[k].target == FunctionTarget { assert smells[k] == a[k] && a[k] in a; assert IsFunctionSmell(a[k]); }
    }
    assert forall k :: |a| <= k < |smells| ==> smells[k].target == FileTarget by {
      forall k | |a| <= k < |smells| ensures smells[k].target == FileTarget { assert smells[k] == b[k - |a|] && b[k - |a|] in b; assert IsFileSmell(b[k - |a|]); }
    }
    forall f | f in funcStats ensures |FunctionSmells(f)| <= FunctionSmellCap(f) { FunctionSmellsExact(f); }
    forall fs | fs in fileStats ensures |FileSmells(fs)| <= FileSmellCap(fs) { FileSmellsShape(fs); }
    FlatMapLength(funcStats, FunctionSmells, FunctionSmellCap);
    FlatMapLength(fileStats, FileSmells, FileSmellCap);
    SumConstant(funcStats, FunctionSmellCap, 3);
    SumConstant(fileStats, FileSmellCap, 5);
  }

  lemma {:induction false} SumConstant<T>(s: seq<T>, f: T -> int, c: int)
    requires forall x :: f(x) == c
    ensures Sum(s, f) == |s| * c
  {
    if s != [] {
      SumConstant(s[..|s| - 1], f, c);
    }
  }

  // ---------------------------------------------------------------------
  // Per-file rollup of the functions
  // ---------------------------------------------------------------------

  /** The per-file counters: the function count, and sums and maxima that start from 0. */
  datatype FuncAgg = FuncAgg(count: nat, ccSum: int, ccMax: int, lenSum: int, lenMax: int, nestSum: int, nestMax: int)

  const EMPTY_AGG := FuncAgg(0, 0, 0, 0, 0, 0, 0)

  /** One function added to its file's counters. */
  function AddFunc(a: FuncAgg, f: FuncStat): FuncAgg
  {
    FuncAgg(a.count + 1, a.ccSum + f.cc, Max(a.ccMax, f.cc), a.lenSum + f.length, Max(a.lenMax, f.length),
            a.nestSum + f.nest, Max(a.nestMax, f.nest))
  }

  /** The counters of `file` after every function of `stats` has been visited. */
  function AggregateFile(stats: seq<FuncStat>, file: string): FuncAgg
  {
    if stats == [] then EMPTY_AGG
    else
      var a := AggregateFile(stats[..|stats| - 1], file);
      if stats[|stats| - 1].file == file then AddFunc(a, stats[|stats| - 1]) else a
  }

  /** The functions of `stats` that belong to `file`, in order. */
  function FuncsOf(stats: seq<FuncStat>, file: string): (r: seq<FuncStat>)
    ensures forall i :: 0 <= i < |r| ==> r[i].file == file
  {
    if stats == [] then []
    else FuncsOf(stats[..|stats| - 1], file) + (if stats[|stats| - 1].file == file then [stats[|stats| - 1]] else [])
  }

  /** The test `f['file'] == file` of the comprehensions that pick a file's functions. */
  function InFile(file: string): FuncStat -> bool
  {
    (f: FuncStat) => f.file == file
  }

  /** `FuncsOf` is the comprehension keeping the functions of `file`: it holds every
      one of them, in order, and nothing else. */
  lemma {:induction false} FuncsOfIsFilter(stats: seq<FuncStat>, file: string)
    ensures FuncsOf(stats, file) == Filter(stats, InFile(file))
    ensures |FuncsOf(stats, file)| == CountWhere(stats, InFile(file))
    ensures forall i :: 0 <= i < |stats| && stats[i].file == file ==> stats[i] in FuncsOf(stats, file)
  {
    if stats != [] {
      FuncsOfIsFilter(stats[..|stats| - 1], file);
    }
  }

  /** The file of every record, in order. */
  function FilesOf<T>(s: seq<T>, fileOf: T -> string): (r: seq<string>)
    ensures |r| == |s| && forall i :: 0 <= i < |s| ==> r[i] == fileOf(s[i])
  {
    if s == [] then [] else FilesOf(s[..|s| - 1], fileOf) + [fileOf(s[|s| - 1])]
  }

  function FuncFileOf(f: FuncStat): string { f.file }

  lemma SeqMaxSnoc(s: seq<FuncStat>, x: FuncStat, f: FuncStat -> int)
    requires s != []
    ensures SeqMax(s + [x], f) == Max(SeqMax(s, f), f(x))
  {
    assert (s + [x])[..|s + [x]| - 1] == s;
  }

  lemma SumSnoc(s: seq<FuncStat>, x: FuncStat, f: FuncStat -> int)
    ensures Sum(s + [x], f) == Sum(s, f) + f(x)
  {
    assert (s + [x])[..|s + [x]| - 1] == s;
  }

  lemma FuncsOfStep(stats: seq<FuncStat>, file: string)
    requires stats != []
    ensures FuncsOf(stats, file) == FuncsOf(stats[..|stats| - 1], file)
      + (if stats[|stats| - 1].file == file then [stats[|stats| - 1]] else [])
  {
  }

  /** A file's count and sums are those of exactly its functions. */
  lemma {:induction false} AggregateFileSums(stats: seq<FuncStat>, file: string)
    ensures var a := AggregateFile(stats, file); var fs := FuncsOf(stats, file);
      a.count == |fs| && a.ccSum == Sum(fs, CcOf) && a.lenSum == Sum(fs, LengthOf) && a.nestSum == Sum(fs, NestOf)
  {
    if stats != [] {
      var init, last := stats[..|stats| - 1], stats[|stats| - 1];
      AggregateFileSums(init, file);
      FuncsOfStep(stats, file);
      if last.file == file {
        var fs := FuncsOf(init, file);
        SumSnoc(fs, last, CcOf);
        SumSnoc(fs, last, LengthOf);
        SumSnoc(fs, last, NestOf);
      } else {
        assert FuncsOf(stats, file) == FuncsOf(init, file);
      }
    }
  }

  /** A file's maxima start from 0 and cover exactly its functions. */
  lemma {:induction false} AggregateFileMaxima(stats: seq<FuncStat>, file: string)
    ensures var a := AggregateFile(stats, file); var fs := FuncsOf(stats, file);
      a.ccMax == Max(0, MaxOrZero(fs, CcOf)) && a.lenMax == Max(0, MaxOrZero(fs, LengthOf))
      && a.nestMax == Max(0, MaxOrZero(fs, NestOf))
  {
    if stats != [] {
      var init, last := stats[..|stats| - 1], stats[|stats| - 1];
      AggregateFileMaxima(init, file);
      FuncsOfStep(stats, file);
      var fs := FuncsOf(init, file);
      if last.file == file {
        if fs != [] {
          SeqMaxSnoc(fs, last, CcOf);
          SeqMaxSnoc(fs, last, LengthOf);
          SeqMaxSnoc(fs, last, NestOf);
        } else {
          assert FuncsOf(stats, file) == [last];
        }
      } else {
        assert FuncsOf(stats, file) == fs;
      }
    }
  }

  /** A file with no functions keeps the starting counters. */
  lemma {:induction false} AggregateAbsent(stats: seq<FuncStat>, file: string)
    requires file !in FilesOf(stats, FuncFileOf)
    ensures AggregateFile(stats, file) == EMPTY_AGG
  {
    if stats != [] {
      assert FilesOf(stats, FuncFileOf) == FilesOf(stats[..|stats| - 1], FuncFileOf) + [stats[|stats| - 1].file];
      AggregateAbsent(stats[..|stats| - 1], file);
    }
  }

  /** The distinct names in order of first appearance: the key order of a dict filled by setdefault. */
  function FileOrder(names: seq<string>): (r: seq<string>)
    ensures forall x :: x in r <==> x in names
    ensures forall i, j :: 0 <= i < j < |r| ==> r[i] != r[j]
  {
    if names == [] then []
    else
      var p := FileOrder(names[..|names| - 1]);
      assert forall x :: x in names <==> x in names[..|names| - 1] || x == names[|names| - 1] by {
        assert names == names[..|names| - 1] + [names[|names| - 1]];
      }
      if names[|names| - 1] in p then p else p + [names[|names| - 1]]
  }

  // ---------------------------------------------------------------------
  // File risk ranking
  // ---------------------------------------------------------------------

  function SmellFileOf(s: Smell): string { s.file }

  /** The smells of `file` at level "high". */
  function HighSmells(smells: seq<Smell>, file: string): nat
  {
    if smells == [] then 0
    else
      var last := smells[|smells| - 1];
      HighSmells(smells[..|smells| - 1], file) + (if last.file == file && last.level == High then 1 else 0)
  }

  /** The smells of `file` at any other level. */
  function MedSmells(smells: seq<Smell>, file: string): nat
  {
    if smells == [] then 0
    else
      var last := smells[|smells| - 1];
      MedSmells(smells[..|smells| - 1], file) + (if last.file == file && last.level != High then 1 else 0)
  }

  /** How many smells name `file`. */
  function SmellCount(smells: seq<Smell>, file: string): nat
  {
    if smells == [] then 0
    else SmellCount(smells[..|smells| - 1], file) + (if smells[|smells| - 1].file == file then 1 else 0)
  }

  /** Every smell of a file is counted once, as high or as medium. */
  lemma {:induction false} HighMedPartition(smells: seq<Smell>, file: string)
    ensures HighSmells(smells, file) + MedSmells(smells, file) == SmellCount(smells, file)
  {
    if smells != [] {
      HighMedPartition(smells[..|smells| - 1], file);
    }
  }

  lemma {:induction false} SmellCountsAbsent(smells: seq<Smell>, file: string)
    requires file !in FilesOf(smells, SmellFileOf)
    ensures HighSmells(smells, file) == 0 && MedSmells(smells, file) == 0
  {
    if smells != [] {
      assert FilesOf(smells, SmellFileOf) == FilesOf(smells[..|smells| - 1], SmellFileOf) + [smells[|smells| - 1].file];
      SmellCountsAbsent(smells[..|smells| - 1], file);
    }
  }

  /** A file's record in `build_file_risk_ranking`: its counters and smell tallies. */
  datatype FileRecord = FileRecord(agg: FuncAgg, highSmells: nat, medSmells: nat)

  /** One row of the ranking. */
  datatype RankEntry = RankEntry(
    file: string,
    anchor: string,
    funcCount: nat,
    highSmells: nat,
    medSmells: nat,
    ccAvg: real,
    ccMax: int,
    lenAvg: real,
    lenMax: int,
    nestAvg: real,
    nestMax: int)

  /** A file's row: averages divide by the function count, or by 1 when there are none. */
  function EntryFor(file: string, rec: FileRecord): RankEntry
  {
    var fc := if rec.agg.count == 0 then 1 else rec.agg.count;
    RankEntry(file, FileAnchor(file), rec.agg.count, rec.highSmells, rec.medSmells,
              rec.agg.ccSum as real / fc as real, rec.agg.ccMax,
              rec.agg.lenSum as real / fc as real, rec.agg.lenMax,
              rec.agg.nestSum as real / fc as real, rec.agg.nestMax)
  }

  function RecordOf(funcStats: seq<FuncStat>, smells: seq<Smell>, file: string): FileRecord
  {
    FileRecord(AggregateFile(funcStats, file), HighSmells(smells, file), MedSmells(smells, file))
  }

  /** The rows for `order`, one per file, in that order. */
  function Entries(order: seq<string>, funcStats: seq<FuncStat>, smells: seq<Smell>): (r: seq<RankEntry>)
    ensures |r| == |order|
  {
    if order == [] then []
    else
      var file := order[|order| - 1];
      Entries(order[..|order| - 1], funcStats, smells) + [EntryFor(file, RecordOf(funcStats, smells, file))]
  }

  lemma {:induction false} EntriesAt(order: seq<string>, funcStats: seq<FuncStat>, smells: seq<Smell>)
    ensures forall i :: 0 <= i < |order| ==>
      Entries(order, funcStats, smells)[i] == EntryFor(order[i], RecordOf(funcStats, smells, order[i]))
  {
    if order != [] {
      var init := order[..|order| - 1];
      EntriesAt(init, funcStats, smells);
      forall i | 0 <= i < |init| ensures order[i] == init[i] { }
    }
  }

  /** The files in the order the dict first saw them: functions first, then smells. */
  function RankedFiles(funcStats: seq<FuncStat>, smells: seq<Smell>): seq<string>
  {
    FileOrder(FilesOf(funcStats, FuncFileOf) + FilesOf(smells, SmellFileOf))
  }

  /** The ranking before it is sorted. */
  function Unranked(funcStats: seq<FuncStat>, smells: seq<Smell>): seq<RankEntry>
  {
    Entries(RankedFiles(funcStats, smells), funcStats, smells)
  }

  /** The sort key `(high_smells, med_smells, cc_max, len_max)`. */
  function RankKey(e: RankEntry): seq<real>
  {
    [e.highSmells as real, e.medSmells as real, e.ccMax as real, e.lenMax as real]
  }

  /** The files in first-seen order after one more function. */
  lemma FuncOrderStep(funcStats: seq<FuncStat>, i: nat)
    requires i < |funcStats|
    ensures var before := FileOrder(FilesOf(funcStats[..i], FuncFileOf));
      FilesOf(funcStats[..i + 1], FuncFileOf) == FilesOf(funcStats[..i], FuncFileOf) + [funcStats[i].file]
      && FileOrder(FilesOf(funcStats[..i + 1], FuncFileOf))
        == if funcStats[i].file in before then before else before + [funcStats[i].file]
  {
    var prefix := funcStats[..i + 1];
    assert prefix[..i] == funcStats[..i] && prefix[i] == funcStats[i];
    var names := FilesOf(funcStats[..i], FuncFileOf);
    assert FilesOf(prefix, FuncFileOf) == names + [funcStats[i].file];
    assert (names + [funcStats[i].file])[..|names|] == names;
  }

  /** One more function changes the counters of its own file only. */
  lemma AggregateStep(funcStats: seq<FuncStat>, i: nat, x: string)
    requires i < |funcStats|
    ensures AggregateFile(funcStats[..i + 1], x)
      == if funcStats[i].file == x then AddFunc(AggregateFile(funcStats[..i], x), funcStats[i])
         else AggregateFile(funcStats[..i], x)
  {
    assert funcStats[..i + 1][..i] == funcStats[..i];
  }

  /** The first loop of `build_file_risk_ranking`: setdefault, then update the counters. */
  method AggregateFunctions(funcStats: seq<FuncStat>) returns (files: map<string, FileRecord>, order: seq<string>)
    ensures order == FileOrder(FilesOf(funcStats, FuncFileOf))
    ensures forall x :: x in files <==> x in order
    ensures forall x :: x in files ==> files[x] == FileRecord(AggregateFile(funcStats, x), 0, 0)
  {
    files := map[];
    order := [];
    for i := 0 to |funcStats|
      invariant order == FileOrder(FilesOf(funcStats[..i], FuncFileOf))
      invariant forall x :: x in files <==> x in order
      invariant forall x :: x in files ==> files[x] == FileRecord(AggregateFile(funcStats[..i], x), 0, 0)
    {
      var file := funcStats[i].file;
      FuncOrderStep(funcStats, i);
      if file !in files {
        AggregateAbsent(funcStats[..i], file);
        files := files[file := FileRecord(EMPTY_AGG, 0, 0)];
        order := order + [file];
      }
      var d := files[file];
      files := files[file := d.(agg := AddFunc(d.agg, funcStats[i]))];
      forall x | x in files ensures files[x] == FileRecord(AggregateFile(funcStats[..i + 1], x), 0, 0) {
        AggregateStep(funcStats, i, x);
      }
    }
    assert funcStats[..|funcStats|] == funcStats;
  }

  /** A smell adds one to its file's high or medium tally and leaves every other record alone. */
  lemma RecordStep(funcStats: seq<FuncStat>, smells: seq<Smell>, j: nat, x: string)
    requires j < |smells|
    ensures var before := RecordOf(funcStats, smells[..j], x);
      RecordOf(funcStats, smells[..j + 1], x) ==
        if smells[j].file != x then before
        else if smells[j].level == High then before.(highSmells := before.highSmells + 1)
        else before.(medSmells := before.medSmells + 1)
  {
    assert smells[..j + 1][..j] == smells[..j];
  }

  /** The files in first-seen order after one more smell. */
  lemma OrderStep(funcStats: seq<FuncStat>, smells: seq<Smell>, j: nat)
    requires j < |smells|
    ensures var before := FileOrder(FilesOf(funcStats, FuncFileOf) + FilesOf(smells[..j], SmellFileOf));
      FileOrder(FilesOf(funcStats, FuncFileOf) + FilesOf(smells[..j + 1], SmellFileOf))
        == if smells[j].file in before then before else before + [smells[j].file]
  {
    var names := FilesOf(funcStats, FuncFileOf) + FilesOf(smells[..j], SmellFileOf);
    assert smells[..j + 1][..j] == smells[..j];
    assert FilesOf(funcStats, FuncFileOf) + FilesOf(smells[..j + 1], SmellFileOf) == names + [smells[j].file];
    assert (names + [smells[j].file])[..|names|] == names;
  }

  /** One step of the second loop: the smell `smells[j]` is tallied. */
  method TallySmell(funcStats: seq<FuncStat>, smells: seq<Smell>, j: nat, files0: map<string, FileRecord>, order0: seq<string>)
    returns (files: map<string, FileRecord>, order: seq<string>)
    requires j < |smells|
    requires order0 == FileOrder(FilesOf(funcStats, FuncFileOf) + FilesOf(smells[..j], SmellFileOf))
    requires forall x :: x in files0 <==> x in order0
    requires forall x :: x in files0 ==> files0[x] == RecordOf(funcStats, smells[..j], x)
    ensures order == FileOrder(FilesOf(funcStats, FuncFileOf) + FilesOf(smells[..j + 1], SmellFileOf))
    ensures forall x :: x in files <==> x in order
    ensures forall x :: x in files ==> files[x] == RecordOf(funcStats, smells[..j + 1], x)
  {
    files, order := files0, order0;
    var file := smells[j].file;
    OrderStep(funcStats, smells, j);
    if file !in files {
      AggregateAbsent(funcStats, file);
      SmellCountsAbsent(smells[..j], file);
      files := files[file := FileRecord(EMPTY_AGG, 0, 0)];
      order := order + [file];
    }
    var d := files[file];
    if smells[j].level == High {
      files := files[file := d.(highSmells := d.highSmells + 1)];
    } else {
      files := files[file := d.(medSmells := d.medSmells + 1)];
    }
    forall x | x in files ensures files[x] == RecordOf(funcStats, smells[..j + 1], x) {
      RecordStep(funcStats, smells, j, x);
    }
  }

  /** The second loop of `build_file_risk_ranking`: files seen only in smells are added,
      and each smell counts as high or, at any other level, as medium. */
  method TallySmells(funcStats: seq<FuncStat>, smells: seq<Smell>, files0: map<string, FileRecord>, order0: seq<string>)
    returns (files: map<string, FileRecord>, order: seq<string>)
    requires order0 == FileOrder(FilesOf(funcStats, FuncFileOf))
    requires forall x :: x in files0 <==> x in order0
    requires forall x :: x in files0 ==> files0[x] == FileRecord(AggregateFile(funcStats, x), 0, 0)
    ensures order == RankedFiles(funcStats, smells)
    ensures forall x :: x in files <==> x in order
    ensures forall x :: x in files ==> files[x] == RecordOf(funcStats, smells, x)
  {
    files, order := files0, order0;
    assert FilesOf(funcStats, FuncFileOf) + FilesOf(smells[..0], SmellFileOf) == FilesOf(funcStats, FuncFileOf);
    for j := 0 to |smells|
      invariant order == FileOrder(FilesOf(funcStats, FuncFileOf) + FilesOf(smells[..j], SmellFileOf))
      invariant forall x :: x in files <==> x in order
      invariant forall x :: x in files ==> files[x] == RecordOf(funcStats, smells[..j], x)
    {
      files, order := TallySmell(funcStats, smells, j, files, order);
    }
    assert smells[..|smells|] == smells;
  }

  /** The third loop of `build_file_risk_ranking`: one row per file, in dict order. */
  method ListEntries(order: seq<string>, files: map<string, FileRecord>, ghost funcStats: seq<FuncStat>, ghost smells: seq<Smell>)
    returns (ranking: seq<RankEntry>)
    requires forall x :: x in order ==> x in files && files[x] == RecordOf(funcStats, smells, x)
    ensures ranking == Entries(order, funcStats, smells)
  {
    ranking := [];
    for k := 0 to |order|
      invariant ranking == Entries(order[..k], funcStats, smells)
    {
      assert order[..k + 1][..k] == order[..k];
      var file := order[k];
      ranking := ranking + [EntryFor(file, files[file])];
    }
    assert order[..|order|] == order;
  }

  /** `build_file_risk_ranking`. */
  method BuildFileRiskRanking(funcStats: seq<FuncStat>, smells: seq<Smell>) returns (ranking: seq<RankEntry>)
    ensures ranking == SortDesc(Unranked(funcStats, smells), RankKey)
    ensures SortedDesc(ranking, RankKey)
    ensures multiset(ranking) == multiset(Unranked(funcStats, smells))
  {
    var files, order := AggregateFunctions(funcStats);
    files, order := TallySmells(funcStats, smells, files, order);
    var rows := ListEntries(order, files, funcStats, smells);
    ranking := SortDescending(rows, RankKey);
  }

  /** Before sorting, row `i` is the row of the `i`-th file in dict order. */
  lemma UnrankedAt(funcStats: seq<FuncStat>, smells: seq<Smell>)
    ensures var u := Unranked(funcStats, smells); var order := RankedFiles(funcStats, smells);
      |u| == |order|
      && (forall i :: 0 <= i < |u| ==> u[i] == EntryFor(order[i], RecordOf(funcStats, smells, order[i])))
      && (forall i :: 0 <= i < |u| ==> u[i].file == order[i])
  {
    EntriesAt(RankedFiles(funcStats, smells), funcStats, smells);
  }

  /** Each row of the ranking is its own file's row. */
  lemma RankingRecords(funcStats: seq<FuncStat>, smells: seq<Smell>)
    ensures var r := SortDesc(Unranked(funcStats, smells), RankKey);
      forall i :: 0 <= i < |r| ==> r[i] == EntryFor(r[i].file, RecordOf(funcStats, smells, r[i].file))
  {
    var u := Unranked(funcStats, smells);
    var r := SortDesc(u, RankKey);
    SortDescCorrect(u, RankKey);
    UnrankedAt(funcStats, smells);
    forall i | 0 <= i < |r| ensures r[i] == EntryFor(r[i].file, RecordOf(funcStats, smells, r[i].file)) {
      assert r[i] in multiset(u);
      var a :| 0 <= a < |u| && u[a] == r[i];
    }
  }

  /** No file has two rows in the ranking. */
  lemma RankingDistinct(funcStats: seq<FuncStat>, smells: seq<Smell>)
    ensures var r := SortDesc(Unranked(funcStats, smells), RankKey);
      forall i, j :: 0 <= i < j < |r| ==> r[i].file != r[j].file
  {
    var u := Unranked(funcStats, smells);
    var order := RankedFiles(funcStats, smells);
    var r := SortDesc(u, RankKey);
    SortDescCorrect(u, RankKey);
    UnrankedAt(funcStats, smells);
    RankingRecords(funcStats, smells);
    assert forall i, j :: 0 <= i < j < |u| ==> u[i] != u[j] by {
      forall i, j | 0 <= i < j < |u| ensures u[i] != u[j] { assert u[i].file == order[i] && u[j].file == order[j]; }
    }
    PermutationKeepsDistinct(u, r);
  }

  /** Every file named by a function or a smell has a row in the ranking. */
  lemma RankingCoversNamed(funcStats: seq<FuncStat>, smells: seq<Smell>, file: string)
    requires file in FilesOf(funcStats, FuncFileOf) || file in FilesOf(smells, SmellFileOf)
    ensures var r := SortDesc(Unranked(funcStats, smells), RankKey);
      exists i :: 0 <= i < |r| && r[i].file == file
  {
    var u := Unranked(funcStats, smells);
    var order := RankedFiles(funcStats, smells);
    var r := SortDesc(u, RankKey);
    SortDescCorrect(u, RankKey);
    UnrankedAt(funcStats, smells);
    assert file in FilesOf(funcStats, FuncFileOf) + FilesOf(smells, SmellFileOf);
    var a :| 0 <= a < |order| && order[a] == file;
    assert u[a] in multiset(r);
    var i :| 0 <= i < |r| && r[i] == u[a];
  }

  /** Every row of the ranking is for a file named by a function or a smell. */
  lemma RankingRowNamed(funcStats: seq<FuncStat>, smells: seq<Smell>, i: int)
    requires 0 <= i < |SortDesc(Unranked(funcStats, smells), RankKey)|
    ensures var f := SortDesc(Unranked(funcStats, smells), RankKey)[i].file;
      f in FilesOf(funcStats, FuncFileOf) || f in FilesOf(smells, SmellFileOf)
  {
    var u := Unranked(funcStats, smells);
    var order := RankedFiles(funcStats, smells);
    var r := SortDesc(u, RankKey);
    SortDescCorrect(u, RankKey);
    UnrankedAt(funcStats, smells);
    assert r[i] in multiset(u);
    var a :| 0 <= a < |u| && u[a] == r[i];
    assert order[a] in order;
  }

  /** A row reports its file's function count, smell count and the counters of exactly its functions. */
  lemma RankEntryFacts(funcStats: seq<FuncStat>, smells: seq<Smell>, file: string)
    ensures var e := EntryFor(file, RecordOf(funcStats, smells, file)); var fs := FuncsOf(funcStats, file);
      e.file == file && e.anchor == FileAnchor(file)
      && e.funcCount == |fs|
      && e.highSmells + e.medSmells == SmellCount(smells, file)
      && e.ccMax == Max(0, MaxOrZero(fs, CcOf)) && e.lenMax == Max(0, MaxOrZero(fs, LengthOf))
      && e.nestMax == Max(0, MaxOrZero(fs, NestOf))
      && e.ccAvg == Sum(fs, CcOf) as real / (if fs == [] then 1 else |fs|) as real
      && e.lenAvg == Sum(fs, LengthOf) as real / (if fs == [] then 1 else |fs|) as real
      && e.nestAvg == Sum(fs, NestOf) as real / (if fs == [] then 1 else |fs|) as real
  {
    AggregateFileSums(funcStats, file);
    AggregateFileMaxima(funcStats, file);
    HighMedPartition(smells, file);
  }

  // ---------------------------------------------------------------------
  // Top functions
  // ---------------------------------------------------------------------

  const DEFAULT_TOP_N := 10

  /** The sort key `(cc, length)`. */
  function TopKey(f: FuncStat): seq<real>
  {
    [f.cc as real, f.length as real]
  }

  /** `sorted(func_stats, key=(cc, length), reverse=True)[:top_n]`. */
  method TopFunctions(funcStats: seq<FuncStat>, topN: int) returns (top: seq<FuncStat>)
    ensures top == Take(SortDesc(funcStats, TopKey), topN)
    ensures 0 <= topN ==> |top| == Min(topN, |funcStats|)
    ensures SortedDesc(top, TopKey)
    ensures multiset(top) <= multiset(funcStats)
    ensures forall i, f :: 0 <= i < |top| && f in multiset(funcStats) - multiset(top) ==> LexAtLeast(TopKey(top[i]), TopKey(f))
  {
    var sorted := SortDescending(funcStats, TopKey);
    top := Take(sorted, topN);
    SortedPrefixDominates(sorted, |top|, TopKey);
  }
}
