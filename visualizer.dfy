/**
 * The chart data of the report (cyclocalc/report/visualizer.py): the two
 * histogram count lists and the rows of the file-level heatmap. The
 * matplotlib drawing and the PNG files are not modelled; each plotting
 * procedure returns the data it would hand to matplotlib.
 */
module Visualizer {
  import opened Python
  import opened StableSort
  import opened ReportGenerator

  // ---------------------------------------------------------------------
  // Histograms
  // ---------------------------------------------------------------------

  /** The index of the bar `plot_cc_distribution` increments for `cc`. */
  function CcSlot(cc: int): (k: nat)
    ensures k < 4 && CC_LABELS[k] == CcBucket(cc)
  {
    if cc <= 3 then 0 else if cc <= 6 then 1 else if cc <= 10 then 2 else 3
  }

  /** The index of the bar `plot_len_distribution` increments for `ln`. */
  function LenSlot(ln: int): (k: nat)
    ensures k < 4 && LEN_LABELS[k] == LenBucket(ln)
  {
    if ln <= 20 then 0 else if ln <= 40 then 1 else if ln <= 60 then 2 else 3
  }

  /** A larger value never lands in an earlier bar. */
  lemma SlotsMonotone(a: int, b: int)
    requires a <= b
    ensures CcSlot(a) <= CcSlot(b) && LenSlot(a) <= LenSlot(b)
  {
  }

  /** The four bar heights of a bucketing, one per label. */
  function Tallies(stats: seq<FuncStat>, bucketOf: FuncStat -> string, labels: seq<string>): (r: seq<nat>)
    requires |labels| == 4
  {
    [Tally(stats, bucketOf, labels[0]), Tally(stats, bucketOf, labels[1]),
     Tally(stats, bucketOf, labels[2]), Tally(stats, bucketOf, labels[3])]
  }

  /** Visiting one more function adds one to the bar of exactly its own label. */
  lemma TallyStep(stats: seq<FuncStat>, i: nat, bucketOf: FuncStat -> string, labels: seq<string>, slot: nat)
    requires i < |stats| && |labels| == 4
    requires forall a, b :: 0 <= a < b < 4 ==> labels[a] != labels[b]
    requires slot < 4 && labels[slot] == bucketOf(stats[i])
    ensures var before := Tallies(stats[..i], bucketOf, labels);
      Tallies(stats[..i + 1], bucketOf, labels) == before[slot := before[slot] + 1]
  {
    assert stats[..i + 1][..i] == stats[..i];
  }

  /** `plot_cc_distribution`: the four bar heights, one per `_cc_bucket` label. */
  method PlotCcDistribution(funcStats: seq<FuncStat>) returns (hist: seq<int>)
    ensures |hist| == 4
    ensures forall k :: 0 <= k < 4 ==> hist[k] == Tally(funcStats, CcBucketOf, CC_LABELS[k])
    ensures hist[0] + hist[1] + hist[2] + hist[3] == |funcStats|
  {
    var counts := new int[4](_ => 0);
    LabelsDistinct();
    for i := 0 to |funcStats|
      invariant counts[..] == Tallies(funcStats[..i], CcBucketOf, CC_LABELS)
    {
      var cc := funcStats[i].cc;
      TallyStep(funcStats, i, CcBucketOf, CC_LABELS, CcSlot(cc));
      var k := CcSlot(cc);
      counts[k] := counts[k] + 1;
    }
    assert funcStats[..|funcStats|] == funcStats;
    hist := counts[..];
    TalliesSum(funcStats, CcBucketOf, CC_LABELS);
  }

  /** `plot_len_distribution`: the four bar heights, one per `_len_bucket` label. */
  method PlotLenDistribution(funcStats: seq<FuncStat>) returns (hist: seq<int>)
    ensures |hist| == 4
    ensures forall k :: 0 <= k < 4 ==> hist[k] == Tally(funcStats, LenBucketOf, LEN_LABELS[k])
    ensures hist[0] + hist[1] + hist[2] + hist[3] == |funcStats|
  {
    var counts := new int[4](_ => 0);
    LabelsDistinct();
    for i := 0 to |funcStats|
      invariant counts[..] == Tallies(funcStats[..i], LenBucketOf, LEN_LABELS)
    {
      var ln := funcStats[i].length;
      TallyStep(funcStats, i, LenBucketOf, LEN_LABELS, LenSlot(ln));
      var k := LenSlot(ln);
      counts[k] := counts[k] + 1;
    }
    assert funcStats[..|funcStats|] == funcStats;
    hist := counts[..];
    TalliesSum(funcStats, LenBucketOf, LEN_LABELS);
  }

  // ---------------------------------------------------------------------
  // Heatmap
  // ---------------------------------------------------------------------

  const DEFAULT_TOP_K := 12

  /** One heatmap row: the file and its seven columns. */
  datatype HeatRow = HeatRow(
    file: string,
    ccAvg: real, ccMax: int,
    lenAvg: real, lenMax: int,
    nestAvg: real,
    commentRatio: real, docstringCoverage: real)

  /** The counters `plot_file_heatmap` uses for a file with no functions. */
  const MISSING_AGG := FuncAgg(1, 0, 0, 0, 0, 0, 0)

  /** The row built from a file's counters, divided by `max(cnt, 1)`. */
  function RowFrom(fs: FileStat, a: FuncAgg): HeatRow
  {
    var cnt := Max(a.count, 1) as real;
    HeatRow(fs.file, a.ccSum as real / cnt, a.ccMax, a.lenSum as real / cnt, a.lenMax,
            a.nestSum as real / cnt, fs.commentRatio, fs.docstringCoverage)
  }

  /** The row of a `file_stats` entry, from the counters of that file's functions. */
  function HeatRowOf(funcStats: seq<FuncStat>, fs: FileStat): HeatRow
  {
    RowFrom(fs, AggregateFile(funcStats, fs.file))
  }

  /** The rows before sorting: one per `file_stats` entry, in order. */
  function HeatRows(funcStats: seq<FuncStat>, fileStats: seq<FileStat>): (r: seq<HeatRow>)
    ensures |r| == |fileStats|
  {
    if fileStats == [] then []
    else HeatRows(funcStats, fileStats[..|fileStats| - 1]) + [HeatRowOf(funcStats, fileStats[|fileStats| - 1])]
  }

  /** The sort key: `cc_max + len_max + row[4]`, where `row[4]` is the nesting average. */
  function HeatKey(r: HeatRow): seq<real>
  {
    [(r.ccMax + r.lenMax) as real + r.nestAvg]
  }

  /** The first loop of `plot_file_heatmap`: per-file counters keyed by file. */
  method AggregateByFile(funcStats: seq<FuncStat>) returns (agg: map<string, FuncAgg>)
    ensures forall x :: x in agg <==> x in FilesOf(funcStats, FuncFileOf)
    ensures forall x :: x in agg ==> agg[x] == AggregateFile(funcStats, x)
  {
    agg := map[];
    for i := 0 to |funcStats|
      invariant forall x :: x in agg <==> x in FilesOf(funcStats[..i], FuncFileOf)
      invariant forall x :: x in agg ==> agg[x] == AggregateFile(funcStats[..i], x)
    {
      var prefix := funcStats[..i + 1];
      assert prefix[..i] == funcStats[..i] && prefix[i] == funcStats[i];
      assert FilesOf(prefix, FuncFileOf) == FilesOf(funcStats[..i], FuncFileOf) + [funcStats[i].file];
      var file := funcStats[i].file;
      if file !in agg {
        AggregateAbsent(funcStats[..i], file);
        agg := agg[file := EMPTY_AGG];
      }
      agg := agg[file := AddFunc(agg[file], funcStats[i])];
    }
    assert funcStats[..|funcStats|] == funcStats;
  }

  /** The second loop of `plot_file_heatmap`: one row per `file_stats` entry. */
  method BuildHeatRows(funcStats: seq<FuncStat>, fileStats: seq<FileStat>, agg: map<string, FuncAgg>)
    returns (rows: seq<HeatRow>)
    requires forall x :: x in agg <==> x in FilesOf(funcStats, FuncFileOf)
    requires forall x :: x in agg ==> agg[x] == AggregateFile(funcStats, x)
    ensures rows == HeatRows(funcStats, fileStats)
  {
    rows := [];
    for k := 0 to |fileStats|
      invariant rows == HeatRows(funcStats, fileStats[..k])
    {
      assert fileStats[..k + 1][..k] == fileStats[..k];
      var fs := fileStats[k];
      var a := if fs.file in agg then agg[fs.file] else MISSING_AGG;
      if fs.file !in agg {
        AggregateAbsent(funcStats, fs.file);
      }
      rows := rows + [RowFrom(fs, a)];
    }
    assert fileStats[..|fileStats|] == fileStats;
  }

  /** `plot_file_heatmap`: the rows it draws, highest key first; none means nothing is drawn. */
  method PlotFileHeatmap(funcStats: seq<FuncStat>, fileStats: seq<FileStat>, topK: int) returns (rows: seq<HeatRow>)
    ensures rows == Take(SortDesc(HeatRows(funcStats, fileStats), HeatKey), topK)
    ensures 0 <= topK ==> |rows| == Min(topK, |fileStats|)
    ensures SortedDesc(rows, HeatKey)
    ensures multiset(rows) <= multiset(HeatRows(funcStats, fileStats))
    ensures forall i, r :: 0 <= i < |rows| && r in multiset(HeatRows(funcStats, fileStats)) - multiset(rows) ==>
      LexAtLeast(HeatKey(rows[i]), HeatKey(r))
  {
    var agg := AggregateByFile(funcStats);
    var all := BuildHeatRows(funcStats, fileStats, agg);
    var sorted := SortDescending(all, HeatKey);
    rows := Take(sorted, topK);
    SortedPrefixDominates(sorted, |rows|, HeatKey);
  }

  /** Row `i` is the `i`-th `file_stats` entry with the counters of exactly that file's functions. */
  lemma {:induction false} HeatRowsAt(funcStats: seq<FuncStat>, fileStats: seq<FileStat>, i: int)
    requires 0 <= i < |fileStats|
    ensures var r := HeatRows(funcStats, fileStats)[i]; var fs := FuncsOf(funcStats, fileStats[i].file);
      var cnt := (if fs == [] then 1 else |fs|) as real;
      r.file == fileStats[i].file
      && r.commentRatio == fileStats[i].commentRatio && r.docstringCoverage == fileStats[i].docstringCoverage
      && r.ccMax == Max(0, MaxOrZero(fs, CcOf)) && r.lenMax == Max(0, MaxOrZero(fs, LengthOf))
      && r.ccAvg == Sum(fs, CcOf) as real / cnt && r.lenAvg == Sum(fs, LengthOf) as real / cnt
      && r.nestAvg == Sum(fs, NestOf) as real / cnt
  {
    if i < |fileStats| - 1 {
      HeatRowsAt(funcStats, fileStats[..|fileStats| - 1], i);
    } else {
      AggregateFileSums(funcStats, fileStats[i].file);
      AggregateFileMaxima(funcStats, fileStats[i].file);
    }
  }

  /** A file with no functions gets a row of zero metrics. */
  lemma HeatRowWithoutFunctions(funcStats: seq<FuncStat>, fs: FileStat)
    requires fs.file !in FilesOf(funcStats, FuncFileOf)
    ensures var r := HeatRowOf(funcStats, fs);
      r.ccAvg == 0.0 && r.ccMax == 0 && r.lenAvg == 0.0 && r.lenMax == 0 && r.nestAvg == 0.0
  {
    AggregateAbsent(funcStats, fs.file);
  }

  /** Row `i` is labelled with the file of the `i`-th `file_stats` entry. */
  lemma {:induction false} HeatRowFile(funcStats: seq<FuncStat>, fileStats: seq<FileStat>, i: int)
    requires 0 <= i < |fileStats|
    ensures HeatRows(funcStats, fileStats)[i].file == fileStats[i].file
  {
    if i < |fileStats| - 1 {
      HeatRowFile(funcStats, fileStats[..|fileStats| - 1], i);
    }
  }

  /** Every drawn row is for a file of `file_stats`; files seen only in functions get none. */
  lemma HeatmapFilesFromFileStats(funcStats: seq<FuncStat>, fileStats: seq<FileStat>, topK: int, r: HeatRow)
    requires r in Take(SortDesc(HeatRows(funcStats, fileStats), HeatKey), topK)
    ensures exists i :: 0 <= i < |fileStats| && fileStats[i].file == r.file
  {
    var all := HeatRows(funcStats, fileStats);
    var sorted := SortDesc(all, HeatKey);
    var top := Take(sorted, topK);
    var j :| 0 <= j < |top| && top[j] == r;
    assert sorted[j] == r;
    SortDescCorrect(all, HeatKey);
    assert r in multiset(all);
    var i :| 0 <= i < |all| && all[i] == r;
    HeatRowFile(funcStats, fileStats, i);
  }
}
