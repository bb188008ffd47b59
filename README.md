# cyclocalc, modelled in Dafny

cyclocalc is a static analyser for Python sources. The modelled core has four parts:

- **Function metrics**:
  - cyclomatic complexity: one, plus one per decision node, plus one per extra `and`/`or` operand;
  - length in lines;
  - maximum nesting depth of control blocks.
- **File metrics**:
  - comment-line ratio and long-line ratio;
  - docstring coverage;
  - a naming-convention ratio over definitions, arguments and assigned variables;
  - the sorted list of imported names that are never loaded.
- **The command-line front end**:
  - extracting every function with its dotted qualified name, using a visitor with a scope stack;
  - a second copy of the complexity rule;
  - the threshold filter of `analyze`.
- **The report layer**:
  - complexity and length buckets, and the HTML anchor of a file;
  - the source preview window, and the risk level of a function with its explanation;
  - the summary (averages, maxima, bucket counts);
  - smell detection;
  - the per-file risk ranking, and the top-N function list;
  - the data behind the two histograms and the file heatmap.

The Python AST is a tree of `Ast.Node` values, each with a `Kind`, optional start and end line numbers and its children in field order.

- `ast.walk` becomes a pre-order `Walk`.
- Per-function and per-file dictionaries become the datatypes `FuncStat`, `FileStat`, `Smell`, `RankEntry` and `HeatRow`.
- Python's stable `sort(..., reverse=True)` on tuple keys becomes `StableSort.SortDesc`. This is a stable insertion into descending order, and keys are compared lexicographically.
- Ratios and averages are exact `real`s.

Loops in the source are methods with loop invariants. Each is proved equal to a recursive specification function, and the properties the program relies on are lemmas about those functions. The `list_functions` visitor is the class `Cli.FunctionVisitor`, whose fields are the scope stack and the function list the visitor updates.

The heatmap code sorts on `cc_max + len_max + nest_avg` (row columns 1, 3 and 4). The comment above that line says `nest_max`. The model follows the code: see `Visualizer.HeatKey`.

## Model

| member | source | states |
|---|---|---|
| Metrics.CalcCc | cyclocalc/analyzer/metrics.py:32-46 | The loop over the walked nodes returns `Complexity`: one, plus the decision nodes, plus the extra `and`/`or` operands. It is at least 1 for a well-formed tree. |
| Metrics.CcWalkSum | cyclocalc/analyzer/metrics.py:40-44 | The per-node weights summed over the walk equal the recursive count of decision nodes plus bool-op points. |
| Metrics.ComplexityAtLeastOne | cyclocalc/analyzer/metrics.py:32-46 | In a well-formed tree every `BoolOp` has at least two operands, so the complexity is at least 1. |
| Metrics.SubtreeComplexityIncluded | cyclocalc/analyzer/metrics.py:40-44 | A subtree's complexity never exceeds the complexity of the tree containing it. A nested function's decision points also count toward its outer function. |
| Metrics.CalcLength | cyclocalc/analyzer/metrics.py:49-52 | There is a length exactly when both line numbers are present. It is at least 1 when the start does not come after the end. |
| Metrics.LengthCountsLines | cyclocalc/analyzer/metrics.py:49-52 | The length is the number of line numbers from `lineno` to `end_lineno` inclusive. |
| Metrics.CalcMaxNesting | cyclocalc/analyzer/metrics.py:55-69 | The maximum nesting depth is never negative. |
| Metrics.DfsBoundsEveryPath | cyclocalc/analyzer/metrics.py:60-67 | `dfs` from a depth bounds that depth plus the nesting blocks on every downward path. |
| Metrics.DfsAttained | cyclocalc/analyzer/metrics.py:60-67 | Some downward path reaches exactly the value `dfs` returns. |
| Metrics.MaxNestingIsDeepestPath | cyclocalc/analyzer/metrics.py:55-69 | The maximum nesting is the largest number of `if`/`for`/`while`/`try`/`with` blocks on any path below the function. |
| Metrics.MaxNestingZeroIff | cyclocalc/analyzer/metrics.py:60-67 | `dfs` returns its starting depth exactly when no nesting block occurs below the node. |
| Metrics.MaxNestingZeroIffAll | cyclocalc/analyzer/metrics.py:60-67 | The same holds over a list of children: no increase exactly when no descendant is a nesting block. |
| Metrics.CollectFuncMetrics | cyclocalc/analyzer/metrics.py:72-77 | The record holds the complexity, the optional length and the maximum nesting of the node. |
| Metrics.RatioInUnitInterval | cyclocalc/analyzer/metrics.py:89-92 | A count divided by a larger total lies in [0, 1], with 0.0 for an empty total. It is 0 exactly when the count is 0, and 1 exactly when the count equals a non-zero total. |
| Metrics.RatioMonotone | cyclocalc/analyzer/metrics.py:95-100 | Over the same total, a larger count gives a ratio at least as large. |
| Metrics.CalcCommentRatio | cyclocalc/analyzer/metrics.py:84-92 | The counting loop returns the share of lines that start with `#` after stripping. That share lies in [0, 1], and is 0.0 for no lines. |
| Metrics.CommentRatioExtremes | cyclocalc/analyzer/metrics.py:84-92 | The ratio is 1.0 exactly when the file is non-empty and every line is a comment. It is 0.0 exactly when no line is. |
| Metrics.LongLineCount | cyclocalc/analyzer/metrics.py:98-99 | There are never more long lines than lines. |
| Metrics.CalcLongLineRatio | cyclocalc/analyzer/metrics.py:95-100 | The long-line ratio lies in [0, 1] and is 0.0 for no lines. |
| Metrics.LongLineCountAntitone | cyclocalc/analyzer/metrics.py:95-100 | Raising the limit never adds long lines. |
| Metrics.LongLineCountAll | cyclocalc/analyzer/metrics.py:98-99 | Every line is counted exactly when every line is longer than the limit. |
| Metrics.LongLineRatioProperties | cyclocalc/analyzer/metrics.py:95-100 | The ratio does not increase as the limit rises. It is 1.0 exactly when all lines of a non-empty file are long. |
| Metrics.NamingStylesDisjoint | cyclocalc/analyzer/metrics.py:104-113 | No name is both snake_case and CapWords, and the empty name is neither. |
| Metrics.DefNameIssues | cyclocalc/analyzer/metrics.py:119-131 | A node yields at most one naming finding, and none unless it is a function, async function or class. |
| Metrics.CheckFuncAndClassNames | cyclocalc/analyzer/metrics.py:116-132 | The walk loop counts every definition and collects the findings of each node in walk order. There are never more findings than names checked. |
| Metrics.ArgumentIssuesBounded | cyclocalc/analyzer/metrics.py:140-143 | A list of argument names yields at most one finding per name. |
| Metrics.ArgNameChecks | cyclocalc/analyzer/metrics.py:139-151 | The count added for a node is the length of its checked-name list: positional and keyword-only arguments, then `*args` and `**kwargs` when present. A non-function node has none. |
| Metrics.ArgNameIssues | cyclocalc/analyzer/metrics.py:139-151 | A function yields no more argument findings than names checked. |
| Metrics.ArgNameIssuesExact | cyclocalc/analyzer/metrics.py:139-151 | The names in a function's findings, in order, are exactly its checked names that are not snake_case. Every finding names a bad parameter, and every bad parameter yields one finding. |
| Metrics.CheckArgsOf | cyclocalc/analyzer/metrics.py:139-151 | The loop over one function's arguments returns that function's checked count and findings. |
| Metrics.CheckArgNames | cyclocalc/analyzer/metrics.py:135-152 | The walk loop sums the per-function counts and concatenates their findings. There are never more findings than names checked. |
| Metrics.BadVariables | cyclocalc/analyzer/metrics.py:163-168 | The badly named variables are among the variables checked, which excludes `_` and dunder names. |
| Metrics.CollectStoreNames | cyclocalc/analyzer/metrics.py:156-159 | The walk loop collects exactly the ids of the `Name` nodes in store context. |
| Metrics.CheckVarNames | cyclocalc/analyzer/metrics.py:155-170 | The count is the number of non-exempt stored names. A finding is present exactly for each stored name that is not snake_case, and there are never more findings than names checked. |
| Metrics.NamingIssuesBounded | cyclocalc/analyzer/metrics.py:173-181 | The three checkers together never report more findings than names checked. |
| Metrics.CollectNamingIssues | cyclocalc/analyzer/metrics.py:173-181 | The ratio is findings over names checked: in [0, 1], and 0.0 when nothing is checked. The findings are the definition findings, then the argument findings, then exactly the bad variables. |
| Metrics.CollectDefinitions | cyclocalc/analyzer/metrics.py:185-188 | The walk loop collects exactly the function, async function and class nodes, in walk order. |
| Metrics.CountDocstrings | cyclocalc/analyzer/metrics.py:190-197 | The count is one for the module's docstring, if it has one, plus the number of definitions with a docstring. |
| Metrics.CalcDocstringCoverage | cyclocalc/analyzer/metrics.py:184-199 | Coverage is documented nodes over definitions plus one, and lies in [0, 1]. The tree must be a node `ast.get_docstring` accepts. |
| Metrics.DocstringCountExtremes | cyclocalc/analyzer/metrics.py:190-197 | The documented count equals definitions plus one exactly when the module and every definition have a docstring. It is 0 exactly when none does. |
| Metrics.DocstringCoverageExtremes | cyclocalc/analyzer/metrics.py:184-199 | For a module, coverage is 1.0 exactly when everything is documented, and 0.0 exactly when nothing is. |
| Metrics.FirstSegment | cyclocalc/analyzer/metrics.py:210 | `name.split(".")[0]` is a dot-free prefix of the name, and the whole name when it has no dot. |
| Metrics.FirstSegmentDotted | cyclocalc/analyzer/metrics.py:210 | For `pkg.rest`, the binding of `import pkg.rest` is `pkg`. |
| Metrics.AddImportBindings | cyclocalc/analyzer/metrics.py:209-210 | The alias loop adds each `asname` or first name segment to the imported set. |
| Metrics.AddFromImportBindings | cyclocalc/analyzer/metrics.py:212-215 | The alias loop adds each `asname` or name, skipping `*`. |
| Metrics.ImportBindingsMembership | cyclocalc/analyzer/metrics.py:209-210 | A name is bound by an `import` exactly when one of its aliases binds it. |
| Metrics.FromImportBindingsMembership | cyclocalc/analyzer/metrics.py:212-215 | A name is bound by a `from ... import` exactly when a non-`*` alias binds it. |
| Metrics.ImportedNamesMembership | cyclocalc/analyzer/metrics.py:207-215 | A name is imported exactly when some walked import node binds it. |
| Metrics.CalcUnusedImports | cyclocalc/analyzer/metrics.py:203-221 | The result is strictly sorted, has no repeats, and holds exactly the imported names never loaded. |
| Metrics.UnusedImportExample | cyclocalc/analyzer/metrics.py:208-220 | A module containing only `import pkg.sub` reports `pkg` as unused. |
| Metrics.UsedImportExample | cyclocalc/analyzer/metrics.py:208-220 | A module that imports `pkg` and loads `pkg` reports nothing. |
| Metrics.StarImportExample | cyclocalc/analyzer/metrics.py:211-215 | `from m import *` binds nothing and so reports nothing. |
| Metrics.ComplexityExample | tests/test_cli.py:10-14 | The `test_empty_file` function has complexity 4 (a `with` and two `assert`s), length 5 and nesting 1, matching the expected output. |
| Metrics.ThisFileComplexityExample | tests/test_cli.py:17-23 | The `test_this_file` function has complexity 3 (two `assert`s), length 7 and nesting 0, matching the expected output. |
| Metrics.BoolOpComplexityExample | cyclocalc/analyzer/metrics.py:32-46 | A function with one `if`, one `for` and one `a and b and c` has complexity 1 + 1 + 1 + 2 = 5. |
| Metrics.BoolOpNestingExample | cyclocalc/analyzer/metrics.py:55-69 | The same function, with the `for` inside the `if`, nests two levels deep. |
| Metrics.CollectFileMetrics | cyclocalc/analyzer/metrics.py:224-238 | Each field is its metric. All four ratios lie in [0, 1], the finding count is that of the naming checkers, and the unused imports are exactly the unused names, sorted. |
| Metrics.EmptyFileRatios | cyclocalc/analyzer/metrics.py:86-87 | An empty file has comment, long-line, docstring and naming ratios of 0.0. |
| Cli.FunctionVisitor.constructor | cyclocalc/cli.py:70-71 | The visitor starts with an empty scope stack and no functions. |
| Cli.FunctionVisitor.Visit | cyclocalc/cli.py:73-94 | Visiting a node leaves the scope stack as it found it. The function list grows by the node's entries, each with its name qualified by the stack. |
| Cli.FunctionVisitor.GenericVisit | cyclocalc/cli.py:73-94 | Visiting the children in order appends their entries in order and restores the stack. |
| Cli.ListFunctions | cyclocalc/cli.py:59-97 | The entries' nodes are exactly the function and async function nodes of the tree, in walk order, one entry each. |
| Cli.EntryNodes | cyclocalc/cli.py:59-97 | Projecting the entries to their nodes keeps length and order. |
| Cli.ExtractNodes | cyclocalc/cli.py:73-94 | The nodes a visit records are the walk of the subtree filtered to functions. |
| Cli.ExtractAllNodes | cyclocalc/cli.py:73-94 | The same holds for a sequence of children. |
| Cli.ExtractNamed | cyclocalc/cli.py:73-94 | Every entry names a function reached by some path. Its name is the starting stack, then the names of the classes and functions on that path, then its own name, joined with dots. |
| Cli.ExtractNamedAt | cyclocalc/cli.py:73-94 | The same, returning the path as a witness. |
| Cli.ExtractAllNamed | cyclocalc/cli.py:73-94 | The same for entries found under a sequence of children: the child index and the path within it. |
| Cli.ListFunctionsNestedExample | tests/unit/test_list_functions.py:6-28 | A class `A` whose `method` holds `inner`, followed by `top_level`, yields `A.method`, `A.method.inner` and `top_level`. |
| Cli.ListFunctionsAsyncExample | tests/unit/test_list_functions.py:31-55 | Async functions and nested classes are qualified the same way. |
| Cli.CalculateCyclomaticComplexity | cyclocalc/cli.py:100-139 | The second implementation computes the same value as `calc_cc`, and at least 1 on well-formed trees. |
| Cli.AnalyzeFunctions | cyclocalc/cli.py:167-172 | One file's findings are its functions whose complexity reaches the threshold, in extraction order. |
| Cli.Analyze | cyclocalc/cli.py:161-182 | The results are the findings of each parsed file in order. A file the parser rejects contributes nothing. |
| Cli.TestFunctionsExtract | cyclocalc/cli.py:59-97 | Each test function, holding no nested definition, is listed once under its own name. |
| Cli.TestModuleExtract | cyclocalc/cli.py:59-97 | The test module, with its imports and assignment, lists `test_empty_file` then `test_this_file`. |
| Cli.FindingsOneFile | cyclocalc/cli.py:161-172 | Analysing one parsed file gives the findings of its extracted functions. |
| Cli.FileFindingsBothReported | cyclocalc/cli.py:167-172 | Two functions at or above the threshold are both reported, in order, with their complexities. |
| Cli.AnalyzeTestModuleExample | tests/test_cli.py:17-23 | With the default threshold 1, analysing the test module reports `test_empty_file` with 4, then `test_this_file` with 3. |
| Cli.FileFindingsExact | cyclocalc/cli.py:167-172 | A finding is reported exactly when it is the path, qualified name and complexity of an extracted function at or above the threshold. |
| Cli.DefaultThresholdReportsAll | cyclocalc/cli.py:146-148 | With the default threshold 1, every function of a well-formed tree is reported. |
| Cli.ExtractedWellFormed | cyclocalc/cli.py:73-94 | Every extracted function of a well-formed tree is itself well-formed. |
| Cli.EntryNames | tests/unit/test_list_functions.py:24-28 | Projecting entries to their names keeps length and order. |
| ReportGenerator.CcBucket | cyclocalc/report/report_generator.py:30-37 | Each complexity falls in exactly one of `1-3`, `4-6`, `7-10`, `11+`, by the stated bounds. |
| ReportGenerator.LenBucket | cyclocalc/report/report_generator.py:40-47 | Each length falls in exactly one of `1-20`, `21-40`, `41-60`, `61+`. |
| ReportGenerator.LabelsDistinct | cyclocalc/report/report_generator.py:30-47 | The four labels of each bucketing are distinct. |
| ReportGenerator.ReplaceCharAt | cyclocalc/report/report_generator.py:56 | `str.replace` on one character keeps the length and changes exactly the matching positions. |
| ReportGenerator.RemoveCharFacts | cyclocalc/report/report_generator.py:56 | Deleting a character shortens the string by its occurrences and leaves only other characters of the input. |
| ReportGenerator.FileAnchorProperties | cyclocalc/report/report_generator.py:50-57 | The anchor starts with `file_` and holds no `\`, `/`, `.` or `:`. Its length is five plus the path's length less its colons. |
| ReportGenerator.FileAnchorOfPlainPath | cyclocalc/report/report_generator.py:50-57 | A path without separators, dots or colons becomes `file_` followed by the path. |
| ReportGenerator.PreviewWindow | cyclocalc/report/report_generator.py:80-86 | The shown lines are the file's lines from `lineno - 1` on, at most `max(length, 1)` of them, cut to `max_lines`. Truncation is flagged exactly when the cut removed lines. |
| ReportGenerator.PreviewWindowBounds | cyclocalc/report/report_generator.py:80-86 | At most `max_lines` lines are shown. A start past the end shows nothing and is not truncated. An in-range start shows its own line first. |
| ReportGenerator.ReadFuncPreview | cyclocalc/report/report_generator.py:60-88 | A missing line number gives the no-line-number text, and an unreadable file gives the read-failure text. Otherwise, with `s = max(lineno - 1, 0)`, the result is `lines[s..s+k]` joined by newlines, where `k` is the smaller of `max_lines` and the available `min(max(length, 1), len(lines) - s)`. The truncation marker is appended exactly when `k` is below what is available. A start past the end gives the empty text. |
| ReportGenerator.MetricReason | cyclocalc/report/report_generator.py:108-127 | A metric contributes at most one reason, exactly when it scores points. That reason names the metric and a threshold it reached, and the high threshold whenever that one was reached. |
| ReportGenerator.ReasonsProperties | cyclocalc/report/report_generator.py:103-132 | At most three reasons, in complexity, length, nesting order, and none exactly when the score is 0. Each names a threshold its metric reached, and the high one whenever the metric reached it. |
| ReportGenerator.ReasonsCoverMetrics | cyclocalc/report/report_generator.py:108-127 | Each metric is named among the reasons exactly when it reached its medium threshold. |
| ReportGenerator.RiskLevel | cyclocalc/report/report_generator.py:103-132 | The level is high at a score of 4 or more, medium at 2-3, low below 2. The explanation lists the reasons, or is the fallback exactly when there are none, and then the level is low. |
| ReportGenerator.RiskLevelMonotone | cyclocalc/report/report_generator.py:103-132 | Larger metrics never lower the score or the level. |
| ReportGenerator.Tally | cyclocalc/report/report_generator.py:160-163 | A bucket never counts more functions than there are. |
| ReportGenerator.TalliesSum | cyclocalc/report/report_generator.py:160-163 | The four bucket counts add up to the number of functions. |
| ReportGenerator.SeqMax | cyclocalc/report/report_generator.py:146-148 | The maximum bounds every element and is attained by one. |
| ReportGenerator.SumAtMostMax | cyclocalc/report/report_generator.py:145-148 | A sum is at most the count times any upper bound. |
| ReportGenerator.AverageAtMostMax | cyclocalc/report/report_generator.py:145-148 | The average of a non-empty list never exceeds its maximum. |
| ReportGenerator.CountBuckets | cyclocalc/report/report_generator.py:160-163 | The loop yields a map over exactly the bucket labels, each holding the number of functions in that bucket. |
| ReportGenerator.BuildSummary | cyclocalc/report/report_generator.py:135-171 | The summary holds:<br>- the counts, and the averages with 0 for none;<br>- maxima that bound and are attained, 0 for none;<br>- both distributions, keyed by their labels and summing to the number of functions;<br>- the per-file metric averages. |
| ReportGenerator.MetricSmellExact | cyclocalc/report/report_generator.py:185-252 | One metric yields its high smell at or above the high threshold, or its medium smell between the thresholds, and nothing otherwise. The smell targets the function and carries its file and name. |
| ReportGenerator.FileCheckExact | cyclocalc/report/report_generator.py:258-314 | One file check yields its medium-level file smell exactly when its test holds. |
| ReportGenerator.FunctionSmellsExact | cyclocalc/report/report_generator.py:181-252 | A function has at most three smells. Each of the six kinds is present exactly when its metric is in the corresponding range, and every smell is high or medium and names the function. |
| ReportGenerator.FileSmellsShape | cyclocalc/report/report_generator.py:255-314 | A file has at most five smells, all medium, targeting the file, with an empty name. |
| ReportGenerator.FileSmellsExact | cyclocalc/report/report_generator.py:255-314 | Each file-smell kind is present exactly when its condition holds:<br>- docstring coverage below 0.30;<br>- comment ratio below 0.02;<br>- long-line ratio above 0.10;<br>- naming ratio above 0.10;<br>- unused imports present. |
| ReportGenerator.SmellsOfFunction | cyclocalc/report/report_generator.py:182-252 | The body of the function loop appends exactly that function's smells. |
| ReportGenerator.SmellsOfFile | cyclocalc/report/report_generator.py:256-314 | The body of the file loop appends exactly that file's smells. |
| ReportGenerator.DetectSmells | cyclocalc/report/report_generator.py:174-316 | The smells are all function smells in input order, followed by all file smells. |
| ReportGenerator.DetectSmellsShape | cyclocalc/report/report_generator.py:174-316 | No function smell follows a file smell. There are at most 3 per function plus 5 per file. |
| ReportGenerator.FuncsOf | cyclocalc/report/report_generator.py:325-349 | The functions grouped under a file all belong to it. |
| ReportGenerator.FuncsOfIsFilter | cyclocalc/report/report_generator.py:325-349 | The functions grouped under a file are the comprehension over `func_stats` keeping that file. Every function of the file is among them, in order, and their number is the count of such functions. |
| ReportGenerator.AggregateFileSums | cyclocalc/report/report_generator.py:325-349 | A file's record counts its functions and sums their complexity, length and nesting. |
| ReportGenerator.AggregateFileMaxima | cyclocalc/report/report_generator.py:325-349 | A file's maxima are those of its functions, floored at the initial 0. |
| ReportGenerator.AggregateAbsent | cyclocalc/report/report_generator.py:327-341 | A file with no functions keeps the all-zero initial record. |
| ReportGenerator.FileOrder | cyclocalc/report/report_generator.py:323-369 | The dict keys, in insertion order, are exactly the files seen, each once. |
| ReportGenerator.HighMedPartition | cyclocalc/report/report_generator.py:366-369 | Every smell of a file is counted as high or medium, exactly once. |
| ReportGenerator.SmellCountsAbsent | cyclocalc/report/report_generator.py:351-369 | A file with no smells has zero high and zero medium counts. |
| ReportGenerator.AggregateFunctions | cyclocalc/report/report_generator.py:325-349 | The first loop yields one record per file in first-seen order, holding that file's aggregate and no smells. |
| ReportGenerator.TallySmell | cyclocalc/report/report_generator.py:352-369 | One smell adds its file if new and raises that file's high or medium count. |
| ReportGenerator.TallySmells | cyclocalc/report/report_generator.py:351-369 | The second loop leaves one record per file of a function or smell, in first-seen order, with its smell counts. |
| ReportGenerator.Entries | cyclocalc/report/report_generator.py:371-388 | There is one ranking row per file. |
| ReportGenerator.EntriesAt | cyclocalc/report/report_generator.py:371-388 | Each row is built from its file's record. |
| ReportGenerator.ListEntries | cyclocalc/report/report_generator.py:371-388 | The loop produces those rows in dict order. |
| ReportGenerator.BuildFileRiskRanking | cyclocalc/report/report_generator.py:319-394 | The ranking is the stable descending sort of the rows on (high, medium, cc_max, len_max). It is sorted and a permutation of the rows. |
| ReportGenerator.UnrankedAt | cyclocalc/report/report_generator.py:371-388 | Before sorting, row i belongs to the i-th file in dict order. |
| ReportGenerator.RankingRecords | cyclocalc/report/report_generator.py:371-394 | Every ranked row carries its own file's record. |
| ReportGenerator.RankingDistinct | cyclocalc/report/report_generator.py:319-394 | No file appears twice in the ranking. |
| ReportGenerator.RankingCoversNamed | cyclocalc/report/report_generator.py:319-394 | Every file with a function or a smell appears in the ranking. |
| ReportGenerator.RankingRowNamed | cyclocalc/report/report_generator.py:319-394 | Every ranked file has a function or a smell. |
| ReportGenerator.RankEntryFacts | cyclocalc/report/report_generator.py:371-388 | A row holds:<br>- the file and its anchor;<br>- the function count;<br>- high plus medium equal to its smells;<br>- maxima floored at 0;<br>- the complexity, length and nesting averages over the count, or over 1 when it is 0. |
| ReportGenerator.TopFunctions | cyclocalc/report/report_generator.py:416-418 | The top list is the first `top_n` of the stable sort on (cc, length), descending. It has `min(top_n, n)` entries, is sorted, draws from the input, and ranks no left-out function above a chosen one. |
| Visualizer.CcSlot | cyclocalc/report/visualizer.py:11-19 | The if-chain picks the counter whose label is the complexity's bucket. |
| Visualizer.LenSlot | cyclocalc/report/visualizer.py:37-45 | The if-chain picks the counter whose label is the length's bucket. |
| Visualizer.SlotsMonotone | cyclocalc/report/visualizer.py:11-19 | A larger value never lands in an earlier counter. |
| Visualizer.TallyStep | cyclocalc/report/visualizer.py:11-19 | One more function raises only its own bucket's counter, by one. |
| Visualizer.PlotCcDistribution | cyclocalc/report/visualizer.py:6-19 | The bar heights are the complexity bucket tallies and add up to the number of functions. |
| Visualizer.PlotLenDistribution | cyclocalc/report/visualizer.py:32-45 | The bar heights are the length bucket tallies and add up to the number of functions. |
| Visualizer.AggregateByFile | cyclocalc/report/visualizer.py:71-83 | The aggregation map has exactly the files of the functions, each with that file's sums, maxima and count. |
| Visualizer.HeatRows | cyclocalc/report/visualizer.py:86-103 | There is one heatmap row per file statistic. |
| Visualizer.BuildHeatRows | cyclocalc/report/visualizer.py:86-103 | The loop builds the rows with the `{"cnt": 1, ...}` default for files without functions. |
| Visualizer.HeatRowsAt | cyclocalc/report/visualizer.py:86-103 | Row i has:<br>- file i's name, comment ratio and docstring coverage;<br>- its functions' maxima, floored at 0;<br>- averages over `max(cnt, 1)`. |
| Visualizer.HeatRowWithoutFunctions | cyclocalc/report/visualizer.py:89-94 | A file without functions gets all-zero complexity, length and nesting columns. |
| Visualizer.HeatRowFile | cyclocalc/report/visualizer.py:86-103 | Row i names file i. |
| Visualizer.PlotFileHeatmap | cyclocalc/report/visualizer.py:59-110 | The drawn rows are the first `top_k` of the stable descending sort on `cc_max + len_max + nest_avg`. There are `min(top_k, files)` of them, sorted, drawn from the rows, and no left-out row ranks above a drawn one. |
| Visualizer.HeatmapFilesFromFileStats | cyclocalc/report/visualizer.py:86-107 | Every drawn row names a file from the file statistics. |
| StableSort.SortDescCorrect | cyclocalc/report/report_generator.py:390-393 | The sort with `reverse=True` is ordered by key and a permutation, and it is stable: for every key, the elements with that key keep their input order. |
| StableSort.SortDescending | cyclocalc/report/report_generator.py:390-393 | The insertion loop returns the stable descending sort, which is sorted and a permutation. |
| StableSort.Insert | cyclocalc/report/report_generator.py:390-393 | The scan places the element after every element whose key is at least its own. |
| StableSort.InsertDescPermutes | cyclocalc/report/report_generator.py:390-393 | Inserting adds exactly that one element. |
| StableSort.InsertDescSorted | cyclocalc/report/report_generator.py:390-393 | Inserting into a sorted sequence keeps it sorted. |
| StableSort.InsertDescStable | cyclocalc/report/report_generator.py:390-393 | The inserted element comes after all earlier elements with the same key. |
| StableSort.SortedPrefixDominates | cyclocalc/report/visualizer.py:106-107 | A prefix of a sorted sequence ranks at least as high as everything it leaves out. |
| StableSort.LexLessTransitive | cyclocalc/report/report_generator.py:391 | Tuple comparison is transitive. |
| StableSort.LexLessTotal | cyclocalc/report/report_generator.py:391 | Of two distinct tuples, one is smaller. |
| Python.Sorted | cyclocalc/analyzer/metrics.py:220 | `sorted` of a set returns exactly its elements, strictly increasing. |
| Python.Insert | cyclocalc/analyzer/metrics.py:220 | Inserting a new string into a strictly sorted list keeps it strictly sorted and adds exactly that string. |
| Python.LessTransitive | cyclocalc/analyzer/metrics.py:220 | String order is transitive. |
| Python.LessTotal | cyclocalc/analyzer/metrics.py:220 | Of two distinct strings, one is smaller. |
| Python.Take | cyclocalc/report/visualizer.py:107 | `s[:n]` is the first `min(n, len)` elements, and for negative `n` it drops the last `-n` elements. |
| Python.Slice | cyclocalc/report/report_generator.py:84 | `s[i:j]` with in-range bounds is the subsequence, and empty when `j <= i`. |
| Python.SliceBound | cyclocalc/report/report_generator.py:84 | A slice bound counts from the end when negative and is clamped to the length. |
| Python.RStripChar | cyclocalc/analyzer/metrics.py:99 | `rstrip("\n")` gives a prefix that does not end in a newline. |
| Python.Filter | cyclocalc/cli.py:59-97 | Filtering keeps exactly the matching elements, as many as match. |
| Python.CountWhereAll | cyclocalc/analyzer/metrics.py:88-92 | Everything is counted exactly when everything matches. |
| Python.CountWhereNone | cyclocalc/analyzer/metrics.py:88-92 | Nothing is counted exactly when nothing matches. |
| Ast.Walk | cyclocalc/analyzer/metrics.py:40 | The walk of a node starts with the node itself. |
| Ast.WalkTransitive | cyclocalc/analyzer/metrics.py:40 | A node of a subtree's walk is in the walk of the whole tree. |
| Ast.WellFormedSubtree | cyclocalc/cli.py:133-138 | Every node of a well-formed tree is well-formed, so `len(values) - 1` is never negative. |

## Left out

- File discovery (`get_python_files`, cli.py:12-41) is not modelled: it is filesystem I/O. `analyze` takes the list of files as input.
- Parsing (`parse_source_to_ast`, cli.py:44-56) is not modelled: it is a call into the Python parser. A file comes in already parsed, or marked as one the parser or decoder rejected (`Cli.SourceFile`).
- `analyze`'s other exceptions are not modelled.
- Printing, `--output` file writing, colours and exit codes are not modelled: they are I/O.
- Matplotlib drawing is not modelled: the histogram methods return the bar heights, and the heatmap method returns the drawn rows in order.
- `generate_html_report` is not modelled beyond the computations it calls. These are left out:
  - the HTML text and `html.escape`;
  - base64 image embedding;
  - `datetime.now()`;
  - the list comprehensions that split smells by level.
- `_preview_block` is not modelled.
- Python's `round(x, 2)` and `round(x, 3)` on reported averages are left out. Averages and ratios are exact reals.
- Smell, reason and naming messages are tags (`SmellKind`, `Reason`, `NamingIssue`) instead of their formatted (partly Chinese) texts. The `.2f` detail strings are left out too.
- `ast.walk` is breadth-first; `Ast.Walk` is pre-order. Counts, sets and sums do not depend on the order. Only the order of naming findings differs.
- `check_var_names` iterates a Python set, so its findings come in no defined order. `Metrics.CheckVarNames` states their count and membership, not their order.
- `Metrics.ArgNameIssues`: positional-only parameters are not checked, as in the source.
- Source text is taken as `source.splitlines()`, a sequence of lines: the line splitting itself is not modelled.
- `ReadFuncPreview`: its window is stated for `max_lines >= 0`, the only use passing 30. For a negative `max_lines` the body follows the Python slice but the contract says nothing.
- `ReadFuncPreview`: reading the file is an optional list of lines, with `None` standing for any read error.
- `ReportGenerator.PreviewWindow`: its window properties are stated for `max_lines >= 0`. For a negative `max_lines`, the slice counting from the end is defined but not characterised.
- Missing dictionary keys are not modelled: every statistic record has all fields. For `unused_imports_count`, read with default 0, the model's field holds that value.
- Python's Timsort is stated as a stable insertion sort on a sequence with the same stable result. Its run-merging strategy is not modelled.
- `Cli.FunctionVisitor`: the two lists that `list_functions` closes over are the visitor's fields.
