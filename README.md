# dbms_exporter recipe engine, modelled in Dafny

dbms_exporter is a Prometheus exporter for SQL databases. Its behaviour is
driven by *recipes*: each recipe names queries to run, and result maps that
say how each column of each returned resultset becomes a metric. This project
models the core of the exporter and proves properties of that model:

- `common.dfy` (module `Common`): the seven column usages and how their
  configuration spellings parse.
- `db.dfy` (module `Db`):
  - the scanned value types and their conversion to float64 and to label text;
  - the scanned resultset;
  - a connection (`ScriptedConn`) whose answers to queries are given by a
    script, and which records every query and every `Close`;
  - the driver registry (`Registry`).
- `recipes.dfy` (module `Recipes`): the recipe values and their two strategies.
  - A *simple* recipe runs its queries in order and concatenates the
    resultsets.
  - A *templated* recipe first runs a range query. For each value the range
    query returns, it renders every query template with that value and merges
    the answers into one accumulator per result map, by position.
  - In both strategies the methods that loop are proved equal to tail-recursive
    specification functions, and the lemmas are about those functions.
- `config.dfy` (module `Config`): the configuration compiler, from a decoded
  YAML document to recipes.
  - `getMetric`, `getMetrics`, `getResultSets`, `getRecipe` and `GetRecipes`
    are methods with the Go loops. Each is proved equal to a function over the
    entries in iteration order.
  - The lemmas state when compilation succeeds, which error is reported, and
    what a compiled recipe contains.
- `exporter.dfy` (module `Exporter`): the exporter itself.
  - `makeDescMap` and `makeDescMaps` build the per-namespace descriptor maps.
  - `convertDuration` and the other column conversions.
  - The `Exporter` class runs a scrape: it counts the scrape and opens or
    reuses the connection. It runs every recipe in order, sends one metric per
    convertible cell, and counts errors. On a failing recipe it closes and
    drops the held connection.
  - A Go runtime panic (an index out of range) sets the exporter's `crashed`
    flag and ends the scrape.
  - Every scrape method is proved equal to a specification function over a
    `Tally`: the metrics sent, the error count, and whether a panic occurred.
    Lemmas show that the metrics already sent are kept and that every metric
    sent is well formed.

Everything outside the language is passed in as a parameter, mostly as the
`Env` bundle in `foreign.dfy`: `strconv.ParseFloat`, regexp group matching,
`%v` of a float64, `time.ParseDuration`, template parsing and execution, and
the `%q` quoting of a string.
Floats are the abstract type `Float` (`Num(real)` or `NaN`). `wrappers.dfy`
holds `Option` and `Result`.

Templated results accumulate by resultset position within each execution,
not per template. A merge also replaces an accumulator's column list with the
latest execution's column names plus the range value. So when executions
return different column counts, some rows can be shorter than the column
list. The scrape's column loop indexes a row only for a column whose value it
converts. A DISCARD or LABEL column past the end of a row is skipped without
reading it. Any other column past the end is the index-out-of-range panic the
model records.

## Model

| member | source | states |
|---|---|---|
| Common.StringToColumnUsage | common/common.go:34-55 | exactly the seven upper-case spellings parse; the result's spelling is the input; anything else is the "wrong ColumnUsage given" error |
| Common.UsageRoundTrip | common/common.go:34-55 | every usage's spelling parses back to that usage |
| Common.UsageParseInjective | common/common.go:9-20 | two strings that parse to the same usage are equal, and no parsed usage has the unset code 0 |
| Common.CodesDistinct | common/common.go:9-20 | the usage codes are non-zero and tell the usages apart |
| Strings.ReplaceSpaces | config/recipes.go:197 | same length, each space becomes an underscore and every other character is kept, no space remains |
| Strings.DigitChar | db/db.go:205 | a digit below ten becomes the character of that digit |
| Strings.DigitsCorrect | db/db.go:205 | the decimal digits of n are non-empty digit characters that denote n |
| Strings.DecimalRoundTrip | db/db.go:205 | parsing the decimal text of any integer, negative ones included, gives that integer |
| Strings.DecimalTextInjective | config/recipes.go:136 | different integers have different decimal texts |
| Strings.StrLessIrreflexive | db/db.go:32 | the sort order never puts a name before itself |
| Strings.StrLessTotal | db/db.go:32 | of two different names, one comes first |
| Strings.StrLessTransitive | db/db.go:32 | the sort order is transitive |
| Strings.Insert | db/db.go:32 | inserting a new name into a strictly sorted list keeps it strictly sorted and adds exactly that name |
| Strings.InsertFrontSorted | db/db.go:32 | a name before the head of a sorted list can be put in front |
| Strings.InsertConsSorted | db/db.go:32 | the head stays in front of a sorted insertion into the tail |
| Db.BytesToString | db/db.go:178-180 | one character per byte, with the byte's value |
| Db.StringToFloat64 | db/db.go:148-162 | succeeds exactly when ParseFloat accepts the text (the first regexp group if it matches with one, else the string); on success the value is ParseFloat's; on failure NaN |
| Db.ToFloat64 | db/db.go:166-188 | nil is NaN and ok; an unknown type is NaN and not ok; any failure is NaN |
| Db.NumericToFloat64 | db/db.go:168-177 | integers, floats and times always convert, to their numeric value, and the regexp is ignored |
| Db.BytesLikeString | db/db.go:178-182 | a byte slice converts exactly like the string with those bytes |
| Db.RegexpGroupParsed | db/db.go:148-155 | with a regexp that matches with a group, the value is that of the group's text |
| Db.WholeStringParsed | db/db.go:148-161 | without a matching group the whole string goes to ParseFloat, and the result is ParseFloat's |
| Db.ToUnsignedFloat64 | db/db.go:190-199 | int32 and int64 are read modulo 2^32 and 2^64; every other value converts as ToFloat64 |
| Db.UnsignedAgreesOnNonNegative | db/db.go:190-199 | on non-negative integers the unsigned reading equals the signed one |
| Db.ToString | db/db.go:202-220 | fails exactly on int32, float32 and unknown types, giving ""; nil is ""; a string is itself; bytes give their characters; int64 and time give exactly their decimal text, without leading zeros, which parses back to the number; float64 gives its `%v` text |
| Db.ScriptedConn.constructor | db/db.go:66-69 | a new connection with the given script, nothing queried and nothing closed |
| Db.ScriptedConn.Query | db/db.go:120-126 | records the query and returns the script's answer for that call index |
| Db.ScriptedConn.Close | db/db.go:129-131 | counts one more close |
| Db.Registry.constructor | db/db.go:15-18 | an empty registry |
| Db.Registry.Register | db/db.go:39-49 | a nil driver and a taken name are refused and leave the table unchanged; otherwise exactly that name is added |
| Db.Registry.Drivers | db/db.go:25-34 | the registered names, each once, strictly ascending |
| Db.Registry.Open | db/db.go:133-139 | succeeds exactly for a registered name, passing its driver and the dsn; otherwise the error `sql: unknown driver` with the name `%q`-quoted, followed by `(forgotten import?)` |
| Recipes.NamedResultMap.ShouldSkip | recipes/recipes.go:25-27 | skip exactly when the result map is empty |
| Recipes.SimpleRunSucceeds | recipes/recipes.go:89-101 | when every query succeeds, all are issued in order and their resultsets concatenated in order |
| Recipes.SimpleRunStopsAtFailure | recipes/recipes.go:91-96 | the first failing query ends the run; it is the last query issued, and its error is returned |
| Recipes.SimpleRunFails | recipes/recipes.go:91-96 | a query that is not answered makes the run fail with a query error |
| Recipes.SimpleRunFromStart | recipes/recipes.go:89-101 | from the first query, the run either answers every query, issuing all of them and returning their resultsets concatenated, or fails with a query error |
| Recipes.SimpleOutcome | recipes/recipes.go:77-87 | succeeds exactly when every query is answered and the resultsets number as many as the result maps, and then returns them in query order; all answered with another count is the count-mismatch error with both counts; an unanswered query is a query error; when all are answered, every query is issued once, in order |
| Recipes.RunSimpleQueries | recipes/recipes.go:89-101 | the loop's result and query log are those of the specification, and nothing is closed |
| Recipes.RunSimple | recipes/recipes.go:77-87 | result and query log as specified, including the count-mismatch error, and nothing is closed |
| Recipes.RangeValues | recipes/recipes.go:116-142 | succeeds exactly on one resultset of one column with at least one row whose values all convert; then one label text per row, in order |
| Recipes.GetRange | recipes/recipes.go:116-142 | issues only the range query and returns RangeValues of its answer |
| Recipes.Extend | recipes/recipes.go:170-173 | every row gains the range value as its last value |
| Recipes.Merge | recipes/recipes.go:168-174 | merging keeps one accumulator per result map |
| Recipes.MergeMeaning | recipes/recipes.go:168-174 | accumulator i keeps its rows and gains, after them, each row of resultset i with the range value appended as a string; its column list becomes resultset i's plus the range value; accumulators without a resultset are unchanged |
| Recipes.TemplatedRunKeepsCount | recipes/recipes.go:152-180 | a successful run returns exactly one resultset per accumulator |
| Recipes.Pairs | recipes/recipes.go:156 | every template paired with the value, in declared order |
| Recipes.PlanFromRow | recipes/recipes.go:155-156 | the plan from a position is the rest of its row, then the following rows |
| Recipes.PlanFromValues | recipes/recipes.go:155-156 | the plan from the start of row vi is the plan of the remaining values |
| Recipes.PairsCons | recipes/recipes.go:156 | the pairs from template ti on start with template ti |
| Recipes.PlanFromStart | recipes/recipes.go:155-156 | the plan from the start covers every value and template |
| Recipes.PlanLength | recipes/recipes.go:155-156 | the plan has |values| * |templates| entries |
| Recipes.RenderedCons | recipes/recipes.go:157-161 | rendering a plan renders its head, then the rest, and fails if either fails |
| Recipes.TemplatedRunSqls | recipes/recipes.go:155-166 | a successful run issues exactly the rendered plan: every template for the first value, in declared order, then for the next value |
| Recipes.RenderFailureAborts | recipes/recipes.go:157-160 | a template that fails to render anywhere in the plan makes the run fail |
| Recipes.MergeTagged | recipes/recipes.go:168-174 | after a merge every row, and every written column list, still ends with a range value |
| Recipes.TemplatedRunTagsRows | recipes/recipes.go:152-180 | in a successful run every accumulated row ends with the range value of its execution |
| Recipes.TemplatedRunRowCounts | recipes/recipes.go:152-180 | when every answer from the current call on is shaped alike, accumulator i gains perRows[i] rows per remaining execution |
| Recipes.MergeRowCounts | recipes/recipes.go:168-174 | merging an answer shaped by perRows adds perRows[i] rows to accumulator i |
| Recipes.RangeFailureRunsNothing | recipes/recipes.go:144-148 | a failing range query is the only query issued, and its error is returned |
| Recipes.TemplatedOutcomeRowCounts | recipes/recipes.go:144-180 | whatever the range query answers, when every template execution after it answers resultset i with perRows[i] rows, a successful run has perRows[i] * |values| * |templates| rows in accumulator i |
| Recipes.TemplatedOutcomeCount | recipes/recipes.go:144-154 | a successful templated run yields exactly one resultset per result map |
| Recipes.RunTemplatedQueries | recipes/recipes.go:152-180 | the array-based loop's result and query log are those of TemplatedRun from empty accumulators |
| Recipes.MergeInto | recipes/recipes.go:168-174 | the accumulator array afterwards is Merge of its old contents |
| Recipes.RunTemplated | recipes/recipes.go:144-150 | result and query log as TemplatedOutcome states, and nothing is closed |
| Recipes.Run | recipes/recipes.go:38-49 | dispatches to the recipe's strategy: result and query log as RunOutcome states, and nothing is closed |
| Config.GetMetric | config/recipes.go:179-246 | the Go loops compute CompileMetric |
| Config.ScanAttrsMeaning | config/recipes.go:203-230 | the attribute loop succeeds exactly when every attribute is acceptable; then each field holds the last value given for its key |
| Config.LastFromAttrOk | config/recipes.go:203-219 | among acceptable attributes, the value kept for any key is a string, and a kept usage parses |
| Config.CompileMetricMeaning | config/recipes.go:179-246 | getMetric succeeds exactly on a single-entry map from a name to acceptable attributes with a usage, a description unless DISCARD or LABEL, and a value if FIXED; then the name has spaces replaced, the fields are the last values given, and there is no mapping |
| Config.CompiledMetricValid | config/recipes.go:231-242 | a compiled metric's name has no space, it has no mapping, a description unless DISCARD or LABEL, and a value if FIXED |
| Config.GetMetrics | config/recipes.go:161-177 | the Go loop computes CompileMetrics |
| Config.MetricsFromOutcome | config/recipes.go:168-175 | succeeds exactly when every item compiles; otherwise the first failing item's error, at its 1-based position |
| Config.MetricsFromNames | config/recipes.go:168-175 | on success the names are exactly those already present plus the compiled names |
| Config.MetricsFromKeeps | config/recipes.go:174 | a name no later item uses keeps its mapping |
| Config.MetricsFromLastWins | config/recipes.go:168-175 | for items sharing a name, the last one's mapping is kept |
| Config.GetResultSets | config/recipes.go:248-284 | the Go loop computes CompileResultSets |
| Config.ResultSetsFromOutcome | config/recipes.go:255-282 | succeeds exactly when every resultset compiles; otherwise the first failing one's error |
| Config.ResultSetsFromOrder | config/recipes.go:255-282 | on success one result map per resultset, in list order, after those already present |
| Config.DiscardResultSet | config/recipes.go:268-272 | "discard" is accepted exactly with a null value, and gives an empty map that is always skipped; otherwise the DiscardWithMetrics error at its index |
| Config.NamedResultSet | config/recipes.go:273-280 | any other name succeeds exactly when its metrics compile, and is kept under that name; otherwise the error names the index and the name |
| Config.GetRecipe | config/recipes.go:48-159 | the Go loops compute CompileRecipe |
| Config.QueryListAppends | config/recipes.go:85-91 | the queries loop appends to what was there, and its outcome does not depend on it |
| Config.QueryListMeaning | config/recipes.go:80-91 | succeeds exactly when every item is a string, giving the texts in order; otherwise the first non-string item, at its 1-based position |
| Config.ApplyKeyEffect | config/recipes.go:67-108 | whether a key is accepted, and its error, do not depend on earlier keys; each key sets only its own local, and queries are appended |
| Config.ScanRecipeOutcome | config/recipes.go:61-110 | the key loop succeeds exactly when every entry is acceptable; otherwise the first unacceptable entry's error |
| Config.LastFromIn | config/recipes.go:61-110 | a kept value is the value of some entry with that key |
| Config.LastFromNone | config/recipes.go:61-110 | no value is kept for a key exactly when no entry has it |
| Config.LastValueAccepted | config/recipes.go:67-105 | among acceptable entries, the kept value is accepted for its key |
| Config.LastStrStep | config/recipes.go:68-78 | one step of the key loop keeps query and rangeover as the last value given |
| Config.LastMetricsStep | config/recipes.go:93-98 | one step of the key loop keeps the metrics as the last value given |
| Config.LastResultSetsStep | config/recipes.go:100-105 | one step of the key loop keeps the resultsets as the last value given |
| Config.LocalsFromStep | config/recipes.go:61-110 | an acceptable entry is applied, and the loop goes on from its result |
| Config.ScanRecipeLocals | config/recipes.go:61-110 | when every entry is acceptable, the locals after the loop are the last value of each key, with all queries lists concatenated |
| Config.CompileRecipeMeaning | config/recipes.go:48-159 | getRecipe fails with the first unacceptable entry's error; otherwise it finishes from the last value of each key |
| Config.CompileTemplatesOutcome | config/recipes.go:133-141 | the template loop succeeds exactly when every query parses; otherwise it reports the first that does not, by 0-based index |
| Config.CompileTemplatesOrder | config/recipes.go:133-141 | on success template k is named recipe + k and holds query k, in order |
| Config.RecipeResultMapChoice | config/recipes.go:112-118 | no metrics and no (or an empty list of) resultsets fails; both given fails; each exactly so |
| Config.EmptyResultSetsCountAsAbsent | config/recipes.go:100-114 | an empty resultsets list and no metrics key fail with "no resultsets/metrics specified" |
| Config.FinishRecipeShape | config/recipes.go:112-157 | a finished recipe is in namespace prefix_name, carries the chosen result maps, runs the defaulted queries, and is templated exactly when rangeover is non-empty |
| Config.CompiledRecipeShape | config/recipes.go:112-157 | the same, stated through the recipe's entries: the last rangeover, the defaulted queries ("select * from name" when none is given), template k named name + k |
| Config.MetricsShorthand | config/recipes.go:126-131 | the metrics key gives exactly one result map, named "metrics" |
| Config.TemplateParseFailure | config/recipes.go:133-139 | with a rangeover, the first defaulted query that does not parse fails the recipe with its index |
| Config.FinishTemplateFailure | config/recipes.go:133-139 | after the key loop, the first query that does not parse fails the templated recipe with its index |
| Config.TemplateNamesDistinct | config/recipes.go:136 | the template names of one recipe are pairwise different |
| Config.GetRecipes | config/recipes.go:28-46 | succeeds exactly when every recipe compiles, giving them in document order; otherwise the first failing recipe's error under its name |
| Config.SimpleQueryRecipe | config/recipes_test.go:56-70 | the one-query, one-DISCARD-metric recipe compiles to a simple recipe in namespace test_recipe2, with a single "metrics" map and that query |
| Exporter.ConstLabels | dbms_exporter.go:88-97 | the constant labels are exactly the FIXED columns, with their fixed values |
| Exporter.LabelColumns | dbms_exporter.go:88-97 | the variable labels are exactly the LABEL columns, each once, and the constant labels are ConstLabels |
| Exporter.MakeDescMap | dbms_exporter.go:85-154 | the namespace it builds describes the result map: the LABEL columns as labels, and one entry per non-FIXED column as the usage switch says |
| Exporter.DescribedColumn | dbms_exporter.go:103-151 | a column has an entry exactly when it is not FIXED; DISCARD and LABEL are discarded; the others carry the recipe's labels and a desc named metric_column (DURATION: _milliseconds) |
| Exporter.Milliseconds | dbms_exporter.go:176 | division by a millisecond truncates toward zero, also for negative durations |
| Exporter.ConvertDuration | dbms_exporter.go:156-177 | succeeds exactly on a string or byte value other than "-1" that ParseDuration accepts; failure is NaN |
| Exporter.DurationMilliseconds | dbms_exporter.go:172-176 | on success the value is the parsed duration in whole milliseconds |
| Exporter.MappedConversion | dbms_exporter.go:131-142 | succeeds exactly on a string that the mapping holds, giving its value; with no mapping it always fails |
| Exporter.TargetsOfMembers | dbms_exporter.go:186-195 | a recipe's targets are exactly its non-discard result maps, each under namespace or namespace_name ("metrics" adds nothing) |
| Exporter.AssignedLast | dbms_exporter.go:180-200 | the keys are exactly the target names, and a name's last target is the one kept |
| Exporter.AssignedSnoc | dbms_exporter.go:195 | one more target overwrites its name |
| Exporter.TargetsOfSnoc | dbms_exporter.go:186-195 | one more result map adds its target, unless it is "discard" |
| Exporter.StoreStep | dbms_exporter.go:195 | storing one more target is an overwrite of its name |
| Exporter.StoreRecipe | dbms_exporter.go:186-196 | after one recipe's result maps, the map describes every target so far, the last of each name |
| Exporter.MakeDescMaps | dbms_exporter.go:180-200 | every key is a target name, and its namespace describes the last result map stored under that name |
| Exporter.DescribedWellFormed | dbms_exporter.go:99-153 | every metric entry of a built namespace is a counter or gauge and carries the namespace's label list |
| Exporter.DescMapsWellFormed | dbms_exporter.go:180-200 | every namespace of a built descriptor map is well formed |
| Exporter.ColumnIndexMeaning | dbms_exporter.go:351-354 | a column name maps to the last position it has; a missing name reads as position 0 |
| Exporter.LabelValues | dbms_exporter.go:358-362 | label values exist exactly when every label's column index is inside the row, one per label |
| Exporter.LabelValueSource | dbms_exporter.go:360-362 | each label value is the text of the row's value at the label's column, or at position 0 for a missing column |
| Exporter.KeepsTransitive | dbms_exporter.go:349-401 | keeping what was sent composes across steps |
| Exporter.CellStepKeeps | dbms_exporter.go:367-399 | one cell keeps what was sent and sends only a sound metric |
| Exporter.CellsFromKeeps | dbms_exporter.go:367-399 | so does a row |
| Exporter.RowsFromKeeps | dbms_exporter.go:356-400 | and a resultset |
| Exporter.SetsFromKeeps | dbms_exporter.go:333-346 | and all resultsets of a recipe |
| Exporter.RecipeStepKeeps | dbms_exporter.go:316-347 | and a recipe, failed or not |
| Exporter.RecipesFromKeeps | dbms_exporter.go:429-431 | and every recipe of a scrape |
| Exporter.RecipesFromCloseOnce | dbms_exporter.go:323-330 | the held connection is closed at most once per scrape, only when a recipe fails, and is not taken up again |
| Exporter.RecipeFailureIsolated | dbms_exporter.go:320-331 | a failed recipe counts exactly one error, sends nothing, drops and closes the held connection, and the scrape goes on with the next recipe |
| Exporter.RunMatchesResultMaps | dbms_exporter.go:333-336 | a recipe that runs returns one resultset per result map, so rms[i] is always in range |
| Exporter.MappedWithoutMappingFails | dbms_exporter.go:127-142 | a MAPPEDMETRIC column with no mapping, as every compiled one is, never converts |
| Exporter.UnmappedColumnNoError | dbms_exporter.go:384-398 | an unmapped column never counts an error; with a cell in the row, it sends an untyped metric without labels exactly when the value converts; without one it panics |
| Exporter.DescribedCellStep | dbms_exporter.go:367-383 | for a column the result map configures: DISCARD and LABEL change nothing, without reading the cell; FIXED is read as an unknown column; any other panics when the row has no such cell, counts one error and sends nothing when the value does not convert by its usage, and otherwise sends one metric named metric_column (DURATION: _milliseconds), counter for COUNTER and gauge otherwise, with the column's help, the namespace's labels, the fixed labels and the row's label values |
| Exporter.Exporter.constructor | dbms_exporter.go:224-263 | keeps the configuration, builds the descriptor maps of the recipes, which are well formed, and starts with no connection, no metrics and zero counts |
| Exporter.Exporter.RowLabels | dbms_exporter.go:358-362 | the label values of a row, or none when a label's column is outside the row |
| Exporter.Exporter.EmitRow | dbms_exporter.go:367-399 | the tally after one row is CellsFrom of the tally before: each cell as CellStep says, the row ending at a panic |
| Exporter.Exporter.ScrapeResultSet | dbms_exporter.go:349-401 | the tally after a resultset is ResultSetTally of the tally before |
| Exporter.Exporter.ScrapeResultSets | dbms_exporter.go:333-346 | the tally after a recipe's resultsets is SetsFrom of the tally before |
| Exporter.Exporter.ScrapeRecipe | dbms_exporter.go:316-347 | tally, query log, held connection and close count after a recipe are RecipeStep of those before |
| Exporter.Exporter.ScrapeRecipes | dbms_exporter.go:429-431 | the same for every recipe in order; what was sent is kept and every new metric is sound |
| Exporter.Exporter.Scrape | dbms_exporter.go:403-432 | counts the scrape; a failed open counts one error and nothing else; otherwise every recipe runs on the one connection, a non-persistent one is closed at the end, a persistent one is held unless a recipe failed; what was sent is kept |

## Left out

- postgres_exporter.go is not part of this model: it is a separate exporter.
- Describe, Collect, Start and the scrape channel are left out. Concurrency and
  channels are not modelled; a scrape appends to an output sequence instead.
- main: flags, the HTTP endpoint and the reading of the recipes file are I/O.
- The timing metrics (last scrape duration, open seconds, query seconds) are
  left out: clocks are not modelled.
- yaml.Unmarshal is left out. GetRecipes takes the decoded document, a `Yaml`
  value, and YAML parse errors are not modelled.
- strconv.ParseFloat, regexp matching, `%v` of a float64, time.ParseDuration,
  and template parsing and execution are parameters (`Env`).
- regexp.MustCompile's panic on a bad regexp is not modelled, because regexps
  are abstract values.
- Floating-point rounding is not modelled. Numbers are reals, so int64-to-float64
  and float32-to-float64 are exact here.
- The driver adapters (database/sql, FreeTDS, ODBC, Postgres) and the scanning
  of driver rows are left out. A connection answers with already scanned,
  rectangular resultsets, and a driver's own open errors are the `dialed == null`
  case of Scrape.
- The registry mutex is left out, since concurrency is not modelled.
- Register panics in the source; here it returns the panic as an error value.
- DumpMaps and all logging are left out: output for humans only.
- Go map iteration order is left out. Entries are processed in sequence
  order, so where several entries are invalid, the one reported is the first in
  that order.
- Prometheus' validation of metric and label names is left out, and so are
  the errors of NewDesc and MustNewConstMetric; `Sound` states the arity
  conditions instead.
- Exporter.Exporter.ScrapeResultSet: it takes no result map, because scrapeResultSet never reads its
  rm parameter.
- Exporter.MakeDescMap: each MAPPEDMETRIC conversion uses its own column's
  mapping. The Go closure captures the loop variable, but every compiled
  mapping is nil, so the two cannot be told apart.
- Exporter.Exporter.Scrape: the deferred Close of a non-persistent connection
  is modelled as a call after the recipe loop. It is made after a panic too,
  as Go runs deferred calls while a panic unwinds. What happens to the
  goroutine and the program after the panic is not modelled: the `crashed`
  flag records it and the scrape ends.
- Db.BytesToString: Go's string conversion of a []byte keeps the bytes and
  reads them as UTF-8 text. Here each byte is one character, so a cell holding
  multi-byte UTF-8 text as bytes does not give the same characters as the same
  text scanned as a string. Unicode decoding is not modelled.
- Db.Registry.Open: what the found driver does with the dsn is not modelled; Open
  returns the driver and dsn to be opened.
