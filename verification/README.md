# E-commerce analytics pipeline: a Dafny model of its orchestration rules

The repository drives a four-layer Snowflake warehouse (Bronze → Silver →
Gold → Mart) from a handful of Python scripts. Each script connects, runs
SQL files or inline statements, prints counts and disconnects. The SQL
and the warehouse are opaque to the scripts. What the scripts decide for
themselves is small and exact, and this project models it:

- **Bronze Setup** (`BronzeSetup`, `SqlScript`, `Config`). A SQL file is
  split on every `;`, each piece is stripped, and only the non-empty pieces
  are executed, in order. The setup runs the infrastructure file and then
  the six table files in a fixed order. Its connection needs `user`,
  `password` and `account`, and falls back to `DE_WH` and
  `ECOMMERCE_ANALYTICS` for the warehouse and database. The first file that
  cannot be read, or that has a statement the warehouse rejects, ends the
  script with exit code 1: nothing after that statement is sent.
- **Labels** (`Labels`, `Text`). The Silver, Gold and Mart scripts print a
  label for each SQL file before running it. The label is the basename,
  minus every `.sql`, after the first `_`, upper-cased. It is undefined
  (Python raises `IndexError`) when the basename has no `_`.
- **Layer scripts** (`Transform`, `Silver`, `Gold`, `Mart`). All three share
  one shape: connect (six keys required), build every file of a fixed list
  in order, then count a fixed list of tables or views. The labels of each
  file list line up with the names counted or listed afterwards.
- **Silver quality summary** (`Quality`, `SilverScript`). This is the
  arithmetic over the counts the Silver script queries:
  - the total of the six table counts;
  - the orphan verdict;
  - the issue total;
  - the quality score and the payment success rate, each guarded against
    division by zero.

  It also covers the final average-delivery query. When that query returns
  NULL, formatting it raises `TypeError` inside the `try`, so the Silver
  script fails after printing its whole summary.
- **Bronze Load** (`BronzeLoad`):
  - one PUT per `.csv` entry of the data directory;
  - then one COPY per table of `TABLE_COLUMNS`, with the comma-joined
    column list and the pattern `.*<lower(table)>.*`.

  No table's lower-case name occurs in another's, so a file named after one
  table is selected by that table's pattern only. Errors inside the `try`
  are printed and swallowed: the script exits with 0 once it has connected.
- **Pipeline runner** (`Pipeline`, `FailFast`). The runner launches Bronze
  Load, Silver, Gold and Mart in that order. The first stage that does not
  exit with 0 ends the runner with exit code 1. The completion banner is
  printed only when all four stages exit with 0.

The warehouse, the file system and the subprocess launcher become
parameters:
- file reads are a `Reader` (`None` where `open` fails);
- query results are counts given as inputs;
- the acceptance of each Bronze Setup statement and each Bronze Load
  directive is a predicate;
- each script's exit status is a `Launcher`.

Three behaviours of the code are easy to miss, and the model keeps each:
- The runner has no setup stage. `python/run_pipeline.py:28-31` launches
  only the four scripts above, so Bronze Setup is modelled on its own.
- A failing PUT or COPY does not fail Bronze Load.
  `python/bronze_load.py:68-70` catches the exception, prints it and does
  not re-raise it. The script exits with 0 and the runner goes on to
  Silver.
- A missing configuration key fails Bronze Load before anything is sent.
  `python/bronze_load.py:20-28` reads every key with `cfg[...]` while
  building the connection arguments. A missing key raises `KeyError` there,
  before the `try`, so the script exits with 1.

## Model

| member | source | states |
|---|---|---|
| Text.Strip | python/bronze_setup.py:15 | the result has no leading or trailing whitespace, holds only characters of the input, and is empty exactly when the input is all whitespace |
| Text.StripPadded | python/bronze_setup.py:15 | stripping removes exactly the whitespace padding around an already-stripped text |
| Text.Split | python/bronze_setup.py:14 | the pieces hold no separator, there is at least one, and joining them with the separator gives back the input |
| Text.SplitJoin | python/bronze_setup.py:14 | splitting a separator-free list joined with the separator gives back that list |
| Text.SplitConcat | python/bronze_setup.py:14 | splitting `a;b` gives the pieces of `a` followed by those of `b` |
| Text.Basename | python/silver_transform.py:32 | the basename is the suffix of the path after the last `/`, and holds no `/` |
| Text.RemoveAll | python/silver_transform.py:32 | removing every occurrence of a pattern keeps every character outside the pattern present or absent as before |
| Text.RemoveAllAbsent | python/silver_transform.py:32 | text that does not contain the pattern is left unchanged |
| Text.RemoveAllHit | python/silver_transform.py:32 | an occurrence at the front is dropped and removal goes on after it |
| Text.RemoveAllKeep | python/silver_transform.py:32 | a first character at which the pattern does not occur, near misses included, is kept and the scan resumes at the next one |
| Text.RemoveAllFirst | python/silver_transform.py:32 | in `x + pat + y`, where `x` holds no first character of the pattern, `x` is kept, the occurrence is dropped and removal goes on in `y` |
| Text.RemoveAllSuffix | python/silver_transform.py:32 | removing `.sql` from `x.sql`, where `x` holds no `.`, gives `x` |
| Text.AfterFirst | python/silver_transform.py:32 | the text after the first `_`: defined exactly when there is one, it is a suffix, the character before it is the `_`, and no earlier character is |
| Text.Upper | python/silver_transform.py:32 | upper-casing keeps the length, maps each character on its own, and leaves no lower-case letter |
| Text.Lower | python/bronze_load.py:51 | lower-casing keeps the length, maps each character on its own, and leaves no upper-case letter |
| Text.JoinCons | python/bronze_load.py:50 | joining `[x] + xs`, with `xs` non-empty, gives `x`, the separator, then the join of `xs` |
| Text.EndsWith | python/bronze_load.py:39 | a text ending with a suffix is some prefix followed by that suffix |
| Text.EndsWithAppend | python/bronze_load.py:39 | every text followed by a suffix ends with that suffix |
| Text.AfterFirstOf | python/silver_transform.py:32 | only the first `_` splits: for `a_b` with no `_` in `a` the remainder is all of `b` |
| SqlScript.Statements | python/bronze_setup.py:14-16 | every executed statement is non-empty, stripped and free of `;` |
| SqlScript.ExecuteSqlFile | python/bronze_setup.py:10-17 | the split-strip-skip loop executes exactly the statements of the text, in order |
| SqlScript.StatementsConcat | python/bronze_setup.py:14-17 | the statements of `a;b` are those of `a` followed by those of `b`, so text order is execution order |
| SqlScript.StatementsEmptyIffBlank | python/bronze_setup.py:14-17 | nothing is executed exactly when the text is only `;` and whitespace |
| SqlScript.SingleStatement | python/bronze_setup.py:14-17 | text with no `;` and some non-whitespace executes exactly its stripped self |
| SqlScript.TrailingBlankSkipped | python/bronze_setup.py:14-17 | a whitespace-only piece after a trailing `;` adds no statement |
| SqlScript.BlankSegmentSkipped | python/bronze_setup.py:14-17 | a whitespace-only piece between two `;` adds no statement |
| Config.FirstMissing | python/bronze_setup.py:22-25 | the first key of the list that is missing, and none exactly when all are present |
| Config.SetupConnection | python/bronze_setup.py:22-29 | the connection exists exactly when `user`, `password` and `account` are present; a failure names a missing required key, `user` first; warehouse and database default to `DE_WH` and `ECOMMERCE_ANALYTICS`; no role; schema BRONZE |
| Config.SetupOptionalKeys | python/bronze_setup.py:22-29 | removing one key from a complete configuration breaks the setup connection exactly when the key is one of the three required ones |
| Config.ScriptConnection | python/silver_transform.py:8-16 | the connection exists exactly when all six keys are present, a failure names a missing one, and a success carries the six values and the given schema |
| BronzeSetup.RunOf | python/bronze_setup.py:10-17 | an unreadable file sends nothing; otherwise the statements sent are a prefix of the file's statements, every one but the last was accepted, and either all were sent or the last one was rejected |
| BronzeSetup.CleanSendsAll | python/bronze_setup.py:12-17 | a readable file whose statements are all accepted sends every one of them |
| BronzeSetup.RunTasks | python/bronze_setup.py:53-58 | the file loop runs a prefix of the tasks; it finishes exactly when every file was read and every statement accepted, and otherwise stops at the first file that could not be read or had a statement rejected |
| BronzeSetup.ExecutedWellFormed | python/bronze_setup.py:14-16 | every statement executed over a run of files is non-empty, stripped and free of `;` |
| BronzeSetup.Setup | python/bronze_setup.py:19-67 | a missing required key runs nothing and exits 1; otherwise the tasks run in order, the exit code is 0 exactly when every file was read and every statement accepted, and otherwise it is 1 and the last file run is the one that failed |
| BronzeSetup.SetupOrder | python/bronze_setup.py:37-58 | the files run in task order, infrastructure first, then CUSTOMERS, PRODUCTS, ORDERS, ORDER_ITEMS, PAYMENTS and SHIPMENTS |
| BronzeSetup.TableOrder | python/bronze_setup.py:37-51 | the task list is the infrastructure file followed by the six table files, described CUSTOMERS, PRODUCTS, ORDERS, ORDER_ITEMS, PAYMENTS and SHIPMENTS |
| BronzeSetup.SetupCompletes | python/bronze_setup.py:33-60 | with the required keys, every file readable and every statement accepted, all seven files run, in order, with all the statements of each file, and the script exits 0 |
| BronzeSetup.FirstUncleanStops | python/bronze_setup.py:53-64 | when file k is the first that cannot be read or has a rejected statement, exactly k + 1 files run and the script exits 1 |
| BronzeSetup.RejectionStopsSetup | python/bronze_setup.py:53-64 | a rejected statement j of file k, after clean files and accepted statements, is the last one sent: nothing later runs and the script exits 1 |
| BronzeSetup.UnreadableStopsSetup | python/bronze_setup.py:53-64 | an unreadable file k, after clean files, sends nothing, nothing later runs and the script exits 1 |
| BronzeSetup.SetupStatementsWellFormed | python/bronze_setup.py:37-58 | no statement the setup executes is empty, padded or holds a `;` |
| Labels.Label | python/silver_transform.py:32 | a label exists exactly when the stem has an `_`; it is the upper-cased rest after the first `_` |
| Labels.LabelDefinedIff | python/silver_transform.py:32 | a label exists exactly when the basename has an `_` |
| Labels.LabelIsUpperName | python/silver_transform.py:32 | a label holds no lower-case letter and no `/` |
| Labels.LabelOfScriptName | python/silver_transform.py:32 | the label of `NN_name.sql` is `name` upper-cased, later underscores kept |
| Labels.LabelIgnoresDirectory | python/gold_transform.py:35 | the directory part of a path does not change its label |
| Labels.LabelAll | python/mart_transform.py:34-36 | labels for a whole file list exist exactly when each file has one, and they are those labels in file order |
| Labels.LabelOfPath | python/mart_transform.py:35 | the label of `dir/NN_name.sql` is `name` upper-cased |
| Labels.LabelAllScriptPaths | python/mart_transform.py:34-36 | the labels of a list of well-formed script paths are their names upper-cased, in order |
| Labels.LabelsOfScripts | python/gold_transform.py:34-36 | script names checked against a list of table names label to exactly that list |
| Transform.BuildAll | python/silver_transform.py:31-35 | the file loop builds a prefix of the files, each with its label and text; it finishes exactly when all were built, and otherwise stops at the first file without a label or text |
| Transform.BuildAllCompletes | python/silver_transform.py:31-35 | with every file labelled and readable the loop finishes |
| Transform.Counts | python/gold_transform.py:44-47 | one count per listed table, in list order |
| Transform.Layer | python/gold_transform.py:34-53 | a layer succeeds exactly when its file loop does; it then runs every file and then one count per summary table; a failed layer has counted nothing, its steps are the builds of the files before the failing one, and that file has no label or no text |
| Transform.FirstMissingStopsLayer | python/silver_transform.py:31-35 | when file k is the first without a label or a text, the layer fails after building exactly the k files before it, each under its label and with its text |
| Transform.LayerCompletes | python/mart_transform.py:34-38 | with every file labelled and readable, the layer succeeds and each file is built under its own label |
| Transform.LayerBuildsThenCounts | python/gold_transform.py:34-53 | with the given labels and every file readable, the steps are exactly the builds in file order followed by the counts in summary order |
| Transform.UncountedTable | python/silver_transform.py:39-45 | a table outside the summary list is never counted |
| Transform.Script | python/gold_transform.py:8-61 | a missing key runs nothing and exits 1; otherwise the layer runs, and the exit code is 0 exactly when it succeeded |
| Silver.SilverLabels | python/silver_transform.py:21-33 | the seven Silver files label to the six counted tables followed by EXCHANGE_RATES |
| Silver.SilverRunBuildsThenCounts | python/silver_transform.py:21-45 | with every file readable, the seven files are built in order under their labels and then the six tables are counted |
| Silver.ExchangeRatesNotListed | python/silver_transform.py:39 | EXCHANGE_RATES is not among the counted tables |
| Silver.ExchangeRatesNotCounted | python/silver_transform.py:28-45 | the exchange-rate table is built but never counted |
| Gold.GoldLabels | python/gold_transform.py:24-36 | the seven Gold files label to the three dimensions followed by the four facts, `DIM_DATE` first |
| Gold.GoldTablesDistinct | python/gold_transform.py:44-50 | no summary table is listed twice |
| Gold.GoldRunBuildsThenCounts | python/gold_transform.py:24-53 | with every file readable, the files are built in order under their labels, then each dimension and fact is counted once, dimensions first |
| Mart.MartLabels | python/mart_transform.py:24-51 | the seven Mart files label to exactly the printed view list, in order, `CUSTOMER_LIFETIME_VALUE` third |
| Mart.SamplesAreViews | python/mart_transform.py:43-68 | the sample metrics are the first, third and fourth views |
| Mart.MartRunBuildsThenSamples | python/mart_transform.py:24-68 | with every file readable, the views are created in order and then DAILY_REVENUE, CUSTOMER_LIFETIME_VALUE and PRODUCT_PERFORMANCE are counted, in that order |
| Quality.SumRowsSnoc | python/silver_transform.py:41-44 | adding one more table adds its count to the total |
| Quality.TotalRecords | python/silver_transform.py:40-44 | the running total equals the sum of the listed tables' counts |
| Quality.SumRowsOnlyListed | python/silver_transform.py:41-44 | the total depends only on the counts of the listed tables |
| Quality.TotalRecordsOfSilver | python/silver_transform.py:39-45 | `total_records` is the sum of the six entity-table counts |
| Quality.TotalRecordsIgnoresExchangeRates | python/silver_transform.py:28-44 | the exchange-rate table's count never changes `total_records` |
| Quality.TotalOrphaned | python/silver_transform.py:63 | the orphan total is zero exactly when all four orphan counts are, and bounds each of them |
| Quality.OrphansCountEachFlag | python/silver_transform.py:63 | each of the four orphan counters adds to the orphan total one for one, and the five other counters never change it |
| Quality.IntegrityStatus | python/silver_transform.py:64 | PASS exactly when there are no orphans, otherwise FAIL with the positive orphan total |
| Quality.TotalIssues | python/silver_transform.py:80 | the issue total is zero exactly when the orphans, illogical dates, missing emails, invalid prices and invalid quantities all are, and it bounds the orphan total |
| Quality.IssuesIgnoreMissingDeliveryDates | python/silver_transform.py:77-80 | missing delivery dates are queried but never change the issue total |
| Quality.IssuesCountEachFlag | python/silver_transform.py:80 | each of the other eight counters adds to the issue total one for one |
| Quality.QualityScore | python/silver_transform.py:81 | 0 without records; otherwise score × records = (records − issues) × 100, so it is 100 exactly when there are no issues and negative exactly when issues exceed records |
| Quality.QualityScoreExamples | python/silver_transform.py:81 | 95 for 5 issues in 100 records, −100 for 20 in 10, 0 for no records |
| Quality.SuccessRate | python/silver_transform.py:89 | 0 without payments; otherwise rate × total = (total − failed) × 100, within [0, 100] when 0 ≤ failed ≤ total; undefined only for a NULL failure sum with payments present |
| Quality.SuccessRateExamples | python/silver_transform.py:89 | 80 for 2 failures in 10 payments, 0 for no payments |
| Quality.CountFailed | python/silver_transform.py:87 | the number of FAILED payments is at most the number of payments |
| Quality.CountFailedConcat | python/silver_transform.py:87 | the FAILED count of two runs of rows is the sum of their counts |
| Quality.CountFailedOne | python/silver_transform.py:87 | a single row counts 1 exactly when its status is FAILED, and 0 otherwise |
| Quality.PaymentQuery | python/silver_transform.py:87-88 | the row count, and a failure sum that is NULL exactly when there are no rows and otherwise counts the FAILED rows |
| Quality.SuccessRateOfPayments | python/silver_transform.py:87-89 | for any payment rows the rate is defined and lies in [0, 100] |
| Quality.Summarize | python/silver_transform.py:37-90 | the summary carries the six-table total, the integrity verdict of the flags, the issue total, the quality score of those two, and the success rate of the payment rows' count and FAILED count, which lies in [0, 100] |
| SilverScript.KnownDays | python/silver_transform.py:92 | the non-NULL delivery times: none exactly when every row is NULL |
| SilverScript.KnownDaysMembers | python/silver_transform.py:92 | a value is among the known days exactly when some row holds it as a non-NULL delivery time |
| SilverScript.AvgDelivery | python/silver_transform.py:92-93 | NULL exactly when no shipment has a delivery time; otherwise average × count = sum of the known times |
| SilverScript.RunSilver | python/silver_transform.py:20-102 | the file loop and counts are those of the layer shape; the summary is printed exactly when they succeed; the script exits 0 exactly when it got that far and the average is not NULL, otherwise 1 |
| SilverScript.NoDeliveryTimesFails | python/silver_transform.py:92-102 | with every file in place but no delivery time, the whole summary is printed and the script still exits 1 |
| BronzeLoad.IsCsv | python/bronze_load.py:39 | a `.csv` entry is some stem followed by `.csv` |
| BronzeLoad.CsvOfStem | python/bronze_load.py:39 | every stem followed by `.csv` is a `.csv` entry |
| BronzeLoad.Uploads | python/bronze_load.py:38-46 | exactly the `.csv` entries of the listing become PUTs, and nothing else does |
| BronzeLoad.UploadsConcat | python/bronze_load.py:38-39 | PUTs follow listing order |
| BronzeLoad.UploadsSkip | python/bronze_load.py:39 | an entry that is not a `.csv` file adds no PUT |
| BronzeLoad.Copies | python/bronze_load.py:49-64 | one COPY per table spec, in declaration order |
| BronzeLoad.ColumnList | python/bronze_load.py:50 | splitting the column list on `,` and stripping each piece gives back the declared columns, in order |
| BronzeLoad.Pattern | python/bronze_load.py:51 | the pattern is the lower-cased table name between a leading and a trailing `.*`, so four characters longer than the name and free of upper-case letters |
| BronzeLoad.Selects | python/bronze_load.py:51-57 | a file selected by a table's pattern is at least as long as the table name |
| BronzeLoad.SelectsMention | python/bronze_load.py:51-57 | every file name that contains a table's lower-case name is selected by its pattern |
| BronzeLoad.PlanShape | python/bronze_load.py:36-64 | all PUTs come before all COPYs, and the COPYs are one per table, in order, each with its column list and pattern, no table twice |
| BronzeLoad.CopiesAfterPuts | python/bronze_load.py:38-64 | the COPY of table j directly follows the PUTs, at position j after them |
| BronzeLoad.NoTableTwice | python/bronze_load.py:49-64 | with distinct table names, a COPY is followed only by COPYs of other tables |
| BronzeLoad.LoadPlan | python/bronze_load.py:36-64 | the script's own plan: the PUTs, then exactly one COPY per table of `TABLE_COLUMNS`, in declaration order, with its column list and pattern, no table twice |
| BronzeLoad.TablesDistinct | python/bronze_load.py:8-15 | the six table names are distinct |
| BronzeLoad.LowerNameAt | python/bronze_load.py:51 | each table name lower-cases to its lower-case name, which holds only lower-case letters, digits and `_` |
| BronzeLoad.PatternsOfTables | python/bronze_load.py:51 | each table's pattern is `.*` + its lower-case name + `.*`, `.*order_items.*` for ORDER_ITEMS |
| BronzeLoad.LowerNamesDisjoint | python/bronze_load.py:8-15 | no table's lower-case name occurs inside another's |
| BronzeLoad.EachFileLoadsOnce | python/bronze_load.py:49-57 | the file `<lower(table)>.csv` is selected by that table's pattern and by no other |
| BronzeLoad.Load | python/bronze_load.py:17-74 | a missing key sends nothing and exits 1; otherwise it exits 0 whatever fails; what is sent is a prefix of the plan, it succeeds exactly when the whole plan was sent and accepted, and otherwise every directive sent but the last was accepted and the last was rejected |
| BronzeLoad.LoadCompletes | python/bronze_load.py:36-66 | once connected, a warehouse that accepts every directive receives the whole plan and the load succeeds with exit 0 |
| BronzeLoad.FirstRejectionEndsLoad | python/bronze_load.py:36-70 | when directive k is the first rejected, exactly the plan up to and including it is sent, the load fails and the exit code is still 0 |
| BronzeLoad.RejectionIsSwallowed | python/bronze_load.py:68-70 | a rejected directive stops the load after at most that directive, but the script still exits 0 |
| FailFast.RunUntil | python/run_pipeline.py:16-31 | running in order until the first failure: the run is a prefix; it completes exactly when it covered everything and all passed; otherwise it ends with the one failure, and everything before it passed |
| FailFast.RunUntilStops | python/run_pipeline.py:16-18 | a failure at position k means the run does not complete and stops by k |
| Pipeline.RunScript | python/run_pipeline.py:5-20 | `run_script` returns exactly when the script exits with 0, and then it returns 0 |
| Pipeline.Run | python/run_pipeline.py:22-46 | the launched stages are a non-empty prefix of Bronze Load, Silver, Gold, Mart; the banner is printed exactly when the exit code is 0, which happens exactly when all four exit with 0; otherwise it is 1, the last launched stage failed, and every earlier one exited with 0 |
| Pipeline.RunStages | python/run_pipeline.py:28-31 | the sequence of `run_script` calls agrees with the fail-fast definition |
| Pipeline.RunPipeline | python/run_pipeline.py:22-46 | the runner launches the same stages and gives the same exit code as the definition |
| Pipeline.FailureStopsRun | python/run_pipeline.py:16-18 | if stage k does not exit with 0, no later stage runs and the runner exits 1 without the banner |
| Pipeline.MissingKeyStopsAtBronze | python/bronze_load.py:20-28 | a configuration missing a key stops the runner after Bronze Load, with exit 1 |
| Pipeline.BronzeErrorsDoNotStopRun | python/bronze_load.py:68-70 | once Bronze Load has connected, a launcher reporting its exit code launches Silver next, whatever failed inside Bronze Load |
| Pipeline.BronzePasses | python/bronze_load.py:17-74 | with all six keys Bronze Load exits 0 |
| Pipeline.SilverPasses | python/silver_transform.py:8-102 | with all keys, every file readable and some delivery time known, Silver exits 0 |
| Pipeline.GoldPasses | python/gold_transform.py:8-61 | with all keys and every file readable, Gold exits 0 |
| Pipeline.MartPasses | python/mart_transform.py:8-76 | with all keys and every file readable, Mart exits 0 |
| Pipeline.AllPassing | python/run_pipeline.py:28-34 | four stages exiting with 0 launch all four stages and print the banner |
| Pipeline.RunCompletes | python/run_pipeline.py:28-34 | with a complete configuration, every SQL file readable and some delivery time known, a launcher reporting each script's exit code runs all four stages and the banner is printed |

## Left out

- The Snowflake connector, its cursor and the statements' effects in the warehouse. Each query result is an input: row counts, flag counts, payment statuses, delivery times, and whether a directive is accepted.
- Reading `config/snowflake_config.json`: a missing or malformed file, and values that are not strings. The configuration is a map from keys to strings.
- File and process I/O: `open`, `os.listdir`, `os.path.join` and `os.path.abspath`, `subprocess.run`. These are a `Reader`, an optional directory listing and a `Launcher`.
- SQL failures in the Silver, Gold and Mart scripts. Only unreadable files and missing labels stop their file loops; a statement the warehouse rejects is not modelled there. In Bronze Setup a rejected statement and in Bronze Load a rejected directive are modelled.
- Console output, banners, `datetime.now()` and the float formatting (`:.1f`, `:,`, `:>10`). The two ratios and the average are `real`.
- The content of the SQL files and of Bronze Setup's file paths beyond their names.
- BronzeLoad.Selects: Snowflake's regular-expression `PATTERN` is modelled as the substring test `.*x.*` stands for. Compression to `.csv.gz` on upload is not modelled.
- BronzeLoad.Load: a PUT is identified by its listing entry, not by the absolute path `abspath` builds. The fixed COPY options (CSV, header skipped, quoted fields, `FORCE`) and the PUT options are not part of the directive.
- Labels.Label: `upper()` and `lower()` are modelled on ASCII letters only; the file and table names are ASCII.
- SilverScript.AvgDelivery: the average itself is only printed, so only whether it is NULL affects the model's outcome.
- The order of `TABLE_COLUMNS` is the dict's insertion order, which Python keeps; the model uses a sequence in declaration order.
- The layer file lists are written as a directory and `NN`/`name` parts that build `dir/NN_name.sql`; the paths are the same strings.
- A launch failure of `subprocess.run` is `LaunchFailed`. Like a non-zero status, it ends the runner with exit code 1.
