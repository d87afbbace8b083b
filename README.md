# ppolls2024 in Dafny

This is a model of the decision logic of ppolls2024, a command-line aggregator of
presidential polls. It has five parts, each modelled after the Go file it comes from:

- **Award and trend kernel** (`utils.dfy`, after `helpers/utils.go`):
  - the other share;
  - the three-point trend rule;
  - the three electoral-vote award algorithms;
  - the month-code lookup;
  - the rune cleaner;
  - the state-votes lookup;
  - the slice search.
- **State table** (`global.dfy`, after `global/global.go`). The class `Globals` holds:
  - the state table;
  - the battleground, strongly-Democratic and strongly-GOP lists;
  - the five command-line flags.

  Its `LoadStateTable` runs the line loop of `InitGlobals`.
- **Poll loader** (`load.dfy`, after `helpers/load.go`). It splits the poll file into lines and reads each line into the shared poll record. It stores one record per line that is neither blank nor a comment. The first bad line stops the load.
- **Reports** (`reports.dfy`, after `helpers/reports.go`):
  - The electoral-college report walks the state table. For each state it consumes the most recent rows up to the history limit and averages them. It then awards the state's votes and adds the award to running totals, counters, state lists and trend series.
  - The state report lists one state's most recent rows.
  - The electoral-college report takes `Rules`: the function that puts a leader in a group, and whether the printed trends are taken over every row consumed so far or over the state's own window. `AsWrittenRules` is the report as the source is written. `IntendedRules` corrects the two entries under "## Findings".
- **Command line** (`cli.dfy`, after `main.go`):
  - the argument loop that sets the flags and the report id;
  - the `-b` warning;
  - the choice of report.

`text.dfy` holds the Go string and number routines the code relies on:
- `strings.TrimSpace`, `Fields`, `Split`, `Join` and an ASCII `ToUpper`;
- `strconv.Atoi`/`ParseInt` on 64-bit values;
- `%02d` formatting.

`outcomes.dfy` holds `Option` and `Result`.

Each loop in the source is a method. The method is proved equal to a function over the prefix of its input:
- `Globals.LoadStateLines` is equal to `StateTableOf`;
- `Load` is equal to `LoadOf`;
- `ReportEC` is equal to `TallyOf`, which folds `StepState` over the table;
- `ParseArgs` is equal to `ParseCommandLine`.

What the source promises is then proved about these functions.

The following are parameters of the model:
- query results, as sequences of rows, most recent first;
- the per-state query, as a function from state code to rows;
- `strconv.ParseFloat`, as a function from text to an optional real;
- the history limit, the algorithm number and the tossup threshold.

A fatal log or an exit is modelled as an error result.

## Model

| member | source | states |
|---|---|---|
| Utils.CalcOther | helpers/utils.go:130-132 | the other share makes the three shares sum to 100 |
| Utils.CalcTrend | helpers/utils.go:139-143 | fewer than three points give "--" |
| Utils.TrendRule | helpers/utils.go:139-157 | each of "u2", "u1", "d2", "d1", "--" holds exactly when its condition on the last three points holds (all five directions of the iff) |
| Utils.TrendOfSuffix | helpers/utils.go:144-156 | the trend depends only on the last three points: any prefix leaves it unchanged |
| Utils.TrendMirror | helpers/utils.go:144-156 | negating the series swaps rises and falls ("u2" with "d2", "u1" with "d1"); "--" stays |
| Utils.FactorString | helpers/utils.go:160-165 | the flag is "**" exactly when the condition holds and two spaces otherwise |
| Utils.ECVAward1 | helpers/utils.go:176-193 | the result is a tossup iff the proportionally adjusted margin is below the threshold; it is Dem iff the margin is not below the threshold and adjusted Dem exceeds adjusted Gop; the votes go to exactly one column |
| Utils.ReallocatedScales | helpers/utils.go:180-182 | reallocating the other share scales a share by 1 + other/100 |
| Utils.ECVAward2 | helpers/utils.go:204-215 | the result is a tossup iff the raw margin is below the threshold; it is Dem iff the margin is not below the threshold and Dem exceeds Gop strictly; the flag is "**" iff other exceeds the margin and two spaces otherwise; the votes go to exactly one column |
| Utils.ECVAward3 | helpers/utils.go:226-240 | the result is a tossup iff other exceeds the margin or the margin is below the threshold; the flag is "**" iff other exceeds the margin and " " otherwise; the votes go to exactly one column |
| Utils.CreditsSum | helpers/utils.go:176-240 | the three increments of an award sum to the state's votes |
| Utils.Award3StricterThanAward2 | helpers/utils.go:204-240 | every algorithm-2 tossup is an algorithm-3 tossup; whenever algorithm 3 decides a state, or the algorithm-2 flag is off, the two agree |
| Utils.TiesNeverGoToDem | helpers/utils.go:188-240 | equal shares are never awarded to Dem by any algorithm |
| Utils.Award2Symmetric | helpers/utils.go:204-215 | outside a tie, swapping the shares swaps Dem and Gop and keeps tossups and the flag |
| Utils.ThresholdMonotone | helpers/utils.go:176-240 | raising the threshold keeps every tossup a tossup, under all three algorithms |
| Utils.Award1KeepsDirection | helpers/utils.go:176-193 | while the raw shares sum below 200, a state decided by algorithm 1 goes to the side with the larger raw share, or to Gop on a tie |
| Utils.AdjustedMargin | helpers/utils.go:176-193 | the adjusted margin is the raw margin scaled by 1 + other/100 |
| Utils.Award1WidensMargin | helpers/utils.go:176-215 | when the shares sum to at most 100, a state algorithm 2 decides is also decided by algorithm 1, for the same side |
| Utils.IndexOf | helpers/utils.go:108-113 | the result is the first position holding the string, or -1 iff it is absent |
| Utils.MonthOf | helpers/utils.go:106-115 | a found month lies in 1..12 |
| Utils.MonthOfFinds | helpers/utils.go:104-115 | the month is the 1-based position of the upper-cased code in JAN..DEC; the error holds iff the code is absent, and its message names the string |
| Utils.MonthCodes | helpers/utils.go:104-115 | the i-th code maps to i+1 |
| Utils.MonthsDistinct | helpers/utils.go:104 | the twelve codes are pairwise distinct |
| Utils.MonthCaseInsensitive | helpers/utils.go:106-115 | the lookup gives the same answer for a string and for its upper-cased form |
| Utils.MonthCodeLength | helpers/utils.go:104-115 | only three-character strings name months |
| Utils.MonthToInt | helpers/utils.go:106-115 | the search loop computes MonthOf |
| Utils.CleanedRunes | helpers/utils.go:89-101 | cleaning keeps the length; it keeps a rune iff the rune is printable ASCII, \n, \r or \t; it replaces every other rune with '?' |
| Utils.CleanedIdempotent | helpers/utils.go:89-101 | cleaning twice is cleaning once; clean text is unchanged |
| Utils.CleanerText | helpers/utils.go:89-101 | the in-place loop over the rune array computes Cleaned |
| Utils.StateToECV | helpers/utils.go:118-127 | the result is Ok iff the upper-cased code is in the state table; the votes are those of the first entry with that code; otherwise the error names the code |
| Utils.SearchSlice | helpers/utils.go:245-252 | the result is true iff the target occurs in the slice |
| Text.ToUpperIdempotent | helpers/load.go:49 | upper-casing a state code twice is upper-casing it once |
| Text.FieldsAreFields | global/global.go:95 | every field is non-empty and holds no white space |
| Text.SplitJoin | helpers/load.go:37-76 | joining space-free columns with single spaces and splitting the result at spaces gives the columns back |
| Text.JoinSplit | helpers/load.go:27 | splitting at a separator and re-joining with it gives back the text |
| Text.SplitPartsFree | global/global.go:87 | no part of a split holds the separator |
| Text.Pad2RoundTrip | helpers/load.go:66 | a number printed with "%02d" parses back to itself |
| Text.ParseInt | helpers/load.go:62 | a parsed integer lies in the 64-bit range |
| Global.Globals.constructor | global/global.go:62-80 | all flags start false, and the table and the three lists start empty |
| Global.Globals.LoadStateTable | global/global.go:86-114 | on a table with a malformed line, the error is returned; otherwise the table grows by the entries, and each list grows by the codes of its category, in file order |
| Global.Globals.LoadStateLines | global/global.go:89-114 | the line loop computes FoldTable over the line readings and keeps the fields in step with it |
| Global.Globals.AppendEntry | global/global.go:103-110 | one entry is appended to the table, and its code to exactly the list of its category |
| Global.ParseTableLine | global/global.go:91-113 | a line is blank iff it is empty or a comment after trimming; a line is an entry iff it is not blank, has exactly three fields, the second parses as an integer and the third is B, D or G; the entry holds the code, those votes and that category; a non-blank line without three fields is NotTriplet; a malformed line's error names its number |
| Global.ReadTableLine | global/global.go:90-113 | a line is read as blank, an entry or a malformed line; an entry's category is B, D or G; an error names the line's number |
| Global.ReadLinesAt | global/global.go:88-90 | the i-th reading is that of line i+1 |
| Global.ErrorPersists | global/global.go:97-112 | once a line fails, the rest of the file cannot change the result |
| Global.CategoriesPartitionTable | global/global.go:104-113 | every entry of an accepted table has category B, D or G; the three lists together are as long as the table |
| Global.OneEntryPerAcceptedLine | global/global.go:89-103 | an accepted table holds the entries of the lines that are not blank or a comment, one per line, in file order, and none of its lines is malformed |
| Global.ErrorNamesFirstBadLine | global/global.go:88-112 | a rejected table's error names the 1-based number of its first malformed line; all earlier lines are accepted |
| Load.DateRoundTrip | helpers/load.go:66-75 | a built date is "2024-", two month digits, "-" and the day, and both numbers read back |
| Load.DateReadsBack | helpers/load.go:58-75 | a date built from a month code and a day column reads back to the month's number and the day's value |
| Load.CommentLinesSkipped | helpers/load.go:33-43 | a line that starts with "#" after trimming stores nothing |
| Load.ColumnThreeIgnored | helpers/load.go:49-76 | changing column 3 never changes what a line yields |
| Load.StoredRecordReadsBack | helpers/load.go:44-76 | a stored record has the upper-cased state, the parsed shares, dates that read back to the month and day columns, and a pollster that splits back into columns 8 on |
| Load.ReadPollLinesAt | helpers/load.go:31-32 | the i-th reading is that of line i+1 |
| Load.LoadErrorPersists | helpers/load.go:44-74 | once a line fails, the rest of the file cannot change the result |
| Load.OneStorePerLine | helpers/load.go:31-80 | a successful load stores the records of the stored lines, in file order, one per line that is not skipped; no line fails |
| Load.LoadFailsAtFirstBadLine | helpers/load.go:31-80 | a failed load names the first failing line, after a prefix that loads |
| Load.LoadErrorNamesLine | helpers/load.go:44-74 | a failed load reports the 1-based number of the first bad line of the file and that line's fault |
| Load.ParsePollLine | helpers/load.go:33-76 | a line is skipped iff it is empty or a comment after trimming; any other line with fewer than nine columns fails with TooFewColumns and its column count; a stored line has at least nine columns, and its record has the first column upper-cased and the shares of columns 1 and 2 |
| Load.ParseColumns | helpers/load.go:38-76 | columns are skipped iff there are none or the first starts with "#"; otherwise fewer than nine fail with their count; a stored record has the first column upper-cased and the parsed shares |
| Load.FirstColumnComment | helpers/load.go:41-43 | the first column of a non-empty line starts with "#" iff the line does |
| Load.PollLineVerdict | helpers/load.go:44-76 | a line with content and at least nine columns fails at the first column that does not parse, in file order (Dem share, Gop share, start month, start day, end month, end day), with that column's fault and the month error's message; it is stored iff every one of them parses |
| Load.ReadPollLine | helpers/load.go:33-76 | reading a line into the shared record gives the line's reading; the record's old contents never reach the result |
| Load.Load | helpers/load.go:27-82 | the line loop computes LoadOf: all records in file order, and a line counter equal to the number of split lines |
| Reports.WindowSize | helpers/reports.go:67-84 | the rows consumed are min(rows, max(limit, 1)): never more than the rows, at least one when there is a row, and no more than the limit (or one, when the limit is below one) |
| Reports.ConsumeRows | helpers/reports.go:62-84 | the row loop consumes the window; the end date is the first row's; the sums are the sums of the window; the trend series are extended by the window's shares |
| Reports.AveragesOf | helpers/reports.go:86-89 | there are no averages iff no row was consumed; the three averages sum to 100 |
| Reports.NoDataAward | helpers/reports.go:86-100 | a state without rows gives its votes to Gop |
| Reports.AwardOf | helpers/reports.go:93-100 | algorithm 1 awards by ECVAward1 with flag " "; algorithm 2 awards by ECVAward2; any other algorithm gives UnsupportedAlgorithm; the votes go to exactly one column; a state with no rows gets the Gop award, flagged " " under algorithm 1 and two spaces under algorithm 2 |
| Reports.BucketMatchesCredit | helpers/reports.go:102-115 | a state is counted and listed in the group whose column received its votes |
| Reports.TallyTotals | helpers/reports.go:102-104 | each total is the sum of the credits to its column; the three totals sum to the votes of all states |
| Reports.StepState | helpers/reports.go:57-124 | one state's step fails iff its award fails, with that error; otherwise it appends one line for the state with its award, adds the award to the totals, counts and lists the state in the group the rules give its leader, appends the window's shares to the series, and its line shows the end date of the window's most recent row, the window's averages, and the trends of the series so far or of the state's own window, as the rules say |
| Reports.TallyLists | helpers/reports.go:105-115 | each state is listed once, in table order, in the group the rules give its leader; the counters are the lists' lengths and sum to the number of states |
| Reports.AsWrittenTallyAllTossup | helpers/reports.go:105-115 | grouped as written, a finished report lists every state as a tossup, in table order, and none for Biden or Trump; the tossup counter is the number of states |
| Reports.TallyLines | helpers/reports.go:56-124 | the report has one line per state, in table order, with that state's code and votes, the end date of its most recent consumed row and the averages of its own window |
| Reports.TallyLinesCredit | helpers/reports.go:93-104 | every state's line carries an award that gives exactly its votes to one column |
| Reports.SeriesAccumulate | helpers/reports.go:50-80 | the trend series are never reset; they hold every consumed row of every state so far, in table order |
| Reports.TrendsAccumulate | helpers/reports.go:118-120 | as written, each state's trends are taken over all rows consumed up to and including that state, across every state before it |
| Reports.WindowTrendRule | helpers/utils.go:139-157 | on a window given most recent first, each of "u2", "u1", "d2", "d1", "--" holds exactly when its condition on the first three points holds, the first being the latest |
| Reports.TrendsOfOwnWindow | helpers/reports.go:118-120 | with the intended rules, each state's trends are taken over its own window only, read oldest to newest |
| Reports.IntendedTrendRule | helpers/reports.go:118-120 | with the intended rules, a state's Biden trend is "u2" iff its three latest shares rose twice, "d2" iff they fell twice, and so on for all five trends |
| Reports.AsWrittenTrendFalls | helpers/reports.go:118-120 | as written, one state whose Biden share rose from 40 to 45 to 50 is printed with the Biden trend "d2" |
| Reports.IntendedTrendRises | helpers/reports.go:118-120 | with the intended rules, the same state is printed with the Biden trend "u2" |
| Reports.UnsupportedAlgorithmIsFatal | helpers/reports.go:93-100 | an unsupported algorithm fails at the first state, before any total changes |
| Reports.FoldErrorPersists | helpers/reports.go:99 | once a state fails, the later states cannot change the result |
| Reports.CreditedSum | helpers/reports.go:102-104 | awards that credit each state's votes credit the table's votes in total |
| Reports.ListedInCount | helpers/reports.go:105-115 | the three lists together count every line once |
| Reports.AddState | helpers/reports.go:57-124 | one iteration of the state loop computes StepState under the given rules |
| Reports.BookAward | helpers/reports.go:102-124 | once a state is awarded, the totals, the counter and list of the rules' group, and the new line with its end date, averages and trends are exactly those StepState books for the state's window |
| Reports.ReportEC | helpers/reports.go:38-131 | the state loop computes TallyOf over the table with the configured algorithm and the given rules |
| Reports.ScReport | helpers/reports.go:24-35 | one line per consumed row, most recent first, with that row's date, shares and pollster, and an other share that completes 100 |
| Reports.ReportSC | helpers/reports.go:9-36 | the row loop computes ScReport |
| Reports.AsWrittenListsAllTossup | helpers/reports.go:105-115 | under the group test as written, every award is listed as a tossup |
| Reports.AsWrittenMislistsWinner | helpers/reports.go:105-115 | a state credited to Biden is listed as a tossup under the test as written |
| Cli.SetFlag | main.go:51-66 | -f, -l, -p and -b each set their own flag and nothing else |
| Cli.ParseArgs | main.go:47-71 | the argument loop computes ParseCommandLine and leaves the flags it produced on the globals |
| Cli.EmptyArgsShowHelp | main.go:42-45 | an empty command line shows help |
| Cli.ScanConcat | main.go:47-71 | scanning a command line is scanning its prefix, then the rest from the resulting state |
| Cli.RepeatedFlagIdempotent | main.go:51-66 | repeating -f, -l, -p or -b changes nothing |
| Cli.LastReportWins | main.go:57-64 | the last -r sets the report flag, and its upper-cased id is the report |
| Cli.HelpStopsScan | main.go:49-69 | -h, -r as the last argument, or an unknown argument shows help and stops the scan with the state so far |
| Cli.FlagsOfOptions | main.go:51-66 | without -r and help, each flag is set iff its option occurs |
| Cli.BattlegroundWarning | main.go:88-90 | the warning is only about -b: it is given when -b is set and no report is requested, and never when a report is |
| Cli.WarningIffNoReport | main.go:88-122 | the warning is given iff -b is set and the dispatch runs no report |
| Cli.WarningWithoutReport | main.go:88-90 | without -r, the warning is given iff -b occurs, and the flags are those of the options |
| Cli.Dispatch | main.go:114-122 | no report runs iff the report flag is off; the electoral-college report runs iff the flag is on and the id is "EC"; otherwise the report of the state the id names runs |
| Cli.ReportIdChoosesReport | main.go:114-122 | "-r ID" runs the electoral-college report iff ID upper-cased is "EC"; otherwise it runs the report of that state |

## Left out

- I/O is not modelled: reading files, SQLite (`DBOpen`, `DBStore`, `sqlQuery`), `Printf` formatting, `log` and `os.Exit`. A store is an append to the sequence of records. A query result is an input sequence. A fatal log or an exit is an error result. Printed lines are values.
- `float64` is modelled as `real`, so rounding is not modelled. `strconv.ParseFloat` is a parameter.
- An empty window: the source divides zero by zero, giving NaN. Every comparison with NaN is false, so each algorithm falls to its last case, Gop. The model gives `None` averages and `NoDataAward`.
- The configuration (`helpers/config.go`) is not modelled. The history limit, the algorithm and the tossup threshold are parameters. `DateThreshold` is parsed but never read. config.go:50 overwrites the Battleground list built from the state table; that is not modelled either.
- The `GetGlobalRef` singleton: only the fields the core updates are modelled. They are the table, the three lists and five flags. The package-level `StateTable` is a field of `Globals`.
- `stateECVTable` and the type `ECVote` (reports.go:40) are not defined in any of the files modelled. The table of states is a parameter, a sequence of code-and-votes pairs. The per-state query is also a parameter.
- Utils.CleanerText: its input is a string of characters. Go's conversion to `[]rune` first turns each invalid UTF-8 byte into U+FFFD, which the cleaner then replaces with '?'; that decoding step is not modelled.
- The `-b` flag is parsed, stored and warned about (main.go:88-90), and the help text (main.go:23) says it restricts `-r ec` to battleground states. No report reads it, so it changes no report; the model keeps the flag and does not restrict the report either.
- The row fields `pctBiden` and `pctTrump` are missing from the source's `dbparams`. The model's rows have them.
- `rows.Scan` failure is not modelled. Every row is read whole.
- The arity mismatch is modelled by its evident intent:
  - The call at reports.go:95 takes five results from ECVAward1, which returns four.
  - The call at reports.go:97 takes four from ECVAward2, which returns five.
  - In the model, algorithm 1 uses ECVAward1 and leaves the flag at " ".
  - Algorithm 2 uses ECVAward2 and keeps its flag.
  - Any other algorithm is fatal; this includes 3, which the report never calls.
- Reports.Tally keeps the state lists as sequences of codes. The source keeps one string that grows by " " + code.
- Global.Globals.LoadStateLines: the source appends an entry to the state table before it checks the category. With a bad category the model returns the error without that last append; the run ends there anyway.
- Utils.MonthToInt returns an error result. The source returns -1 together with the error.
- Text.ToUpper maps ASCII letters only. Go's Unicode case mapping of other letters is not modelled.
- Load.Load: the log line at load.go:82 is the `lineCounter` of the summary. The file name and the read error of `os.ReadFile` are left out.
- `showHelp` is an outcome that names the reason; its text and `os.Exit(0)` are left out. So are the directory creation, fetching and plotting that `main` runs.
- The fetch and plot helpers, and the time and file helpers of utils.go, are not part of this model. These are `GetUtcDate`, `GetUtcTime`, `YYYY_MM_DDtoTime`, `WriteOutputText`, `MakeDir` and `StoreText`.
- `DummyTime` is the constant `Global.DummyTime`. Other uses of `time` are not modelled.

## Findings

| source | as written | input that shows it | evidently intended | confidence | as-written member | corrected member |
|---|---|---|---|---|---|---|
| helpers/reports.go:105-115 | the switch compares the leader with "Biden" and "Trump", but the awards name the leader "Dem", "Gop" or "TOSSUP", so every state is counted and listed as a tossup | algorithm 2, threshold 5.0, a state of 10 votes averaging 60/30: its 10 votes go to the Biden total while the state is listed as a tossup | count and list the state in the group whose column received its votes ("Dem" for Biden, "Gop" for Trump) | not executed | Reports.AsWrittenTallyAllTossup | Reports.BucketMatchesCredit |
| helpers/reports.go:118-120 | the trend series are filled from rows queried most recent first and never reset, but CalcTrend reads its last point as the latest: the trend compares a state's oldest consumed polls, and later states' trends mix in earlier states' polls | one state, PA, whose three polls, oldest to newest, give Biden 40, 45 and 50, averaged over three rows: the Biden trend is printed "d2" | take each state's trend over its own window, read oldest to newest, so that three rising shares print "u2" | not executed | Reports.AsWrittenTrendFalls | Reports.IntendedTrendRule |
