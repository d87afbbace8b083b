/**
 * The two reports of the poll aggregator (helpers/reports.go). The
 * electoral-college report walks the table of states; for each it averages
 * the most recent polls, awards the state's votes with the configured
 * algorithm and adds them to running totals, counters and state lists. The
 * state report lists the most recent polls of one state. Query results are
 * input sequences, most recent first; printed lines are returned as values.
 */
module Reports {
  import opened Outcomes
  import opened Text
  import opened Utils

  /** A row of the electoral-college query: end date and the two shares. */
  datatype EcRow = EcRow(endDate: string, pctBiden: real, pctTrump: real)

  /** A state of the electoral-college table with its electoral votes. */
  datatype StateECV = StateECV(state: string, votes: int)

  /** The averages over a state's consumed rows, the other share taken from the averages. */
  datatype Averages = Averages(biden: real, trump: real, other: real)

  /**
   * One printed line of the electoral-college report. The averages are None
   * when the state has no rows: the source divides zero by zero there.
   */
  datatype StateLine = StateLine(
    state: string, votes: int, endDate: string, averages: Option<Averages>,
    bidenTrend: string, trumpTrend: string, otherTrend: string, award: FlaggedAward)

  /** The running state of the report: totals, counters, state lists, trend series and lines. */
  datatype Tally = Tally(
    totalBiden: int, totalTrump: int, totalTossup: int,
    countBiden: nat, countTrump: nat, countTossup: nat,
    listBiden: seq<string>, listTrump: seq<string>, listTossup: seq<string>,
    arrayBiden: seq<real>, arrayTrump: seq<real>, arrayOther: seq<real>,
    lines: seq<StateLine>)

  /** The fatal error of the report: an award algorithm it does not support. */
  datatype ReportError = UnsupportedAlgorithm(alg: int)

  /** The three groups a state is counted and listed in. */
  datatype Bucket = BidenBucket | TrumpBucket | TossupBucket

  const EmptyTally := Tally(0, 0, 0, 0, 0, 0, [], [], [], [], [], [], [])

  /**
   * How many rows of a state the row loop consumes. The counter is raised
   * before it is compared with the limit, so a limit below 1 acts as 1.
   */
  function WindowSize(rowCount: nat, limit: int): (n: nat)
    ensures n <= rowCount
    ensures rowCount > 0 ==> n >= 1
    ensures n == rowCount || (n >= 1 && n >= limit)
    ensures n <= rowCount && (limit >= 1 ==> n <= limit) && (limit < 1 ==> n <= 1)
  {
    var cap := if limit < 1 then 1 else limit;
    if rowCount < cap then rowCount else cap
  }

  /** The rows consumed: the most recent ones, as many as WindowSize allows. */
  function Window<T>(rows: seq<T>, limit: int): seq<T>
  {
    rows[..WindowSize(|rows|, limit)]
  }

  function BidenPcts(rows: seq<EcRow>): (xs: seq<real>)
    ensures |xs| == |rows|
    ensures forall i :: 0 <= i < |rows| ==> xs[i] == rows[i].pctBiden
  {
    seq(|rows|, i requires 0 <= i < |rows| => rows[i].pctBiden)
  }

  function TrumpPcts(rows: seq<EcRow>): (xs: seq<real>)
    ensures |xs| == |rows|
    ensures forall i :: 0 <= i < |rows| ==> xs[i] == rows[i].pctTrump
  {
    seq(|rows|, i requires 0 <= i < |rows| => rows[i].pctTrump)
  }

  function OtherPcts(rows: seq<EcRow>): (xs: seq<real>)
    ensures |xs| == |rows|
    ensures forall i :: 0 <= i < |rows| ==> xs[i] == CalcOther(rows[i].pctBiden, rows[i].pctTrump)
  {
    seq(|rows|, i requires 0 <= i < |rows| => CalcOther(rows[i].pctBiden, rows[i].pctTrump))
  }

  function Sum(xs: seq<real>): real
    decreases |xs|
  {
    if |xs| == 0 then 0.0 else Sum(xs[..|xs| - 1]) + xs[|xs| - 1]
  }

  /** One more row adds its shares to the end of each series. */
  lemma PctsSnoc(rows: seq<EcRow>, c: nat)
    requires c < |rows|
    ensures BidenPcts(rows[..c + 1]) == BidenPcts(rows[..c]) + [rows[c].pctBiden]
    ensures TrumpPcts(rows[..c + 1]) == TrumpPcts(rows[..c]) + [rows[c].pctTrump]
    ensures OtherPcts(rows[..c + 1]) == OtherPcts(rows[..c]) + [CalcOther(rows[c].pctBiden, rows[c].pctTrump)]
  {
  }

  lemma SumSnoc(xs: seq<real>, x: real)
    ensures Sum(xs + [x]) == Sum(xs) + x
  {
    assert (xs + [x])[..|xs|] == xs;
  }

  /** The end date shown for a state: that of its most recent consumed row. */
  function EndDateOf(window: seq<EcRow>): string
  {
    if |window| == 0 then "" else window[0].endDate
  }

  /** The averages of the consumed rows, or None when there are none. */
  function AveragesOf(window: seq<EcRow>): (avg: Option<Averages>)
    ensures avg.None? <==> |window| == 0
    ensures avg.Some? ==> avg.value.biden + avg.value.trump + avg.value.other == 100.0
  {
    if |window| == 0 then None
    else
      var biden := Sum(BidenPcts(window)) / |window| as real;
      var trump := Sum(TrumpPcts(window)) / |window| as real;
      Some(Averages(biden, trump, CalcOther(biden, trump)))
  }

  /**
   * The award when a state has no rows. Every comparison with the source's
   * zero-by-zero quotient is false, so each algorithm falls to its last case.
   */
  function NoDataAward(votes: int): (a: Award)
    ensures Credits(a, votes) && a.leader == "Gop"
  {
    Award("Gop", 0, votes, 0)
  }

  /**
   * The award step: algorithm 1 with the flag left at " ", algorithm 2 with
   * its own flag, and any other algorithm fatal.
   */
  function AwardOf(alg: int, threshold: real, votes: int, avg: Option<Averages>): (r: Result<FlaggedAward, ReportError>)
    ensures r.Err? <==> alg != 1 && alg != 2
    ensures r.Err? ==> r.error == UnsupportedAlgorithm(alg)
    ensures r.Ok? ==> Credits(r.value.award, votes)
    ensures alg == 1 && avg.Some? ==> r == Ok(FlaggedAward(ECVAward1(votes, avg.value.biden, avg.value.trump, threshold), " "))
    ensures alg == 2 && avg.Some? ==> r == Ok(ECVAward2(votes, avg.value.biden, avg.value.trump, threshold))
    ensures r.Ok? && avg.None? ==> r.value.award == NoDataAward(votes)
    ensures alg == 1 && avg.None? ==> r == Ok(FlaggedAward(NoDataAward(votes), " "))
    ensures alg == 2 && avg.None? ==> r == Ok(FlaggedAward(NoDataAward(votes), "  "))
  {
    if alg == 1 then
      if avg.Some? then Ok(FlaggedAward(ECVAward1(votes, avg.value.biden, avg.value.trump, threshold), " "))
      else Ok(FlaggedAward(NoDataAward(votes), " "))
    else if alg == 2 then
      if avg.Some? then Ok(ECVAward2(votes, avg.value.biden, avg.value.trump, threshold))
      else Ok(FlaggedAward(NoDataAward(votes), FactorString(false)))
    else Err(UnsupportedAlgorithm(alg))
  }

  /** The group the leader is counted in: "Dem" for Biden, "Gop" for Trump, anything else tossup. */
  function BucketOf(leader: string): Bucket
  {
    if leader == "Dem" then BidenBucket
    else if leader == "Gop" then TrumpBucket
    else TossupBucket
  }

  /** The group as the source's switch chooses it, on the strings "Biden" and "Trump". */
  function BucketAsWritten(leader: string): Bucket
  {
    if leader == "Biden" then BidenBucket
    else if leader == "Trump" then TrumpBucket
    else TossupBucket
  }

  /**
   * As written, no award the algorithms return is counted for Biden or Trump:
   * they name the leader "Dem", "Gop" or "TOSSUP", so every state is listed
   * as a tossup, even one whose votes were credited to a candidate.
   */
  lemma AsWrittenListsAllTossup(alg: int, threshold: real, votes: int, avg: Option<Averages>)
    requires AwardOf(alg, threshold, votes, avg).Ok?
    ensures BucketAsWritten(AwardOf(alg, threshold, votes, avg).value.award.leader) == TossupBucket
  {
  }

  /** A state won outright by Dem is still listed as a tossup as written. */
  lemma AsWrittenMislistsWinner()
    ensures AwardOf(2, 5.0, 10, Some(Averages(60.0, 30.0, 10.0))).value.award.incDem == 10
    ensures BucketAsWritten(AwardOf(2, 5.0, 10, Some(Averages(60.0, 30.0, 10.0))).value.award.leader) == TossupBucket
  {
  }

  /** The group a state is counted in is the column its votes were credited to. */
  lemma BucketMatchesCredit(alg: int, threshold: real, votes: int, avg: Option<Averages>)
    requires AwardOf(alg, threshold, votes, avg).Ok?
    ensures var a := AwardOf(alg, threshold, votes, avg).value.award;
      match BucketOf(a.leader)
      case BidenBucket => a.incDem == votes && a.incGop == 0 && a.incTossup == 0
      case TrumpBucket => a.incDem == 0 && a.incGop == votes && a.incTossup == 0
      case TossupBucket => a.incDem == 0 && a.incGop == 0 && a.incTossup == votes
  {
  }

  /** An award step: the award of a state's votes given its averages, or the fatal error. */
  type AwardStep = (int, Option<Averages>) -> Result<FlaggedAward, ReportError>

  /** The award step of the configured algorithm and tossup threshold. */
  function ConfiguredStep(alg: int, threshold: real): AwardStep
  {
    (votes: int, avg: Option<Averages>) => AwardOf(alg, threshold, votes, avg)
  }

  /** Every award the step makes credits the state's votes whole to one column. */
  ghost predicate StepCredits(awardStep: AwardStep)
  {
    forall votes, avg :: awardStep(votes, avg).Ok? ==> Credits(awardStep(votes, avg).value.award, votes)
  }

  lemma ConfiguredStepCredits(alg: int, threshold: real)
    ensures StepCredits(ConfiguredStep(alg, threshold))
  {
  }

  /** The shares in reverse order. */
  function Reversed(xs: seq<real>): (r: seq<real>)
    ensures |r| == |xs|
    ensures forall i :: 0 <= i < |xs| ==> r[i] == xs[|xs| - 1 - i]
  {
    seq(|xs|, i requires 0 <= i < |xs| => xs[|xs| - 1 - i])
  }

  /**
   * The trend of one state's own window. The window comes most recent first,
   * so CalcTrend, which takes its last point as the latest, reads it reversed.
   */
  function WindowTrend(shares: seq<real>): string
  {
    CalcTrend(Reversed(shares))
  }

  /**
   * On a window given most recent first, the trend rises when the latest point
   * is above the one before it, and twice when that one is above the third.
   */
  lemma WindowTrendRule(v: seq<real>)
    ensures var t := WindowTrend(v);
      && (t == "u2" <==> |v| >= 3 && v[0] > v[1] > v[2])
      && (t == "u1" <==> |v| >= 3 && v[0] > v[1] && !(v[1] > v[2]))
      && (t == "d2" <==> |v| >= 3 && v[0] < v[1] < v[2])
      && (t == "d1" <==> |v| >= 3 && v[0] < v[1] && !(v[1] < v[2]))
      && (t == "--" <==> |v| < 3 || v[0] == v[1])
  {
    var r := Reversed(v);
    TrendRule(r);
    if |v| >= 3 {
      assert r[|r| - 1] == v[0] && r[|r| - 2] == v[1] && r[|r| - 3] == v[2];
    }
  }

  /** What the printed trends of a state are taken over. */
  datatype TrendSource =
    | RowsSoFar  // every row consumed so far, across states, in query order
    | OwnWindow  // the state's own window, oldest to newest

  /** How the report groups a leader and what it takes a state's trends over. */
  datatype Rules = Rules(group: string -> Bucket, trends: TrendSource)

  /** The report as the source is written. */
  const AsWrittenRules := Rules(BucketAsWritten, RowsSoFar)

  /** The report as it is evidently intended. */
  const IntendedRules := Rules(BucketOf, OwnWindow)

  /** The trend shown for one series: over the series so far, or over the state's own window. */
  function ShownTrend(source: TrendSource, series: seq<real>, own: seq<real>): string
  {
    match source
    case RowsSoFar => CalcTrend(series)
    case OwnWindow => WindowTrend(own)
  }

  /** The tally extended by one state whose query returned `rows`. */
  function StepState(t: Tally, st: StateECV, rows: seq<EcRow>, limit: int, awardStep: AwardStep, rules: Rules)
    : (r: Result<Tally, ReportError>)
    ensures r.Err? <==> awardStep(st.votes, AveragesOf(Window(rows, limit))).Err?
    ensures r.Err? ==> r.error == awardStep(st.votes, AveragesOf(Window(rows, limit))).error
    ensures r.Ok? ==> Appended(t, st, r.value, rules.group) && AppendedSeries(t, r.value, Window(rows, limit))
    ensures r.Ok? ==> r.value.lines[|t.lines|].award == awardStep(st.votes, AveragesOf(Window(rows, limit))).value
    ensures r.Ok? ==> && r.value.lines[|t.lines|].endDate == EndDateOf(Window(rows, limit))
                      && r.value.lines[|t.lines|].averages == AveragesOf(Window(rows, limit))
    ensures r.Ok? && rules.trends == RowsSoFar ==> AppendedTrends(t, r.value, CalcTrend)
    ensures r.Ok? && rules.trends == OwnWindow ==> AppendedOwnTrends(t, r.value, Window(rows, limit), WindowTrend)
  {
    var window := Window(rows, limit);
    match awardStep(st.votes, AveragesOf(window))
    case Err(e) => Err(e)
    case Ok(fa) => Ok(Booked(t, st, window, fa, rules))
  }

  /** The tally with the state's window and its award `fa` booked. */
  function Booked(t: Tally, st: StateECV, window: seq<EcRow>, fa: FlaggedAward, rules: Rules): Tally
  {
    var arrayBiden := t.arrayBiden + BidenPcts(window);
    var arrayTrump := t.arrayTrump + TrumpPcts(window);
    var arrayOther := t.arrayOther + OtherPcts(window);
    var bucket := rules.group(fa.award.leader);
    Tally(
      t.totalBiden + fa.award.incDem, t.totalTrump + fa.award.incGop, t.totalTossup + fa.award.incTossup,
      t.countBiden + (if bucket == BidenBucket then 1 else 0),
      t.countTrump + (if bucket == TrumpBucket then 1 else 0),
      t.countTossup + (if bucket == TossupBucket then 1 else 0),
      if bucket == BidenBucket then t.listBiden + [st.state] else t.listBiden,
      if bucket == TrumpBucket then t.listTrump + [st.state] else t.listTrump,
      if bucket == TossupBucket then t.listTossup + [st.state] else t.listTossup,
      arrayBiden, arrayTrump, arrayOther,
      t.lines + [StateLine(st.state, st.votes, EndDateOf(window), AveragesOf(window),
                           ShownTrend(rules.trends, arrayBiden, BidenPcts(window)),
                           ShownTrend(rules.trends, arrayTrump, TrumpPcts(window)),
                           ShownTrend(rules.trends, arrayOther, OtherPcts(window)), fa)])
  }

  /** One state's step of the report: the tally extended by that state, or the fatal error. */
  type ReportStep = (Tally, StateECV) -> Result<Tally, ReportError>

  /** The report's step: take the state's rows from `history`, average the window and award the state. */
  function ReportStepOf(history: string -> seq<EcRow>, limit: int, awardStep: AwardStep, rules: Rules): ReportStep
  {
    (t: Tally, st: StateECV) => StepState(t, st, history(st.state), limit, awardStep, rules)
  }

  /** The tally after `step` has taken the states of `table` in order, or the first error. */
  function FoldStates(table: seq<StateECV>, step: ReportStep): Result<Tally, ReportError>
    decreases |table|
  {
    if |table| == 0 then Ok(EmptyTally)
    else
      match FoldStates(table[..|table| - 1], step)
      case Err(e) => Err(e)
      case Ok(t) => step(t, table[|table| - 1])
  }

  /** The tally after the states of `table`, in table order, or the fatal error. */
  function TallyOf(table: seq<StateECV>, history: string -> seq<EcRow>, limit: int, awardStep: AwardStep, rules: Rules): Result<Tally, ReportError>
  {
    FoldStates(table, ReportStepOf(history, limit, awardStep, rules))
  }

  /**
   * `n` is `t` with one more line, for `st`: the line's award is added to the
   * totals and the state is counted and listed in its leader's group only.
   */
  predicate Appended(t: Tally, st: StateECV, n: Tally, group: string -> Bucket)
  {
    && |n.lines| == |t.lines| + 1
    && n.lines == t.lines + [n.lines[|t.lines|]]
    && (var line := n.lines[|t.lines|];
        var bucket := group(line.award.award.leader);
        && line.state == st.state && line.votes == st.votes
        && n.totalBiden == t.totalBiden + line.award.award.incDem
        && n.totalTrump == t.totalTrump + line.award.award.incGop
        && n.totalTossup == t.totalTossup + line.award.award.incTossup
        && n.countBiden == t.countBiden + (if bucket == BidenBucket then 1 else 0)
        && n.countTrump == t.countTrump + (if bucket == TrumpBucket then 1 else 0)
        && n.countTossup == t.countTossup + (if bucket == TossupBucket then 1 else 0)
        && n.listBiden == t.listBiden + (if bucket == BidenBucket then [st.state] else [])
        && n.listTrump == t.listTrump + (if bucket == TrumpBucket then [st.state] else [])
        && n.listTossup == t.listTossup + (if bucket == TossupBucket then [st.state] else []))
  }

  /** The line `n` adds after `t` credits the votes of `st` whole to one column. */
  predicate AppendedCredits(t: Tally, st: StateECV, n: Tally)
  {
    |n.lines| > |t.lines| && Credits(n.lines[|t.lines|].award.award, st.votes)
  }

  /**
   * `n` has the shares of `window` appended to `t`'s trend series, and the
   * line it adds shows the window's end date and averages.
   */
  predicate AppendedSeries(t: Tally, n: Tally, window: seq<EcRow>)
  {
    && |n.lines| > |t.lines|
    && n.lines[|t.lines|].endDate == EndDateOf(window)
    && n.lines[|t.lines|].averages == AveragesOf(window)
    && n.arrayBiden == t.arrayBiden + BidenPcts(window)
    && n.arrayTrump == t.arrayTrump + TrumpPcts(window)
    && n.arrayOther == t.arrayOther + OtherPcts(window)
  }

  /** The line `n` adds after `t` shows the `trend` of each extended series. */
  predicate AppendedTrends(t: Tally, n: Tally, trend: seq<real> -> string)
  {
    && |n.lines| > |t.lines|
    && n.lines[|t.lines|].bidenTrend == trend(n.arrayBiden)
    && n.lines[|t.lines|].trumpTrend == trend(n.arrayTrump)
    && n.lines[|t.lines|].otherTrend == trend(n.arrayOther)
  }

  /** The line `n` adds after `t` shows the `trend` of the shares of its own window. */
  predicate AppendedOwnTrends(t: Tally, n: Tally, window: seq<EcRow>, trend: seq<real> -> string)
  {
    && |n.lines| > |t.lines|
    && n.lines[|t.lines|].bidenTrend == trend(BidenPcts(window))
    && n.lines[|t.lines|].trumpTrend == trend(TrumpPcts(window))
    && n.lines[|t.lines|].otherTrend == trend(OtherPcts(window))
  }

  ghost predicate AppendsLine(step: ReportStep, group: string -> Bucket)
  {
    forall t, st :: step(t, st).Ok? ==> Appended(t, st, step(t, st).value, group)
  }

  ghost predicate AppendsCredited(step: ReportStep)
  {
    forall t, st :: step(t, st).Ok? ==> AppendedCredits(t, st, step(t, st).value)
  }

  ghost predicate AppendsSeries(step: ReportStep, history: string -> seq<EcRow>, limit: int)
  {
    forall t, st :: step(t, st).Ok? ==> AppendedSeries(t, step(t, st).value, Window(history(st.state), limit))
  }

  ghost predicate AppendsTrends(step: ReportStep, trend: seq<real> -> string)
  {
    forall t, st :: step(t, st).Ok? ==> AppendedTrends(t, step(t, st).value, trend)
  }

  ghost predicate AppendsOwnTrends(step: ReportStep, history: string -> seq<EcRow>, limit: int, trend: seq<real> -> string)
  {
    forall t, st :: step(t, st).Ok? ==> AppendedOwnTrends(t, step(t, st).value, Window(history(st.state), limit), trend)
  }

  /** Each step of the report adds one line and books its award in the group the rules give. */
  lemma ReportStepAppends(history: string -> seq<EcRow>, limit: int, awardStep: AwardStep, rules: Rules)
    ensures AppendsLine(ReportStepOf(history, limit, awardStep, rules), rules.group)
  {
    var step := ReportStepOf(history, limit, awardStep, rules);
    forall t, st | step(t, st).Ok?
      ensures Appended(t, st, step(t, st).value, rules.group)
    {
      assert step(t, st) == StepState(t, st, history(st.state), limit, awardStep, rules);
    }
  }

  /** With a crediting award step, each step of the report credits the state's votes whole. */
  lemma ReportStepCredits(history: string -> seq<EcRow>, limit: int, awardStep: AwardStep, rules: Rules)
    requires StepCredits(awardStep)
    ensures AppendsCredited(ReportStepOf(history, limit, awardStep, rules))
  {
    var step := ReportStepOf(history, limit, awardStep, rules);
    forall t, st | step(t, st).Ok?
      ensures AppendedCredits(t, st, step(t, st).value)
    {
      assert step(t, st) == StepState(t, st, history(st.state), limit, awardStep, rules);
      var avg := AveragesOf(Window(history(st.state), limit));
      assert Credits(awardStep(st.votes, avg).value.award, st.votes);
    }
  }

  /** Each step of the report appends the state's window to the trend series, whatever the rules. */
  lemma ReportStepSeries(history: string -> seq<EcRow>, limit: int, awardStep: AwardStep, rules: Rules)
    ensures AppendsSeries(ReportStepOf(history, limit, awardStep, rules), history, limit)
  {
    var step := ReportStepOf(history, limit, awardStep, rules);
    forall t, st | step(t, st).Ok?
      ensures AppendedSeries(t, step(t, st).value, Window(history(st.state), limit))
    {
      assert step(t, st) == StepState(t, st, history(st.state), limit, awardStep, rules);
    }
  }

  /** Taking trends over the rows so far, each step shows the `CalcTrend` of the extended series. */
  lemma ReportStepTrends(history: string -> seq<EcRow>, limit: int, awardStep: AwardStep, rules: Rules)
    requires rules.trends == RowsSoFar
    ensures AppendsTrends(ReportStepOf(history, limit, awardStep, rules), CalcTrend)
  {
    var step := ReportStepOf(history, limit, awardStep, rules);
    forall t, st | step(t, st).Ok?
      ensures AppendedTrends(t, step(t, st).value, CalcTrend)
    {
      assert step(t, st) == StepState(t, st, history(st.state), limit, awardStep, rules);
    }
  }

  /** Taking trends over the state's own window, each step shows the `WindowTrend` of that window. */
  lemma ReportStepOwnTrends(history: string -> seq<EcRow>, limit: int, awardStep: AwardStep, rules: Rules)
    requires rules.trends == OwnWindow
    ensures AppendsOwnTrends(ReportStepOf(history, limit, awardStep, rules), history, limit, WindowTrend)
  {
    var step := ReportStepOf(history, limit, awardStep, rules);
    forall t, st | step(t, st).Ok?
      ensures AppendedOwnTrends(t, step(t, st).value, Window(history(st.state), limit), WindowTrend)
    {
      assert step(t, st) == StepState(t, st, history(st.state), limit, awardStep, rules);
    }
  }

  /** The electoral votes of all the states of the table. */
  function SumVotes(table: seq<StateECV>): int
    decreases |table|
  {
    if |table| == 0 then 0 else SumVotes(table[..|table| - 1]) + table[|table| - 1].votes
  }

  /** The codes of the states of the table, in table order. */
  function CodesOf(table: seq<StateECV>): (codes: seq<string>)
    ensures |codes| == |table|
    ensures forall i :: 0 <= i < |table| ==> codes[i] == table[i].state
  {
    seq(|table|, i requires 0 <= i < |table| => table[i].state)
  }

  /** The rows consumed for the states of `table`, one state after another. */
  function AllConsumed(table: seq<StateECV>, history: string -> seq<EcRow>, limit: int): seq<EcRow>
    decreases |table|
  {
    if |table| == 0 then []
    else AllConsumed(table[..|table| - 1], history, limit) + Window(history(table[|table| - 1].state), limit)
  }

  /** The states of `lines` whose leader `group` puts in `bucket`, in order. */
  function ListedIn(lines: seq<StateLine>, bucket: Bucket, group: string -> Bucket): seq<string>
    decreases |lines|
  {
    if |lines| == 0 then []
    else
      var l := lines[|lines| - 1];
      ListedIn(lines[..|lines| - 1], bucket, group) + (if group(l.award.award.leader) == bucket then [l.state] else [])
  }

  /** The votes credited to one column by the awards of `lines`. */
  function Credited(lines: seq<StateLine>, bucket: Bucket): int
    decreases |lines|
  {
    if |lines| == 0 then 0
    else
      var a := lines[|lines| - 1].award.award;
      Credited(lines[..|lines| - 1], bucket)
        + (match bucket case BidenBucket => a.incDem case TrumpBucket => a.incGop case TossupBucket => a.incTossup)
  }

  /** `lines` has one line per state of `table`, in table order. */
  predicate LinesFollow(lines: seq<StateLine>, table: seq<StateECV>)
  {
    && |lines| == |table|
    && forall i :: 0 <= i < |table| ==> lines[i].state == table[i].state && lines[i].votes == table[i].votes
  }

  /** The award on each line credits that state's votes whole to one column. */
  predicate LinesCredit(lines: seq<StateLine>, table: seq<StateECV>)
  {
    && |lines| == |table|
    && forall i :: 0 <= i < |table| ==> Credits(lines[i].award.award, table[i].votes)
  }

  lemma LinesFollowSnoc(lines: seq<StateLine>, table: seq<StateECV>, line: StateLine, st: StateECV)
    requires LinesFollow(lines, table)
    requires line.state == st.state && line.votes == st.votes
    ensures LinesFollow(lines + [line], table + [st])
  {
    forall i | 0 <= i < |table| + 1
      ensures (lines + [line])[i].state == (table + [st])[i].state && (lines + [line])[i].votes == (table + [st])[i].votes
    {
      if i < |table| {
        assert (lines + [line])[i] == lines[i];
        assert (table + [st])[i] == table[i];
      }
    }
  }

  lemma LinesCreditSnoc(lines: seq<StateLine>, table: seq<StateECV>, line: StateLine, st: StateECV)
    requires LinesCredit(lines, table)
    requires Credits(line.award.award, st.votes)
    ensures LinesCredit(lines + [line], table + [st])
  {
    forall i | 0 <= i < |table| + 1
      ensures Credits((lines + [line])[i].award.award, (table + [st])[i].votes)
    {
      if i < |table| {
        assert (lines + [line])[i] == lines[i];
        assert (table + [st])[i] == table[i];
      }
    }
  }

  /** The first `n` lines credit the first `n` states. */
  lemma LinesCreditPrefix(lines: seq<StateLine>, table: seq<StateECV>, n: nat)
    requires LinesCredit(lines, table) && n <= |table|
    ensures LinesCredit(lines[..n], table[..n])
  {
    forall i | 0 <= i < n
      ensures Credits(lines[..n][i].award.award, table[..n][i].votes)
    {
      assert lines[..n][i] == lines[i];
      assert table[..n][i] == table[i];
    }
  }

  /** Lines that each credit their state's votes whole credit, together, all the votes of the table. */
  lemma {:induction false} CreditedSum(lines: seq<StateLine>, table: seq<StateECV>)
    requires LinesCredit(lines, table)
    ensures Credited(lines, BidenBucket) + Credited(lines, TrumpBucket) + Credited(lines, TossupBucket) == SumVotes(table)
    decreases |table|
  {
    if |table| > 0 {
      var n := |table| - 1;
      LinesCreditPrefix(lines, table, n);
      CreditedSum(lines[..n], table[..n]);
      CreditsSum(lines[n].award.award, table[n].votes);
    }
  }

  /** Every line is listed in exactly one of the three groups. */
  lemma {:induction false} ListedInCount(lines: seq<StateLine>, group: string -> Bucket)
    ensures |ListedIn(lines, BidenBucket, group)| + |ListedIn(lines, TrumpBucket, group)| + |ListedIn(lines, TossupBucket, group)| == |lines|
    decreases |lines|
  {
    if |lines| > 0 {
      ListedInCount(lines[..|lines| - 1], group);
    }
  }

  /**
   * Grouped as written, lines whose awards credit their states list no state
   * for Biden or Trump and every state, in order, as a tossup.
   */
  lemma {:induction false} ListedAsWritten(lines: seq<StateLine>, table: seq<StateECV>)
    requires LinesCredit(lines, table) && LinesFollow(lines, table)
    ensures ListedIn(lines, BidenBucket, BucketAsWritten) == []
    ensures ListedIn(lines, TrumpBucket, BucketAsWritten) == []
    ensures ListedIn(lines, TossupBucket, BucketAsWritten) == CodesOf(table)
    decreases |table|
  {
    if |table| > 0 {
      var n := |table| - 1;
      LinesCreditPrefix(lines, table, n);
      assert LinesFollow(lines[..n], table[..n]) by {
        forall i | 0 <= i < n
          ensures lines[..n][i].state == table[..n][i].state && lines[..n][i].votes == table[..n][i].votes
        {
          assert lines[..n][i] == lines[i];
          assert table[..n][i] == table[i];
        }
      }
      ListedAsWritten(lines[..n], table[..n]);
      assert Credits(lines[n].award.award, table[n].votes);
      assert CodesOf(table) == CodesOf(table[..n]) + [table[n].state];
    }
  }

  /** Over any step that appends one line per state, the lines follow the table. */
  lemma {:induction false} FoldLines(table: seq<StateECV>, step: ReportStep, group: string -> Bucket)
    requires AppendsLine(step, group)
    requires FoldStates(table, step).Ok?
    ensures LinesFollow(FoldStates(table, step).value.lines, table)
    decreases |table|
  {
    if |table| > 0 {
      var init := table[..|table| - 1];
      var st := table[|table| - 1];
      FoldLines(init, step, group);
      var t0 := FoldStates(init, step).value;
      var t := FoldStates(table, step).value;
      assert Appended(t0, st, t, group);
      assert table == init + [st];
      LinesFollowSnoc(t0.lines, init, t.lines[|t0.lines|], st);
    }
  }

  /**
   * Over any step that appends one line per state, the totals are the votes
   * the lines credit, and each group lists, in order, the states whose
   * leader falls in it.
   */
  lemma {:induction false} FoldBooks(table: seq<StateECV>, step: ReportStep, group: string -> Bucket)
    requires AppendsLine(step, group)
    requires FoldStates(table, step).Ok?
    ensures var t := FoldStates(table, step).value;
      && t.totalBiden == Credited(t.lines, BidenBucket)
      && t.totalTrump == Credited(t.lines, TrumpBucket)
      && t.totalTossup == Credited(t.lines, TossupBucket)
      && t.listBiden == ListedIn(t.lines, BidenBucket, group)
      && t.listTrump == ListedIn(t.lines, TrumpBucket, group)
      && t.listTossup == ListedIn(t.lines, TossupBucket, group)
      && t.countBiden == |t.listBiden| && t.countTrump == |t.listTrump| && t.countTossup == |t.listTossup|
    decreases |table|
  {
    if |table| > 0 {
      var init := table[..|table| - 1];
      FoldBooks(init, step, group);
      var t0 := FoldStates(init, step).value;
      var t := FoldStates(table, step).value;
      assert Appended(t0, table[|table| - 1], t, group);
      assert t.lines[..|t.lines| - 1] == t0.lines;
    }
  }

  /** Over a step whose awards credit the votes whole, every line does. */
  lemma {:induction false} FoldCredits(table: seq<StateECV>, step: ReportStep, group: string -> Bucket)
    requires AppendsLine(step, group) && AppendsCredited(step)
    requires FoldStates(table, step).Ok?
    ensures LinesCredit(FoldStates(table, step).value.lines, table)
    decreases |table|
  {
    if |table| > 0 {
      var init := table[..|table| - 1];
      var st := table[|table| - 1];
      FoldCredits(init, step, group);
      var t0 := FoldStates(init, step).value;
      var t := FoldStates(table, step).value;
      assert Appended(t0, st, t, group) && AppendedCredits(t0, st, t);
      assert table == init + [st];
      LinesCreditSnoc(t0.lines, init, t.lines[|t0.lines|], st);
    }
  }

  /** Over a step that appends each window to the series, the series hold every row consumed so far. */
  lemma {:induction false} FoldSeries(table: seq<StateECV>, step: ReportStep, history: string -> seq<EcRow>, limit: int)
    requires AppendsSeries(step, history, limit)
    requires FoldStates(table, step).Ok?
    ensures var t := FoldStates(table, step).value;
      && t.arrayBiden == BidenPcts(AllConsumed(table, history, limit))
      && t.arrayTrump == TrumpPcts(AllConsumed(table, history, limit))
      && t.arrayOther == OtherPcts(AllConsumed(table, history, limit))
    decreases |table|
  {
    if |table| > 0 {
      var init := table[..|table| - 1];
      var st := table[|table| - 1];
      FoldSeries(init, step, history, limit);
      var t0 := FoldStates(init, step).value;
      var t := FoldStates(table, step).value;
      var window := Window(history(st.state), limit);
      assert AppendedSeries(t0, t, window);
      PctsAppend(AllConsumed(init, history, limit), window);
    }
  }

  /** Each line shows the end date and the averages of its own state's window. */
  predicate LinesShowWindows(lines: seq<StateLine>, table: seq<StateECV>, history: string -> seq<EcRow>, limit: int)
  {
    && |lines| == |table|
    && forall i {:trigger lines[i]} :: 0 <= i < |table| ==>
         && lines[i].endDate == EndDateOf(Window(history(table[i].state), limit))
         && lines[i].averages == AveragesOf(Window(history(table[i].state), limit))
  }

  lemma LinesShowWindowsSnoc(lines: seq<StateLine>, table: seq<StateECV>, line: StateLine, st: StateECV,
                             history: string -> seq<EcRow>, limit: int)
    requires LinesShowWindows(lines, table, history, limit)
    requires line.endDate == EndDateOf(Window(history(st.state), limit))
    requires line.averages == AveragesOf(Window(history(st.state), limit))
    ensures LinesShowWindows(lines + [line], table + [st], history, limit)
  {
    var all := table + [st];
    forall i | 0 <= i < |all|
      ensures && (lines + [line])[i].endDate == EndDateOf(Window(history(all[i].state), limit))
              && (lines + [line])[i].averages == AveragesOf(Window(history(all[i].state), limit))
    {
      if i < |table| {
        assert all[i] == table[i];
        assert (lines + [line])[i] == lines[i];
      }
    }
  }

  /** Over a step that shows each state's window on its line, every line does. */
  lemma {:induction false} FoldWindows(table: seq<StateECV>, step: ReportStep, history: string -> seq<EcRow>, limit: int,
                                       group: string -> Bucket)
    requires AppendsLine(step, group) && AppendsSeries(step, history, limit)
    requires FoldStates(table, step).Ok?
    ensures LinesShowWindows(FoldStates(table, step).value.lines, table, history, limit)
    decreases |table|
  {
    if |table| > 0 {
      var init := table[..|table| - 1];
      var st := table[|table| - 1];
      FoldWindows(init, step, history, limit, group);
      var t0 := FoldStates(init, step).value;
      var t := FoldStates(table, step).value;
      assert Appended(t0, st, t, group) && AppendedSeries(t0, t, Window(history(st.state), limit));
      assert table == init + [st];
      LinesShowWindowsSnoc(t0.lines, init, t.lines[|t0.lines|], st, history, limit);
    }
  }

  /** The `trend` each line shows is taken over all rows consumed up to and including its state. */
  predicate TrendsFollow(lines: seq<StateLine>, table: seq<StateECV>, history: string -> seq<EcRow>, limit: int,
                         trend: seq<real> -> string)
  {
    && |lines| == |table|
    && forall i {:trigger lines[i]} :: 0 <= i < |table| ==>
         var consumed := AllConsumed(table[..i + 1], history, limit);
         && lines[i].bidenTrend == trend(BidenPcts(consumed))
         && lines[i].trumpTrend == trend(TrumpPcts(consumed))
         && lines[i].otherTrend == trend(OtherPcts(consumed))
  }

  lemma TrendsFollowSnoc(lines: seq<StateLine>, table: seq<StateECV>, line: StateLine, st: StateECV,
                         history: string -> seq<EcRow>, limit: int, trend: seq<real> -> string)
    requires TrendsFollow(lines, table, history, limit, trend)
    requires var consumed := AllConsumed(table + [st], history, limit);
      && line.bidenTrend == trend(BidenPcts(consumed))
      && line.trumpTrend == trend(TrumpPcts(consumed))
      && line.otherTrend == trend(OtherPcts(consumed))
    ensures TrendsFollow(lines + [line], table + [st], history, limit, trend)
  {
    var all := table + [st];
    forall i | 0 <= i < |all|
      ensures var consumed := AllConsumed(all[..i + 1], history, limit);
        && (lines + [line])[i].bidenTrend == trend(BidenPcts(consumed))
        && (lines + [line])[i].trumpTrend == trend(TrumpPcts(consumed))
        && (lines + [line])[i].otherTrend == trend(OtherPcts(consumed))
    {
      if i < |table| {
        assert all[..i + 1] == table[..i + 1];
        assert (lines + [line])[i] == lines[i];
      } else {
        assert all[..i + 1] == all;
      }
    }
  }

  lemma TrendsStep(t0: Tally, st: StateECV, t: Tally, init: seq<StateECV>, history: string -> seq<EcRow>, limit: int,
                   trend: seq<real> -> string, group: string -> Bucket)
    requires TrendsFollow(t0.lines, init, history, limit, trend)
    requires Appended(t0, st, t, group)
    requires AppendedTrends(t0, t, trend)
    requires t.arrayBiden == BidenPcts(AllConsumed(init + [st], history, limit))
    requires t.arrayTrump == TrumpPcts(AllConsumed(init + [st], history, limit))
    requires t.arrayOther == OtherPcts(AllConsumed(init + [st], history, limit))
    ensures TrendsFollow(t.lines, init + [st], history, limit, trend)
  {
    TrendsFollowSnoc(t0.lines, init, t.lines[|t0.lines|], st, history, limit, trend);
  }

  /** Over a step that shows the trends of the extended series, each line shows the trends of the rows consumed up to its state. */
  lemma {:induction false} FoldTrends(table: seq<StateECV>, step: ReportStep, history: string -> seq<EcRow>, limit: int,
                                      trend: seq<real> -> string, group: string -> Bucket)
    requires AppendsLine(step, group) && AppendsSeries(step, history, limit) && AppendsTrends(step, trend)
    requires FoldStates(table, step).Ok?
    ensures TrendsFollow(FoldStates(table, step).value.lines, table, history, limit, trend)
    decreases |table|
  {
    if |table| > 0 {
      var init := table[..|table| - 1];
      var st := table[|table| - 1];
      FoldTrends(init, step, history, limit, trend, group);
      FoldSeries(table, step, history, limit);
      var t0 := FoldStates(init, step).value;
      var t := FoldStates(table, step).value;
      assert table == init + [st];
      TrendsStep(t0, st, t, init, history, limit, trend, group);
    }
  }

  /** The `trend` each line shows is taken over its own state's window only. */
  predicate OwnTrendsFollow(lines: seq<StateLine>, table: seq<StateECV>, history: string -> seq<EcRow>, limit: int,
                            trend: seq<real> -> string)
  {
    && |lines| == |table|
    && forall i {:trigger lines[i]} :: 0 <= i < |table| ==>
         var window := Window(history(table[i].state), limit);
         && lines[i].bidenTrend == trend(BidenPcts(window))
         && lines[i].trumpTrend == trend(TrumpPcts(window))
         && lines[i].otherTrend == trend(OtherPcts(window))
  }

  lemma OwnTrendsFollowSnoc(lines: seq<StateLine>, table: seq<StateECV>, line: StateLine, st: StateECV,
                            history: string -> seq<EcRow>, limit: int, trend: seq<real> -> string)
    requires OwnTrendsFollow(lines, table, history, limit, trend)
    requires var window := Window(history(st.state), limit);
      && line.bidenTrend == trend(BidenPcts(window))
      && line.trumpTrend == trend(TrumpPcts(window))
      && line.otherTrend == trend(OtherPcts(window))
    ensures OwnTrendsFollow(lines + [line], table + [st], history, limit, trend)
  {
    var all := table + [st];
    forall i | 0 <= i < |all|
      ensures var window := Window(history(all[i].state), limit);
        && (lines + [line])[i].bidenTrend == trend(BidenPcts(window))
        && (lines + [line])[i].trumpTrend == trend(TrumpPcts(window))
        && (lines + [line])[i].otherTrend == trend(OtherPcts(window))
    {
      if i < |table| {
        assert all[i] == table[i];
        assert (lines + [line])[i] == lines[i];
      }
    }
  }

  /** Over a step that shows the trends of each state's own window, every line does. */
  lemma {:induction false} FoldOwnTrends(table: seq<StateECV>, step: ReportStep, history: string -> seq<EcRow>, limit: int,
                                         trend: seq<real> -> string, group: string -> Bucket)
    requires AppendsLine(step, group) && AppendsOwnTrends(step, history, limit, trend)
    requires FoldStates(table, step).Ok?
    ensures OwnTrendsFollow(FoldStates(table, step).value.lines, table, history, limit, trend)
    decreases |table|
  {
    if |table| > 0 {
      var init := table[..|table| - 1];
      var st := table[|table| - 1];
      FoldOwnTrends(init, step, history, limit, trend, group);
      var t0 := FoldStates(init, step).value;
      var t := FoldStates(table, step).value;
      assert Appended(t0, st, t, group) && AppendedOwnTrends(t0, t, Window(history(st.state), limit), trend);
      assert table == init + [st];
      OwnTrendsFollowSnoc(t0.lines, init, t.lines[|t0.lines|], st, history, limit, trend);
    }
  }

  /** Once a prefix of the table fails, the whole fold fails with that error. */
  lemma {:induction false} FoldErrorPersists(table: seq<StateECV>, step: ReportStep, n: nat)
    requires n <= |table|
    requires FoldStates(table[..n], step).Err?
    ensures FoldStates(table, step) == FoldStates(table[..n], step)
    decreases |table|
  {
    if n < |table| {
      var init := table[..|table| - 1];
      assert init[..n] == table[..n];
      FoldErrorPersists(init, step, n);
    } else {
      assert table[..n] == table;
    }
  }

  /**
   * A finished report has one line per state, in table order, each showing
   * the end date and the averages of that state's own window.
   */
  lemma TallyLines(table: seq<StateECV>, history: string -> seq<EcRow>, limit: int, awardStep: AwardStep, rules: Rules)
    requires TallyOf(table, history, limit, awardStep, rules).Ok?
    ensures LinesFollow(TallyOf(table, history, limit, awardStep, rules).value.lines, table)
    ensures LinesShowWindows(TallyOf(table, history, limit, awardStep, rules).value.lines, table, history, limit)
  {
    ReportStepAppends(history, limit, awardStep, rules);
    ReportStepSeries(history, limit, awardStep, rules);
    FoldLines(table, ReportStepOf(history, limit, awardStep, rules), rules.group);
    FoldWindows(table, ReportStepOf(history, limit, awardStep, rules), history, limit, rules.group);
  }

  /** With a crediting award step, the award on each line credits that state's votes whole to one column. */
  lemma TallyLinesCredit(table: seq<StateECV>, history: string -> seq<EcRow>, limit: int, awardStep: AwardStep, rules: Rules)
    requires StepCredits(awardStep)
    requires TallyOf(table, history, limit, awardStep, rules).Ok?
    ensures LinesCredit(TallyOf(table, history, limit, awardStep, rules).value.lines, table)
  {
    ReportStepAppends(history, limit, awardStep, rules);
    ReportStepCredits(history, limit, awardStep, rules);
    FoldCredits(table, ReportStepOf(history, limit, awardStep, rules), rules.group);
  }

  /**
   * The totals are the votes the lines' awards credit to each column, and
   * together they are all the votes of the table.
   */
  lemma TallyTotals(table: seq<StateECV>, history: string -> seq<EcRow>, limit: int, awardStep: AwardStep, rules: Rules)
    requires StepCredits(awardStep)
    requires TallyOf(table, history, limit, awardStep, rules).Ok?
    ensures var t := TallyOf(table, history, limit, awardStep, rules).value;
      && t.totalBiden == Credited(t.lines, BidenBucket)
      && t.totalTrump == Credited(t.lines, TrumpBucket)
      && t.totalTossup == Credited(t.lines, TossupBucket)
      && t.totalBiden + t.totalTrump + t.totalTossup == SumVotes(table)
  {
    ReportStepAppends(history, limit, awardStep, rules);
    FoldBooks(table, ReportStepOf(history, limit, awardStep, rules), rules.group);
    TallyLinesCredit(table, history, limit, awardStep, rules);
    CreditedSum(TallyOf(table, history, limit, awardStep, rules).value.lines, table);
  }

  /**
   * Each state is listed in exactly the group its leader falls in, in table
   * order, the counters are the lengths of the lists, and together they count
   * every state once.
   */
  lemma TallyLists(table: seq<StateECV>, history: string -> seq<EcRow>, limit: int, awardStep: AwardStep, rules: Rules)
    requires TallyOf(table, history, limit, awardStep, rules).Ok?
    ensures var t := TallyOf(table, history, limit, awardStep, rules).value;
      && t.listBiden == ListedIn(t.lines, BidenBucket, rules.group)
      && t.listTrump == ListedIn(t.lines, TrumpBucket, rules.group)
      && t.listTossup == ListedIn(t.lines, TossupBucket, rules.group)
      && t.countBiden == |t.listBiden| && t.countTrump == |t.listTrump| && t.countTossup == |t.listTossup|
      && t.countBiden + t.countTrump + t.countTossup == |table|
  {
    ReportStepAppends(history, limit, awardStep, rules);
    FoldLines(table, ReportStepOf(history, limit, awardStep, rules), rules.group);
    FoldBooks(table, ReportStepOf(history, limit, awardStep, rules), rules.group);
    ListedInCount(TallyOf(table, history, limit, awardStep, rules).value.lines, rules.group);
  }

  /**
   * As written, a finished report counts and lists every state as a tossup,
   * in table order, and no state for Biden or Trump, whatever the awards.
   */
  lemma AsWrittenTallyAllTossup(table: seq<StateECV>, history: string -> seq<EcRow>, limit: int, awardStep: AwardStep)
    requires StepCredits(awardStep)
    requires TallyOf(table, history, limit, awardStep, AsWrittenRules).Ok?
    ensures var t := TallyOf(table, history, limit, awardStep, AsWrittenRules).value;
      && t.listBiden == [] && t.listTrump == [] && t.listTossup == CodesOf(table)
      && t.countBiden == 0 && t.countTrump == 0 && t.countTossup == |table|
  {
    TallyLists(table, history, limit, awardStep, AsWrittenRules);
    TallyLines(table, history, limit, awardStep, AsWrittenRules);
    TallyLinesCredit(table, history, limit, awardStep, AsWrittenRules);
    ListedAsWritten(TallyOf(table, history, limit, awardStep, AsWrittenRules).value.lines, table);
  }

  /**
   * The trend series are never reset: after the states of `table` they hold
   * every row consumed so far, across all states, in table order.
   */
  lemma SeriesAccumulate(table: seq<StateECV>, history: string -> seq<EcRow>, limit: int, awardStep: AwardStep, rules: Rules)
    requires TallyOf(table, history, limit, awardStep, rules).Ok?
    ensures var t := TallyOf(table, history, limit, awardStep, rules).value;
      && t.arrayBiden == BidenPcts(AllConsumed(table, history, limit))
      && t.arrayTrump == TrumpPcts(AllConsumed(table, history, limit))
      && t.arrayOther == OtherPcts(AllConsumed(table, history, limit))
  {
    ReportStepSeries(history, limit, awardStep, rules);
    FoldSeries(table, ReportStepOf(history, limit, awardStep, rules), history, limit);
  }

  /**
   * As written, the trends printed for a state are taken over all rows
   * consumed up to and including that state, across every state before it.
   */
  lemma TrendsAccumulate(table: seq<StateECV>, history: string -> seq<EcRow>, limit: int, awardStep: AwardStep, rules: Rules)
    requires rules.trends == RowsSoFar
    requires TallyOf(table, history, limit, awardStep, rules).Ok?
    ensures TrendsFollow(TallyOf(table, history, limit, awardStep, rules).value.lines, table, history, limit, CalcTrend)
  {
    ReportStepAppends(history, limit, awardStep, rules);
    ReportStepSeries(history, limit, awardStep, rules);
    ReportStepTrends(history, limit, awardStep, rules);
    FoldTrends(table, ReportStepOf(history, limit, awardStep, rules), history, limit, CalcTrend, rules.group);
  }

  /** As intended, the trends printed for a state are those of its own window, read oldest to newest. */
  lemma TrendsOfOwnWindow(table: seq<StateECV>, history: string -> seq<EcRow>, limit: int, awardStep: AwardStep, rules: Rules)
    requires rules.trends == OwnWindow
    requires TallyOf(table, history, limit, awardStep, rules).Ok?
    ensures OwnTrendsFollow(TallyOf(table, history, limit, awardStep, rules).value.lines, table, history, limit, WindowTrend)
  {
    ReportStepAppends(history, limit, awardStep, rules);
    ReportStepOwnTrends(history, limit, awardStep, rules);
    FoldOwnTrends(table, ReportStepOf(history, limit, awardStep, rules), history, limit, WindowTrend, rules.group);
  }

  /** The series of a concatenation is the concatenation of the series. */
  lemma PctsAppend(a: seq<EcRow>, b: seq<EcRow>)
    ensures BidenPcts(a + b) == BidenPcts(a) + BidenPcts(b)
    ensures TrumpPcts(a + b) == TrumpPcts(a) + TrumpPcts(b)
    ensures OtherPcts(a + b) == OtherPcts(a) + OtherPcts(b)
  {
  }

  /**
   * An unsupported algorithm stops the report at the first state, before any
   * total, counter or list changes; an empty table reports nothing.
   */
  lemma {:induction false} UnsupportedAlgorithmIsFatal(table: seq<StateECV>, history: string -> seq<EcRow>, limit: int, alg: int,
                                                       threshold: real, rules: Rules)
    requires alg != 1 && alg != 2
    ensures TallyOf(table, history, limit, ConfiguredStep(alg, threshold), rules)
      == if |table| == 0 then Ok(EmptyTally) else Err(UnsupportedAlgorithm(alg))
    decreases |table|
  {
    if |table| > 0 {
      var st := table[|table| - 1];
      UnsupportedAlgorithmIsFatal(table[..|table| - 1], history, limit, alg, threshold, rules);
      assert ConfiguredStep(alg, threshold)(st.votes, AveragesOf(Window(history(st.state), limit))).Err?;
      assert ReportStepOf(history, limit, ConfiguredStep(alg, threshold), rules)(EmptyTally, st).Err?;
    }
  }

  /**
   * With the intended rules, each line's Biden trend follows the rule on its
   * own window, most recent row first: "u2" when the share rose over the last
   * two polls, "d2" when it fell over both, "--" on too few polls or no change.
   */
  lemma IntendedTrendRule(table: seq<StateECV>, history: string -> seq<EcRow>, limit: int, awardStep: AwardStep, i: nat)
    requires TallyOf(table, history, limit, awardStep, IntendedRules).Ok?
    requires i < |table|
    ensures var lines := TallyOf(table, history, limit, awardStep, IntendedRules).value.lines;
      var w := Window(history(table[i].state), limit);
      && |lines| == |table|
      && (lines[i].bidenTrend == "u2" <==> |w| >= 3 && w[0].pctBiden > w[1].pctBiden > w[2].pctBiden)
      && (lines[i].bidenTrend == "u1" <==> |w| >= 3 && w[0].pctBiden > w[1].pctBiden && !(w[1].pctBiden > w[2].pctBiden))
      && (lines[i].bidenTrend == "d2" <==> |w| >= 3 && w[0].pctBiden < w[1].pctBiden < w[2].pctBiden)
      && (lines[i].bidenTrend == "d1" <==> |w| >= 3 && w[0].pctBiden < w[1].pctBiden && !(w[1].pctBiden < w[2].pctBiden))
      && (lines[i].bidenTrend == "--" <==> |w| < 3 || w[0].pctBiden == w[1].pctBiden)
  {
    var lines := TallyOf(table, history, limit, awardStep, IntendedRules).value.lines;
    TallyLines(table, history, limit, awardStep, IntendedRules);
    TrendsOfOwnWindow(table, history, limit, awardStep, IntendedRules);
    assert lines[i].bidenTrend == WindowTrend(BidenPcts(Window(history(table[i].state), limit)));
    WindowTrendRule(BidenPcts(Window(history(table[i].state), limit)));
  }

  /** Three polls of one state, most recent first, over which Biden's share rose from 40 to 50. */
  const RisingPolls := [EcRow("2024-03-03", 50.0, 40.0), EcRow("2024-02-02", 45.0, 40.0), EcRow("2024-01-01", 40.0, 40.0)]

  /** The report over one state whose history is `RisingPolls`, averaging its three polls. */
  function RisingReport(rules: Rules): Result<Tally, ReportError>
  {
    TallyOf([StateECV("PA", 19)], (s: string) => RisingPolls, 3, ConfiguredStep(2, 5.0), rules)
  }

  lemma RisingReportOk(rules: Rules)
    ensures RisingReport(rules).Ok? && |RisingReport(rules).value.lines| == 1
  {
    var table := [StateECV("PA", 19)];
    var history := (s: string) => RisingPolls;
    assert table[..0] == [];
    assert ReportStepOf(history, 3, ConfiguredStep(2, 5.0), rules)(EmptyTally, table[0])
      == StepState(EmptyTally, table[0], RisingPolls, 3, ConfiguredStep(2, 5.0), rules);
    TallyLines(table, history, 3, ConfiguredStep(2, 5.0), rules);
  }

  /**
   * As written, the report reads the most recent poll as the oldest: Biden's
   * share rose over the three polls, yet his trend is printed as falling twice.
   */
  lemma AsWrittenTrendFalls()
    ensures RisingPolls[2].pctBiden < RisingPolls[1].pctBiden < RisingPolls[0].pctBiden
    ensures RisingReport(AsWrittenRules).Ok? && |RisingReport(AsWrittenRules).value.lines| == 1
      && RisingReport(AsWrittenRules).value.lines[0].bidenTrend == "d2"
  {
    var table := [StateECV("PA", 19)];
    var history := (s: string) => RisingPolls;
    RisingReportOk(AsWrittenRules);
    TrendsAccumulate(table, history, 3, ConfiguredStep(2, 5.0), AsWrittenRules);
    assert table[..1] == table;
    assert AllConsumed(table, history, 3) == RisingPolls by {
      assert table[..0] == [];
    }
    assert BidenPcts(RisingPolls) == [50.0, 45.0, 40.0];
  }

  /** With the intended rules, the same report prints Biden's trend as rising twice. */
  lemma IntendedTrendRises()
    ensures RisingReport(IntendedRules).Ok? && |RisingReport(IntendedRules).value.lines| == 1
      && RisingReport(IntendedRules).value.lines[0].bidenTrend == "u2"
  {
    RisingReportOk(IntendedRules);
    IntendedTrendRule([StateECV("PA", 19)], (s: string) => RisingPolls, 3, ConfiguredStep(2, 5.0), 0);
  }

  /**
   * The row loop of one state: consumes the most recent rows up to the limit,
   * keeps the first row's end date, sums the shares and appends them to the
   * running trend series.
   */
  method ConsumeRows(rows: seq<EcRow>, limit: int, arrayBiden: seq<real>, arrayTrump: seq<real>, arrayOther: seq<real>)
    returns (counter: nat, endDate: string, sumBiden: real, sumTrump: real,
             newBiden: seq<real>, newTrump: seq<real>, newOther: seq<real>)
    ensures counter == WindowSize(|rows|, limit)
    ensures endDate == EndDateOf(Window(rows, limit))
    ensures sumBiden == Sum(BidenPcts(Window(rows, limit)))
    ensures sumTrump == Sum(TrumpPcts(Window(rows, limit)))
    ensures newBiden == arrayBiden + BidenPcts(Window(rows, limit))
    ensures newTrump == arrayTrump + TrumpPcts(Window(rows, limit))
    ensures newOther == arrayOther + OtherPcts(Window(rows, limit))
  {
    counter, endDate, sumBiden, sumTrump := 0, "", 0.0, 0.0;
    newBiden, newTrump, newOther := arrayBiden, arrayTrump, arrayOther;
    while counter < |rows|
      invariant counter <= |rows|
      invariant counter == 0 || counter < limit
      invariant endDate == EndDateOf(rows[..counter])
      invariant sumBiden == Sum(BidenPcts(rows[..counter]))
      invariant sumTrump == Sum(TrumpPcts(rows[..counter]))
      invariant newBiden == arrayBiden + BidenPcts(rows[..counter])
      invariant newTrump == arrayTrump + TrumpPcts(rows[..counter])
      invariant newOther == arrayOther + OtherPcts(rows[..counter])
      decreases |rows| - counter
    {
      var row := rows[counter];
      PctsSnoc(rows, counter);
      SumSnoc(BidenPcts(rows[..counter]), row.pctBiden);
      SumSnoc(TrumpPcts(rows[..counter]), row.pctTrump);
      AppendAssoc(arrayBiden, BidenPcts(rows[..counter]), [row.pctBiden]);
      AppendAssoc(arrayTrump, TrumpPcts(rows[..counter]), [row.pctTrump]);
      AppendAssoc(arrayOther, OtherPcts(rows[..counter]), [CalcOther(row.pctBiden, row.pctTrump)]);
      counter := counter + 1;
      if counter == 1 {
        endDate := row.endDate;
      }
      sumBiden := sumBiden + row.pctBiden;
      newBiden := newBiden + [row.pctBiden];
      sumTrump := sumTrump + row.pctTrump;
      newTrump := newTrump + [row.pctTrump];
      newOther := newOther + [CalcOther(row.pctBiden, row.pctTrump)];
      if counter >= limit {
        break;
      }
    }
  }

  /**
   * The body of the state loop: consume the state's rows, average them, award
   * the state's votes with the configured algorithm (fatal for any other) and
   * book the award.
   */
  method AddState(t: Tally, stateECV: StateECV, rows: seq<EcRow>, limit: int, alg: int, threshold: real, rules: Rules)
    returns (r: Result<Tally, ReportError>)
    ensures r == StepState(t, stateECV, rows, limit, ConfiguredStep(alg, threshold), rules)
  {
    var counter, endDate, sumBiden, sumTrump, arrayBiden, arrayTrump, arrayOther :=
      ConsumeRows(rows, limit, t.arrayBiden, t.arrayTrump, t.arrayOther);
    var averages: Option<Averages> := None;
    if counter > 0 {
      var aveBiden := sumBiden / counter as real;
      var aveTrump := sumTrump / counter as real;
      averages := Some(Averages(aveBiden, aveTrump, CalcOther(aveBiden, aveTrump)));
    }
    assert averages == AveragesOf(Window(rows, limit));
    var awarded := AwardOf(alg, threshold, stateECV.votes, averages);
    assert awarded == ConfiguredStep(alg, threshold)(stateECV.votes, averages);
    if awarded.Err? {
      return Err(awarded.error);
    }
    var tally := BookAward(t, stateECV, endDate, averages, arrayBiden, arrayTrump, arrayOther, awarded.value, rules,
                           Window(rows, limit));
    return Ok(tally);
  }

  /**
   * The rest of the state loop's body once the state is awarded: add the award
   * to the totals, count and list the state in the group the rules give its
   * leader, and append its line with the trends the rules ask for.
   */
  method BookAward(t: Tally, stateECV: StateECV, endDate: string, averages: Option<Averages>,
                   arrayBiden: seq<real>, arrayTrump: seq<real>, arrayOther: seq<real>, fa: FlaggedAward, rules: Rules,
                   ghost window: seq<EcRow>)
    returns (tally: Tally)
    requires endDate == EndDateOf(window) && averages == AveragesOf(window)
    requires arrayBiden == t.arrayBiden + BidenPcts(window)
    requires arrayTrump == t.arrayTrump + TrumpPcts(window)
    requires arrayOther == t.arrayOther + OtherPcts(window)
    ensures tally == Booked(t, stateECV, window, fa, rules)
  {
    tally := t.(arrayBiden := arrayBiden, arrayTrump := arrayTrump, arrayOther := arrayOther);
    tally := tally.(totalBiden := tally.totalBiden + fa.award.incDem,
                    totalTrump := tally.totalTrump + fa.award.incGop,
                    totalTossup := tally.totalTossup + fa.award.incTossup);
    match rules.group(fa.award.leader) {
      case BidenBucket =>
        tally := tally.(countBiden := tally.countBiden + 1, listBiden := tally.listBiden + [stateECV.state]);
      case TrumpBucket =>
        tally := tally.(countTrump := tally.countTrump + 1, listTrump := tally.listTrump + [stateECV.state]);
      case TossupBucket =>
        tally := tally.(countTossup := tally.countTossup + 1, listTossup := tally.listTossup + [stateECV.state]);
    }
    // The state's own shares are what the row loop appended to each series.
    var ownBiden, ownTrump, ownOther :=
      arrayBiden[|t.arrayBiden|..], arrayTrump[|t.arrayTrump|..], arrayOther[|t.arrayOther|..];
    assert ownBiden == BidenPcts(window) && ownTrump == TrumpPcts(window) && ownOther == OtherPcts(window);
    tally := tally.(lines := tally.lines + [StateLine(stateECV.state, stateECV.votes, endDate, averages,
                                          ShownTrend(rules.trends, arrayBiden, ownBiden),
                                          ShownTrend(rules.trends, arrayTrump, ownTrump),
                                          ShownTrend(rules.trends, arrayOther, ownOther), fa)]);
  }

  /**
   * The electoral-college report: every state of the table, in order, is
   * added to the running tally; an unsupported algorithm ends the report.
   */
  method ReportEC(table: seq<StateECV>, history: string -> seq<EcRow>, limit: int, alg: int, threshold: real, rules: Rules)
    returns (r: Result<Tally, ReportError>)
    ensures r == TallyOf(table, history, limit, ConfiguredStep(alg, threshold), rules)
  {
    var tally := EmptyTally;
    for si := 0 to |table|
      invariant TallyOf(table[..si], history, limit, ConfiguredStep(alg, threshold), rules) == Ok(tally)
    {
      assert table[..si + 1][..si] == table[..si];
      var next := AddState(tally, table[si], history(table[si].state), limit, alg, threshold, rules);
      if next.Err? {
        FoldErrorPersists(table, ReportStepOf(history, limit, ConfiguredStep(alg, threshold), rules), si + 1);
        return next;
      }
      tally := next.value;
    }
    assert table[..|table|] == table;
    return Ok(tally);
  }

  /** A row of the state report's query. */
  datatype ScRow = ScRow(state: string, endDate: string, pctBiden: real, pctTrump: real, pollster: string)

  /** A printed line of the state report. */
  datatype ScLine = ScLine(endDate: string, pctBiden: real, pctTrump: real, pctOther: real, pollster: string)

  /** The state report: one line per consumed row, most recent first. */
  function ScReport(rows: seq<ScRow>, limit: int): (lines: seq<ScLine>)
    ensures |lines| == WindowSize(|rows|, limit)
    ensures forall i :: 0 <= i < |lines| ==>
      && lines[i].endDate == rows[i].endDate
      && lines[i].pctBiden == rows[i].pctBiden
      && lines[i].pctTrump == rows[i].pctTrump
      && lines[i].pollster == rows[i].pollster
      && lines[i].pctBiden + lines[i].pctTrump + lines[i].pctOther == 100.0
  {
    seq(WindowSize(|rows|, limit), i requires 0 <= i < WindowSize(|rows|, limit) =>
      ScLine(rows[i].endDate, rows[i].pctBiden, rows[i].pctTrump, CalcOther(rows[i].pctBiden, rows[i].pctTrump), rows[i].pollster))
  }

  /** Walks the rows of one state, most recent first, and stops at the limit. */
  method ReportSC(rows: seq<ScRow>, limit: int) returns (lines: seq<ScLine>)
    ensures lines == ScReport(rows, limit)
  {
    var counter := 0;
    lines := [];
    while counter < |rows|
      invariant counter <= |rows|
      invariant counter == 0 || counter < limit
      invariant lines == ScReport(rows[..counter], limit)
      decreases |rows| - counter
    {
      var query := rows[counter];
      counter := counter + 1;
      var other := CalcOther(query.pctBiden, query.pctTrump);
      lines := lines + [ScLine(query.endDate, query.pctBiden, query.pctTrump, other, query.pollster)];
      if counter >= limit {
        break;
      }
    }
    ScReportPrefix(rows, counter, limit);
  }

  /** Within the limit, the report of a prefix of the rows is the whole prefix. */
  lemma ScReportPrefix(rows: seq<ScRow>, n: nat, limit: int)
    requires n <= |rows|
    requires n == |rows| || (n >= 1 && n >= limit)
    ensures ScReport(rows[..n], limit) == ScReport(rows, limit)
  {
  }
}
