/**
 * The poll-file loader (helpers/load.go): each line of the poll file holds
 * space-separated columns (state, Dem %, Gop %, an ignored column, start
 * month, start day, end month, end day, pollster words), and becomes one
 * stored poll record. Storing into the database is modelled as appending to
 * a sequence; float parsing is a parameter.
 */
module Load {
  import opened Outcomes
  import opened Text
  import opened Utils

  /** One stored poll: the fields of the database row. */
  datatype PollRecord = PollRecord(state: string, startDate: string, endDate: string, pctDem: real, pctGop: real, pollster: string)

  /** What is wrong with a line that stops the load. */
  datatype LineFault =
    | TooFewColumns(ncols: nat)
    | BadDemPct
    | BadGopPct
    | BadStartMonth(reason: string)
    | BadStartDay
    | BadEndMonth(reason: string)
    | BadEndDay

  /** Why loading stopped: the 1-based physical line and its fault. */
  datatype LoadError = LoadError(line: nat, fault: LineFault)

  /** What one physical line contributes. */
  datatype PollLine = Skipped | Stored(record: PollRecord) | Failed(fault: LineFault)

  /** Why a month column and a day column do not make a date. */
  datatype DateFault = BadMonth(reason: string) | BadDay

  /** The records stored and the count of lines read, as the final log line reports it. */
  datatype LoadSummary = LoadSummary(stored: seq<PollRecord>, lineCounter: nat)

  /** The date "2024-MM-DD" with both numbers printed as by "%02d". */
  function DateOf(month: int, day: int): string
  {
    "2024-" + Pad2(month) + "-" + Pad2(day)
  }

  /** A built date reads back: year 2024, then the month in two characters, then the day. */
  lemma DateRoundTrip(month: int, day: int)
    requires 1 <= month <= 12
    requires MinInt64 <= day <= MaxInt64
    ensures var s := DateOf(month, day);
      && |s| >= 9
      && s[..5] == "2024-" && s[7] == '-'
      && ParseInt(s[5..7]) == Some(month)
      && ParseInt(s[8..]) == Some(day)
  {
    Pad2Width(month);
    Pad2RoundTrip(month);
    Pad2RoundTrip(day);
    DateLayout(Pad2(month), Pad2(day));
  }

  /** Where the parts of a date sit in it. */
  lemma DateLayout(month: string, day: string)
    requires |month| == 2
    ensures var s := "2024-" + month + "-" + day;
      && |s| == 8 + |day|
      && s[..5] == "2024-" && s[5..7] == month && s[7] == '-' && s[8..] == day
  {
    var s := "2024-" + month + "-" + day;
    assert s[..5] == "2024-";
    assert s[5..7] == month;
    assert s[8..] == day;
  }

  /** The date a month code column and a day number column give. */
  function ParseDate(monthCol: string, dayCol: string): Result<string, DateFault>
  {
    match MonthOf(monthCol)
    case Err(why) => Err(BadMonth(why))
    case Ok(month) =>
      match ParseInt(dayCol)
      case None => Err(BadDay)
      case Some(day) => Ok(DateOf(month, day))
  }

  /** A date built from two columns reads back to the month code's number and the day column's value. */
  lemma DateReadsBack(monthCol: string, dayCol: string)
    requires ParseDate(monthCol, dayCol).Ok?
    ensures var date := ParseDate(monthCol, dayCol).value;
      && MonthOf(monthCol).Ok? && ParseInt(dayCol).Some?
      && |date| >= 9 && date[..5] == "2024-" && date[7] == '-'
      && ParseInt(date[5..7]) == Some(MonthOf(monthCol).value)
      && ParseInt(date[8..]) == ParseInt(dayCol)
  {
    DateRoundTrip(MonthOf(monthCol).value, ParseInt(dayCol).value);
  }

  /** The reading of a line already split into its columns. */
  function ParseColumns(colArray: seq<string>, parseFloat: string -> Option<real>): (r: PollLine)
    ensures r.Skipped? <==> |colArray| < 1 || HasPrefix(colArray[0], "#")
    ensures |colArray| >= 1 && !HasPrefix(colArray[0], "#") && |colArray| < 9 ==> r == Failed(TooFewColumns(|colArray|))
    ensures r.Stored? ==> && |colArray| >= 9 && r.record.state == ToUpper(colArray[0])
                          && parseFloat(colArray[1]) == Some(r.record.pctDem) && parseFloat(colArray[2]) == Some(r.record.pctGop)
    ensures r.Failed? && r.fault.TooFewColumns? ==> r.fault.ncols == |colArray| < 9
  {
    if |colArray| < 1 || HasPrefix(colArray[0], "#") then Skipped
    else if |colArray| < 9 then Failed(TooFewColumns(|colArray|))
    else if parseFloat(colArray[1]).None? then Failed(BadDemPct)
    else if parseFloat(colArray[2]).None? then Failed(BadGopPct)
    else
      match ParseDate(colArray[4], colArray[5])
      case Err(f) => Failed(if f.BadMonth? then BadStartMonth(f.reason) else BadStartDay)
      case Ok(startDate) =>
        match ParseDate(colArray[6], colArray[7])
        case Err(f) => Failed(if f.BadMonth? then BadEndMonth(f.reason) else BadEndDay)
        case Ok(endDate) =>
          Stored(PollRecord(ToUpper(colArray[0]), startDate, endDate,
                            parseFloat(colArray[1]).value, parseFloat(colArray[2]).value,
                            JoinWith(colArray[8..], ' ')))
  }

  /** The reading of one physical line of the poll file. */
  function ParsePollLine(raw: string, parseFloat: string -> Option<real>): (r: PollLine)
    ensures r.Skipped? <==> |TrimSpace(raw)| == 0 || HasPrefix(TrimSpace(raw), "#")
    ensures |TrimSpace(raw)| > 0 && !HasPrefix(TrimSpace(raw), "#") && |SplitOn(TrimSpace(raw), ' ')| < 9
      ==> r == Failed(TooFewColumns(|SplitOn(TrimSpace(raw), ' ')|))
    ensures r.Stored? ==> var cols := SplitOn(TrimSpace(raw), ' ');
      && |cols| >= 9 && r.record.state == ToUpper(cols[0])
      && parseFloat(cols[1]) == Some(r.record.pctDem) && parseFloat(cols[2]) == Some(r.record.pctGop)
    ensures r.Failed? && r.fault.TooFewColumns? ==> r.fault.ncols == |SplitOn(TrimSpace(raw), ' ')| < 9
  {
    var oneLine := TrimSpace(raw);
    if |oneLine| < 1 then Skipped
    else
      FirstColumnComment(oneLine);
      ParseColumns(SplitOn(oneLine, ' '), parseFloat)
  }

  /** The first column of a non-empty text starts with '#' exactly when the text does. */
  lemma FirstColumnComment(s: string)
    requires |s| > 0
    ensures HasPrefix(SplitOn(s, ' ')[0], "#") <==> HasPrefix(s, "#")
  {
    if s[0] != ' ' {
      SplitFirstChar(s, ' ');
    }
  }

  /**
   * A line with content and at least nine columns is checked column by column
   * in file order: the Dem share, the Gop share, the start month and day, the
   * end month and day. The first that does not parse stops the load with its
   * fault, and a line whose columns all parse is stored.
   */
  lemma PollLineVerdict(raw: string, parseFloat: string -> Option<real>)
    requires |TrimSpace(raw)| > 0 && !HasPrefix(TrimSpace(raw), "#")
    requires |SplitOn(TrimSpace(raw), ' ')| >= 9
    ensures var cols := SplitOn(TrimSpace(raw), ' ');
      var r := ParsePollLine(raw, parseFloat);
      var shares := parseFloat(cols[1]).Some? && parseFloat(cols[2]).Some?;
      && (parseFloat(cols[1]).None? ==> r == Failed(BadDemPct))
      && (parseFloat(cols[1]).Some? && parseFloat(cols[2]).None? ==> r == Failed(BadGopPct))
      && (shares && MonthOf(cols[4]).Err? ==> r == Failed(BadStartMonth(MonthOf(cols[4]).error)))
      && (shares && MonthOf(cols[4]).Ok? && ParseInt(cols[5]).None? ==> r == Failed(BadStartDay))
      && (shares && ParseDate(cols[4], cols[5]).Ok? && MonthOf(cols[6]).Err? ==>
            r == Failed(BadEndMonth(MonthOf(cols[6]).error)))
      && (shares && ParseDate(cols[4], cols[5]).Ok? && MonthOf(cols[6]).Ok? && ParseInt(cols[7]).None? ==>
            r == Failed(BadEndDay))
      && (r.Stored? <==> shares && ParseDate(cols[4], cols[5]).Ok? && ParseDate(cols[6], cols[7]).Ok?)
  {
    FirstColumnComment(TrimSpace(raw));
  }

  /** A line whose text starts with '#' is a comment and is skipped. */
  lemma CommentLinesSkipped(raw: string, parseFloat: string -> Option<real>)
    requires HasPrefix(TrimSpace(raw), "#")
    ensures ParsePollLine(raw, parseFloat) == Skipped
  {
    var oneLine := TrimSpace(raw);
    assert oneLine[0] == '#';
    SplitFirstChar(oneLine, ' ');
  }

  /** The fourth column does not affect the reading. */
  lemma ColumnThreeIgnored(colArray: seq<string>, parseFloat: string -> Option<real>, other: string)
    requires |colArray| > 3
    ensures ParseColumns(colArray[3 := other], parseFloat) == ParseColumns(colArray, parseFloat)
  {
    var c := colArray[3 := other];
    if |colArray| >= 9 {
      assert c[8..] == colArray[8..];
    }
  }

  /**
   * Columns split at single spaces, as a line's are, hold no space; a stored
   * record decodes back to the columns it came from: the upper-cased
   * state, the two shares as parsed, dates that read back to the month codes
   * and day numbers given, and a pollster that splits back into columns 8 on.
   */
  lemma StoredRecordReadsBack(colArray: seq<string>, parseFloat: string -> Option<real>)
    requires forall k :: 0 <= k < |colArray| ==> ' ' !in colArray[k]
    requires ParseColumns(colArray, parseFloat).Stored?
    ensures var rec := ParseColumns(colArray, parseFloat).record;
      && |colArray| >= 9 && !HasPrefix(colArray[0], "#")
      && rec.state == ToUpper(colArray[0]) && ToUpper(rec.state) == rec.state
      && parseFloat(colArray[1]) == Some(rec.pctDem)
      && parseFloat(colArray[2]) == Some(rec.pctGop)
      && MonthOf(colArray[4]).Ok? && ParseInt(colArray[5]).Some?
      && |rec.startDate| >= 9 && rec.startDate[..5] == "2024-"
      && ParseInt(rec.startDate[5..7]) == Some(MonthOf(colArray[4]).value)
      && ParseInt(rec.startDate[8..]) == ParseInt(colArray[5])
      && MonthOf(colArray[6]).Ok? && ParseInt(colArray[7]).Some?
      && |rec.endDate| >= 9 && rec.endDate[..5] == "2024-"
      && ParseInt(rec.endDate[5..7]) == Some(MonthOf(colArray[6]).value)
      && ParseInt(rec.endDate[8..]) == ParseInt(colArray[7])
      && SplitOn(rec.pollster, ' ') == colArray[8..]
  {
    var start := ParseDate(colArray[4], colArray[5]);
    var end := ParseDate(colArray[6], colArray[7]);
    var tail := colArray[8..];
    assert |colArray| >= 9 && parseFloat(colArray[1]).Some? && parseFloat(colArray[2]).Some?;
    assert start.Ok?;
    assert end.Ok?;
    assert ParseColumns(colArray, parseFloat).record
      == PollRecord(ToUpper(colArray[0]), start.value, end.value,
                    parseFloat(colArray[1]).value, parseFloat(colArray[2]).value, JoinWith(tail, ' '));
    ToUpperIdempotent(colArray[0]);
    DateReadsBack(colArray[4], colArray[5]);
    DateReadsBack(colArray[6], colArray[7]);
    assert forall k :: 0 <= k < |tail| ==> ' ' !in tail[k];
    SplitJoin(tail, ' ');
  }

  /** The reading of every physical line, in file order. */
  function ReadPollLines(lines: seq<string>, parseFloat: string -> Option<real>): (readings: seq<PollLine>)
    ensures |readings| == |lines|
  {
    ReadEach(lines, (raw: string, lineNumber: nat) => ParsePollLine(raw, parseFloat))
  }

  /** The reading at position `i` is that of the line at position `i`. */
  lemma ReadPollLinesAt(lines: seq<string>, parseFloat: string -> Option<real>, i: nat)
    requires i < |lines|
    ensures ReadPollLines(lines, parseFloat)[i] == ParsePollLine(lines[i], parseFloat)
  {
    ReadEachAt(lines, (raw: string, lineNumber: nat) => ParsePollLine(raw, parseFloat), i);
  }

  /** The records stored for the readings, or the first failure with its 1-based line number. */
  function FoldLoad(readings: seq<PollLine>): Result<seq<PollRecord>, LoadError>
    decreases |readings|
  {
    if |readings| == 0 then Ok([])
    else ApplyPoll(FoldLoad(readings[..|readings| - 1]), readings[|readings| - 1], |readings|)
  }

  /** The records so far, extended by the reading of line number `lineCounter`. */
  function ApplyPoll(sofar: Result<seq<PollRecord>, LoadError>, line: PollLine, lineCounter: nat): Result<seq<PollRecord>, LoadError>
  {
    match sofar
    case Err(e) => Err(e)
    case Ok(stored) =>
      match line
      case Skipped => Ok(stored)
      case Stored(rec) => Ok(stored + [rec])
      case Failed(f) => Err(LoadError(lineCounter, f))
  }

  /** What loading the poll file's text yields. */
  function LoadOf(fileText: string, parseFloat: string -> Option<real>): Result<LoadSummary, LoadError>
  {
    var pollTable := SplitOn(fileText, '\n');
    match FoldLoad(ReadPollLines(pollTable, parseFloat))
    case Ok(stored) => Ok(LoadSummary(stored, |pollTable|))
    case Err(e) => Err(e)
  }

  lemma FoldLoadStep(readings: seq<PollLine>, n: nat)
    requires n < |readings|
    ensures FoldLoad(readings[..n + 1]) == ApplyPoll(FoldLoad(readings[..n]), readings[n], n + 1)
  {
    assert readings[..n + 1][..n] == readings[..n];
  }

  /** Once a prefix of the readings fails, loading fails with the same error. */
  lemma {:induction false} LoadErrorPersists(readings: seq<PollLine>, n: nat)
    requires n <= |readings|
    requires FoldLoad(readings[..n]).Err?
    ensures FoldLoad(readings) == FoldLoad(readings[..n])
    decreases |readings| - n
  {
    if n < |readings| {
      var init := readings[..|readings| - 1];
      assert init[..n] == readings[..n];
      LoadErrorPersists(init, n);
    } else {
      assert readings[..n] == readings;
    }
  }

  /** The number of skipped readings. */
  function CountSkipped(readings: seq<PollLine>): nat
    decreases |readings|
  {
    if |readings| == 0 then 0
    else CountSkipped(readings[..|readings| - 1]) + (if readings[|readings| - 1].Skipped? then 1 else 0)
  }

  /** The records of the stored readings, in order. */
  function StoredRecords(readings: seq<PollLine>): seq<PollRecord>
    decreases |readings|
  {
    if |readings| == 0 then []
    else
      var last := readings[|readings| - 1];
      StoredRecords(readings[..|readings| - 1]) + (if last.Stored? then [last.record] else [])
  }

  /**
   * A successful load stores exactly one record per line that is not skipped,
   * those lines' records in file order, and no line failed.
   */
  lemma {:induction false} OneStorePerLine(readings: seq<PollLine>)
    requires FoldLoad(readings).Ok?
    ensures FoldLoad(readings).value == StoredRecords(readings)
    ensures |FoldLoad(readings).value| + CountSkipped(readings) == |readings|
    ensures forall k :: 0 <= k < |readings| ==> !readings[k].Failed?
    decreases |readings|
  {
    if |readings| > 0 {
      var init := readings[..|readings| - 1];
      OneStorePerLine(init);
      forall k | 0 <= k < |readings| - 1
        ensures !readings[k].Failed?
      {
        assert readings[k] == init[k];
      }
    }
  }

  /** A failed load names the first failing reading by its 1-based number, after a prefix that loads. */
  lemma {:induction false} LoadFailsAtFirstBadLine(readings: seq<PollLine>)
    requires FoldLoad(readings).Err?
    ensures var e := FoldLoad(readings).error;
      && 1 <= e.line <= |readings|
      && FoldLoad(readings[..e.line - 1]).Ok?
      && readings[e.line - 1] == Failed(e.fault)
    decreases |readings|
  {
    var init := readings[..|readings| - 1];
    if FoldLoad(init).Err? {
      LoadFailsAtFirstBadLine(init);
      var n := FoldLoad(init).error.line;
      assert readings[..n - 1] == init[..n - 1];
      assert readings[n - 1] == init[n - 1];
    } else {
      assert readings[..|readings| - 1] == init;
    }
  }

  /** The readings of a prefix of the lines are a prefix of the readings. */
  lemma ReadPollLinesPrefix(lines: seq<string>, parseFloat: string -> Option<real>, n: nat)
    requires n <= |lines|
    ensures ReadPollLines(lines[..n], parseFloat) == ReadPollLines(lines, parseFloat)[..n]
  {
    ReadEachPrefix(lines, (raw: string, lineNumber: nat) => ParsePollLine(raw, parseFloat), n);
  }

  /**
   * A failed load reports the 1-based number of the first bad line of the
   * file and that line's fault, and the lines before it load.
   */
  lemma LoadErrorNamesLine(lines: seq<string>, parseFloat: string -> Option<real>)
    requires FoldLoad(ReadPollLines(lines, parseFloat)).Err?
    ensures var e := FoldLoad(ReadPollLines(lines, parseFloat)).error;
      && 1 <= e.line <= |lines|
      && ParsePollLine(lines[e.line - 1], parseFloat) == Failed(e.fault)
      && FoldLoad(ReadPollLines(lines[..e.line - 1], parseFloat)).Ok?
  {
    var readings := ReadPollLines(lines, parseFloat);
    LoadFailsAtFirstBadLine(readings);
    var n := FoldLoad(readings).error.line - 1;
    ReadPollLinesAt(lines, parseFloat, n);
    ReadPollLinesPrefix(lines, parseFloat, n);
  }

  /**
   * Reads one line into the shared poll record, overwriting it field by field;
   * the previous contents of the record never reach the result.
   */
  method ReadPollLine(raw: string, pollFields: PollRecord, parseFloat: string -> Option<real>)
    returns (read: PollLine)
    ensures read == ParsePollLine(raw, parseFloat)
  {
    var oneLine := TrimSpace(raw);
    if |oneLine| < 1 {
      return Skipped;
    }
    var colArray := SplitOn(oneLine, ' ');
    if |colArray| < 1 {
      return Skipped;
    }
    if HasPrefix(colArray[0], "#") {
      return Skipped;
    }
    if |colArray| < 9 {
      return Failed(TooFewColumns(|colArray|));
    }
    var fields := pollFields.(state := ToUpper(colArray[0]));
    var dem := parseFloat(colArray[1]);
    if dem.None? {
      return Failed(BadDemPct);
    }
    fields := fields.(pctDem := dem.value);
    var gop := parseFloat(colArray[2]);
    if gop.None? {
      return Failed(BadGopPct);
    }
    fields := fields.(pctGop := gop.value);
    var month := MonthToInt(colArray[4]);
    if month.Err? {
      return Failed(BadStartMonth(month.error));
    }
    var day := ParseInt(colArray[5]);
    if day.None? {
      return Failed(BadStartDay);
    }
    fields := fields.(startDate := DateOf(month.value, day.value));
    month := MonthToInt(colArray[6]);
    if month.Err? {
      return Failed(BadEndMonth(month.error));
    }
    day := ParseInt(colArray[7]);
    if day.None? {
      return Failed(BadEndDay);
    }
    fields := fields.(endDate := DateOf(month.value, day.value));
    fields := fields.(pollster := JoinWith(colArray[8..], ' '));
    return Stored(fields);
  }

  /** Reads the line at position `k` of the file. */
  method ReadPollLineAt(lines: seq<string>, k: nat, pollFields: PollRecord, parseFloat: string -> Option<real>)
    returns (read: PollLine)
    requires k < |lines|
    ensures read == ReadPollLines(lines, parseFloat)[k]
  {
    read := ReadPollLine(lines[k], pollFields, parseFloat);
    ReadPollLinesAt(lines, parseFloat, k);
  }

  /**
   * Splits the file's text into lines and stores one record per line that is
   * neither blank nor a comment; the first bad line stops the load.
   */
  method Load(fileText: string, parseFloat: string -> Option<real>) returns (r: Result<LoadSummary, LoadError>)
    ensures r == LoadOf(fileText, parseFloat)
  {
    var pollTable := SplitOn(fileText, '\n');
    var pollFields := PollRecord("", "", "", 0.0, 0.0, "");
    var stored: seq<PollRecord> := [];
    var lineCounter := 0;
    ghost var readings := ReadPollLines(pollTable, parseFloat);
    while lineCounter < |pollTable|
      invariant 0 <= lineCounter <= |pollTable|
      invariant FoldLoad(readings[..lineCounter]) == Ok(stored)
    {
      FoldLoadStep(readings, lineCounter);
      var read := ReadPollLineAt(pollTable, lineCounter, pollFields, parseFloat);
      lineCounter := lineCounter + 1;
      match read
      case Skipped =>
      case Failed(f) =>
        LoadErrorPersists(readings, lineCounter);
        return Err(LoadError(lineCounter, f));
      case Stored(record) =>
        pollFields := record;
        stored := stored + [pollFields];
    }
    assert readings[..lineCounter] == readings;
    return Ok(LoadSummary(stored, lineCounter));
  }
}
