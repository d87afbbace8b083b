/**
 * The process-wide settings and the state table read at start-up
 * (global/global.go): one entry per state with its electoral votes and its
 * category, and the three category lists built alongside it.
 */
module Global {
  import opened Outcomes
  import opened Text

  /** A calendar instant, for the placeholder date below. */
  datatype Time = Time(year: int, month: int, day: int, hour: int, minute: int, second: int)

  /** The placeholder date used before a configured date threshold is read. */
  const DummyTime: Time := Time(1776, 7, 4, 23, 59, 59)

  /** One line of the state table: state code, electoral votes, category. */
  datatype StateTableEntry = StateTableEntry(stcode: string, votes: int, category: string)

  /** Why the state table was rejected; `line` is the 1-based physical line. */
  datatype TableError =
    | NotTriplet(line: nat)
    | BadVotes(line: nat)
    | UnsupportedCategory(line: nat, category: string)
  {
    function Line(): nat
    {
      match this
      case NotTriplet(n) => n
      case BadVotes(n) => n
      case UnsupportedCategory(n, _) => n
    }
  }

  /** What one physical line of the table contributes. */
  datatype TableLine = Blank | Entry(entry: StateTableEntry) | Malformed(error: TableError)

  predicate IsCategory(c: string)
  {
    c == "B" || c == "D" || c == "G"
  }

  /** The reading of the physical line numbered `lineCount`. */
  function ParseTableLine(raw: string, lineCount: nat): (r: TableLine)
    ensures r.Blank? <==> |TrimSpace(raw)| == 0 || HasPrefix(TrimSpace(raw), "#")
    ensures r.Entry? ==> var f := Fields(TrimSpace(raw));
      && |f| == 3 && f[0] == r.entry.stcode && ParseInt(f[1]) == Some(r.entry.votes)
      && f[2] == r.entry.category && IsCategory(r.entry.category)
    ensures r.Entry? <==> && !r.Blank? && |Fields(TrimSpace(raw))| == 3
                          && ParseInt(Fields(TrimSpace(raw))[1]).Some? && IsCategory(Fields(TrimSpace(raw))[2])
    ensures r.Malformed? ==> r.error.Line() == lineCount
    ensures r.Malformed? && r.error.NotTriplet? <==> !r.Blank? && |Fields(TrimSpace(raw))| != 3
  {
    var line := TrimSpace(raw);
    if |line| < 1 || HasPrefix(line, "#") then Blank
    else
      var triplet := Fields(line);
      if |triplet| != 3 then Malformed(NotTriplet(lineCount))
      else
        match ParseInt(triplet[1])
        case None => Malformed(BadVotes(lineCount))
        case Some(votes) =>
          if IsCategory(triplet[2]) then Entry(StateTableEntry(triplet[0], votes, triplet[2]))
          else Malformed(UnsupportedCategory(lineCount, triplet[2]))
  }

  /** The reading of every physical line, numbered from 1. */
  function ReadLines(lines: seq<string>): (readings: seq<TableLine>)
    ensures |readings| == |lines|
  {
    ReadEach(lines, ParseTableLine)
  }

  /** The reading at position `i` is that of line number `i + 1`. */
  lemma ReadLinesAt(lines: seq<string>, i: nat)
    requires i < |lines|
    ensures ReadLines(lines)[i] == ParseTableLine(lines[i], i + 1)
  {
    ReadEachAt(lines, ParseTableLine, i);
  }

  /** The readings of a prefix of the lines are a prefix of the readings. */
  lemma ReadLinesPrefix(lines: seq<string>, n: nat)
    requires n <= |lines|
    ensures ReadLines(lines[..n]) == ReadLines(lines)[..n]
  {
    ReadEachPrefix(lines, ParseTableLine, n);
  }

  /** The table the readings give, or the first malformed reading's error. */
  function FoldTable(readings: seq<TableLine>): Result<seq<StateTableEntry>, TableError>
    decreases |readings|
  {
    if |readings| == 0 then Ok([])
    else ApplyLine(FoldTable(readings[..|readings| - 1]), readings[|readings| - 1])
  }

  /** The table the lines of the state table file give, or the first line's error. */
  function StateTableOf(lines: seq<string>): Result<seq<StateTableEntry>, TableError>
  {
    FoldTable(ReadLines(lines))
  }

  /** The table so far, extended by one line's reading. */
  function ApplyLine(sofar: Result<seq<StateTableEntry>, TableError>, line: TableLine): Result<seq<StateTableEntry>, TableError>
  {
    match sofar
    case Err(e) => Err(e)
    case Ok(table) =>
      match line
      case Blank => Ok(table)
      case Entry(e) => Ok(table + [e])
      case Malformed(e) => Err(e)
  }

  /** One more reading extends the table, is skipped, or rejects it. */
  lemma FoldStep(readings: seq<TableLine>, n: nat)
    requires n < |readings|
    ensures FoldTable(readings[..n + 1]) == ApplyLine(FoldTable(readings[..n]), readings[n])
  {
    assert readings[..n + 1][..n] == readings[..n];
  }

  /** Once a prefix of the readings is rejected, so is the whole table, with the same error. */
  lemma {:induction false} ErrorPersists(readings: seq<TableLine>, n: nat)
    requires n <= |readings|
    requires FoldTable(readings[..n]).Err?
    ensures FoldTable(readings) == FoldTable(readings[..n])
    decreases |readings| - n
  {
    if n < |readings| {
      var init := readings[..|readings| - 1];
      assert init[..n] == readings[..n];
      ErrorPersists(init, n);
    } else {
      assert readings[..n] == readings;
    }
  }

  /** The codes of the entries of one category, in table order. */
  function CodesIn(table: seq<StateTableEntry>, category: string): seq<string>
    decreases |table|
  {
    if |table| == 0 then []
    else
      var last := table[|table| - 1];
      CodesIn(table[..|table| - 1], category) + (if last.category == category then [last.stcode] else [])
  }

  lemma CodesInSnoc(table: seq<StateTableEntry>, e: StateTableEntry, c: string)
    ensures CodesIn(table + [e], c) == CodesIn(table, c) + (if e.category == c then [e.stcode] else [])
  {
    assert (table + [e])[..|table|] == table;
  }

  /** The number of readings that the table reader skips. */
  function CountBlank(readings: seq<TableLine>): nat
    decreases |readings|
  {
    if |readings| == 0 then 0
    else CountBlank(readings[..|readings| - 1]) + (if readings[|readings| - 1].Blank? then 1 else 0)
  }

  /** The entries of the readings that are entries, in file order. */
  function EntriesOf(readings: seq<TableLine>): seq<StateTableEntry>
    decreases |readings|
  {
    if |readings| == 0 then []
    else
      var last := readings[|readings| - 1];
      EntriesOf(readings[..|readings| - 1]) + (if last.Entry? then [last.entry] else [])
  }

  class Globals {
    var battleground: seq<string>
    var stronglyDem: seq<string>
    var stronglyGop: seq<string>
    var stateTable: seq<StateTableEntry>
    var flagBattleground: bool
    var flagFetch: bool
    var flagLoad: bool
    var flagPlot: bool
    var flagReport: bool

    /** The settings before the state table and the command line are read. */
    constructor ()
      ensures battleground == [] && stronglyDem == [] && stronglyGop == [] && stateTable == []
      ensures !flagBattleground && !flagFetch && !flagLoad && !flagPlot && !flagReport
    {
      battleground, stronglyDem, stronglyGop, stateTable := [], [], [], [];
      flagBattleground, flagFetch, flagLoad, flagPlot, flagReport := false, false, false, false, false;
    }

    /**
     * Reads the state table file's text line by line, appending an entry per
     * accepted line and its code to the list of its category; the first
     * malformed line ends the run.
     */
    method LoadStateTable(allTheLines: string) returns (err: Option<TableError>)
      modifies this`battleground, this`stronglyDem, this`stronglyGop, this`stateTable
      ensures match StateTableOf(SplitOn(allTheLines, '\n'))
        case Err(e) => err == Some(e)
        case Ok(entries) =>
          && err == None
          && stateTable == old(stateTable) + entries
          && battleground == old(battleground) + CodesIn(entries, "B")
          && stronglyDem == old(stronglyDem) + CodesIn(entries, "D")
          && stronglyGop == old(stronglyGop) + CodesIn(entries, "G")
    {
      var lineSplice := SplitOn(allTheLines, '\n');
      err := LoadStateLines(lineSplice);
    }

    /** The line loop of LoadStateTable, over the text already split at newlines. */
    method LoadStateLines(lineSplice: seq<string>) returns (err: Option<TableError>)
      modifies this`battleground, this`stronglyDem, this`stronglyGop, this`stateTable
      ensures match FoldTable(ReadLines(lineSplice))
        case Err(e) => err == Some(e)
        case Ok(entries) =>
          && err == None
          && stateTable == old(stateTable) + entries
          && battleground == old(battleground) + CodesIn(entries, "B")
          && stronglyDem == old(stronglyDem) + CodesIn(entries, "D")
          && stronglyGop == old(stronglyGop) + CodesIn(entries, "G")
    {
      var lineCount := 0;
      ghost var added: seq<StateTableEntry> := [];
      ghost var readings := ReadLines(lineSplice);
      while lineCount < |lineSplice|
        invariant 0 <= lineCount <= |lineSplice|
        invariant FoldTable(readings[..lineCount]) == Ok(added)
        invariant stateTable == old(stateTable) + added
        invariant battleground == old(battleground) + CodesIn(added, "B")
        invariant stronglyDem == old(stronglyDem) + CodesIn(added, "D")
        invariant stronglyGop == old(stronglyGop) + CodesIn(added, "G")
      {
        FoldStep(readings, lineCount);
        var read := ReadLineAt(lineSplice, lineCount);
        lineCount := lineCount + 1;
        match read
        case Blank =>
        case Malformed(e) =>
          ErrorPersists(readings, lineCount);
          return Some(e);
        case Entry(entry) =>
          AppendEntry(entry);
          CodesInSnoc(added, entry, "B");
          CodesInSnoc(added, entry, "D");
          CodesInSnoc(added, entry, "G");
          AppendAssoc(old(stateTable), added, [entry]);
          AppendAssoc(old(battleground), CodesIn(added, "B"), if entry.category == "B" then [entry.stcode] else []);
          AppendAssoc(old(stronglyDem), CodesIn(added, "D"), if entry.category == "D" then [entry.stcode] else []);
          AppendAssoc(old(stronglyGop), CodesIn(added, "G"), if entry.category == "G" then [entry.stcode] else []);
          added := added + [entry];
      }
      assert readings[..lineCount] == readings;
      return None;
    }

    /** Appends an entry to the table and its code to the list of its category. */
    method AppendEntry(entry: StateTableEntry)
      requires IsCategory(entry.category)
      modifies this`battleground, this`stronglyDem, this`stronglyGop, this`stateTable
      ensures stateTable == old(stateTable) + [entry]
      ensures battleground == old(battleground) + (if entry.category == "B" then [entry.stcode] else [])
      ensures stronglyDem == old(stronglyDem) + (if entry.category == "D" then [entry.stcode] else [])
      ensures stronglyGop == old(stronglyGop) + (if entry.category == "G" then [entry.stcode] else [])
    {
      assert "B" != "D" && "B" != "G" && "D" != "G" by {
        assert "B"[0] != "D"[0] && "B"[0] != "G"[0] && "D"[0] != "G"[0];
      }
      stateTable := stateTable + [entry];
      if entry.category == "B" {
        battleground := battleground + [entry.stcode];
      } else if entry.category == "D" {
        stronglyDem := stronglyDem + [entry.stcode];
      } else {
        stronglyGop := stronglyGop + [entry.stcode];
      }
    }
  }

  /**
   * The reading of one physical line: blank and comment lines are skipped, a
   * line must hold three fields, an integer vote count and a known category.
   */
  method ReadTableLine(raw: string, lineCount: nat) returns (read: TableLine)
    ensures read == ParseTableLine(raw, lineCount)
    ensures read.Entry? ==> IsCategory(read.entry.category)
    ensures read.Malformed? ==> read.error.Line() == lineCount
  {
    var line := TrimSpace(raw);
    if |line| < 1 || HasPrefix(line, "#") {
      return Blank;
    }
    var triplet := Fields(line);
    if |triplet| != 3 {
      return Malformed(NotTriplet(lineCount));
    }
    var votesValue := ParseInt(triplet[1]);
    if votesValue.None? {
      return Malformed(BadVotes(lineCount));
    }
    if !IsCategory(triplet[2]) {
      return Malformed(UnsupportedCategory(lineCount, triplet[2]));
    }
    return Entry(StateTableEntry(triplet[0], votesValue.value, triplet[2]));
  }

  /** A line read as an entry carries one of the three categories. */
  lemma EntryHasCategory(raw: string, lineCount: nat)
    requires ParseTableLine(raw, lineCount).Entry?
    ensures IsCategory(ParseTableLine(raw, lineCount).entry.category)
  {
  }

  /** A malformed line's error carries that line's number. */
  lemma MalformedNamesLine(raw: string, lineCount: nat)
    requires ParseTableLine(raw, lineCount).Malformed?
    ensures ParseTableLine(raw, lineCount).error.Line() == lineCount
  {
  }

  /** Over readings whose entries all have a known category, the three lists partition the table. */
  lemma {:induction false} FoldPartitions(readings: seq<TableLine>)
    requires FoldTable(readings).Ok?
    requires forall i :: 0 <= i < |readings| && readings[i].Entry? ==> IsCategory(readings[i].entry.category)
    ensures var t := FoldTable(readings).value;
      && (forall k :: 0 <= k < |t| ==> IsCategory(t[k].category))
      && |CodesIn(t, "B")| + |CodesIn(t, "D")| + |CodesIn(t, "G")| == |t|
    decreases |readings|
  {
    if |readings| > 0 {
      var init := readings[..|readings| - 1];
      FoldPartitions(init);
      var t0 := FoldTable(init).value;
      var t := FoldTable(readings).value;
      if t != t0 {
        assert t[..|t| - 1] == t0;
      }
    }
  }

  /** Reads the line at position `k` of the file, which is line number `k + 1`. */
  method ReadLineAt(lines: seq<string>, k: nat) returns (read: TableLine)
    requires k < |lines|
    ensures read == ReadLines(lines)[k]
    ensures read.Entry? ==> IsCategory(read.entry.category)
  {
    read := ReadTableLine(lines[k], k + 1);
    ReadLinesAt(lines, k);
  }

  /**
   * An accepted table holds only the three categories, so every state sits in
   * exactly one of the three lists and the lists together are as long as the table.
   */
  lemma CategoriesPartitionTable(lines: seq<string>)
    requires StateTableOf(lines).Ok?
    ensures var t := StateTableOf(lines).value;
      && (forall k :: 0 <= k < |t| ==> IsCategory(t[k].category))
      && |CodesIn(t, "B")| + |CodesIn(t, "D")| + |CodesIn(t, "G")| == |t|
  {
    var readings := ReadLines(lines);
    forall i | 0 <= i < |readings| && readings[i].Entry?
      ensures IsCategory(readings[i].entry.category)
    {
      ReadingHasCategory(lines, i);
    }
    FoldPartitions(readings);
  }

  /** The reading of an accepted line carries one of the three categories. */
  lemma ReadingHasCategory(lines: seq<string>, i: nat)
    requires i < |lines| && ReadLines(lines)[i].Entry?
    ensures IsCategory(ReadLines(lines)[i].entry.category)
  {
    ReadLinesAt(lines, i);
    EntryHasCategory(lines[i], i + 1);
  }

  /** An accepted fold holds the entries of the entry readings, in order, and no malformed one. */
  lemma {:induction false} FoldCounts(readings: seq<TableLine>)
    requires FoldTable(readings).Ok?
    ensures FoldTable(readings).value == EntriesOf(readings)
    ensures |FoldTable(readings).value| + CountBlank(readings) == |readings|
    ensures forall k :: 0 <= k < |readings| ==> !readings[k].Malformed?
    decreases |readings|
  {
    if |readings| > 0 {
      var init := readings[..|readings| - 1];
      FoldCounts(init);
      forall k | 0 <= k < |readings| - 1
        ensures !readings[k].Malformed?
      {
        assert readings[k] == init[k];
      }
    }
  }

  /**
   * An accepted table holds the entries of the lines that are neither blank
   * nor a comment, one per line in file order, and no line is malformed.
   */
  lemma OneEntryPerAcceptedLine(lines: seq<string>)
    requires StateTableOf(lines).Ok?
    ensures StateTableOf(lines).value == EntriesOf(ReadLines(lines))
    ensures |StateTableOf(lines).value| + CountBlank(ReadLines(lines)) == |lines|
    ensures forall k :: 0 <= k < |lines| ==> !ParseTableLine(lines[k], k + 1).Malformed?
  {
    FoldCounts(ReadLines(lines));
    forall k | 0 <= k < |lines|
      ensures !ParseTableLine(lines[k], k + 1).Malformed?
    {
      ReadLinesAt(lines, k);
    }
  }

  /** A rejected fold comes from its first malformed reading, after an accepted prefix. */
  lemma {:induction false} FoldErrorAt(readings: seq<TableLine>)
    requires FoldTable(readings).Err?
    ensures exists n :: 0 <= n < |readings| && FoldTable(readings[..n]).Ok? && readings[n] == Malformed(FoldTable(readings).error)
    decreases |readings|
  {
    var init := readings[..|readings| - 1];
    if FoldTable(init).Err? {
      FoldErrorAt(init);
      var n :| 0 <= n < |init| && FoldTable(init[..n]).Ok? && init[n] == Malformed(FoldTable(init).error);
      assert readings[..n] == init[..n];
    } else {
      assert readings[..|readings| - 1] == init;
    }
  }

  /**
   * A rejected table names the 1-based number of the first malformed line:
   * every line before it is acceptable.
   */
  lemma ErrorNamesFirstBadLine(lines: seq<string>)
    requires StateTableOf(lines).Err?
    ensures var e := StateTableOf(lines).error;
      && 1 <= e.Line() <= |lines|
      && StateTableOf(lines[..e.Line() - 1]).Ok?
      && ParseTableLine(lines[e.Line() - 1], e.Line()) == Malformed(e)
  {
    var readings := ReadLines(lines);
    FoldErrorAt(readings);
    var n :| 0 <= n < |readings| && FoldTable(readings[..n]).Ok? && readings[n] == Malformed(FoldTable(readings).error);
    ReadingNamesLine(lines, n);
    ReadLinesPrefix(lines, n);
  }

  /** A malformed reading is that of its line, and its error names that line's number. */
  lemma ReadingNamesLine(lines: seq<string>, n: nat)
    requires n < |lines| && ReadLines(lines)[n].Malformed?
    ensures ParseTableLine(lines[n], n + 1) == ReadLines(lines)[n]
    ensures ReadLines(lines)[n].error.Line() == n + 1
  {
    ReadLinesAt(lines, n);
    MalformedNamesLine(lines[n], n + 1);
  }
}
