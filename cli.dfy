/**
 * The command line of the poll aggregator (main.go): the loop over the
 * arguments that sets the run flags and the report identifier, the warning
 * for -b without a report, and the choice between the two reports.
 * Showing help ends the run; the outcome records why.
 */
module Cli {
  import opened Outcomes
  import opened Text
  import opened Global

  /** The run flags set by the command line. */
  datatype Flags = Flags(fetch: bool, load: bool, plot: bool, report: bool, battleground: bool)

  /** The flags and the report identifier so far. */
  datatype ArgState = ArgState(flags: Flags, rpt: string)

  /** Why the help text was shown. */
  datatype HelpReason = MissingArguments | HelpRequested | MissingReportId | Unsupported(arg: string)

  /** The state the argument loop stopped in, and the reason help was shown if it was. */
  datatype ArgOutcome = ArgOutcome(state: ArgState, help: Option<HelpReason>)

  /** The report the run produces. */
  datatype ReportChoice = ElectoralCollege | StateReport(code: string)

  const NoFlags := Flags(false, false, false, false, false)

  /** An option that only sets a flag of its own. */
  predicate IsFlagOption(arg: string)
  {
    arg == "-f" || arg == "-l" || arg == "-p" || arg == "-b"
  }

  /** The flags after the flag option `arg`. */
  function SetFlag(f: Flags, arg: string): (g: Flags)
    requires IsFlagOption(arg)
    ensures g.fetch == (f.fetch || arg == "-f")
    ensures g.load == (f.load || arg == "-l")
    ensures g.plot == (f.plot || arg == "-p")
    ensures g.battleground == (f.battleground || arg == "-b")
    ensures g.report == f.report
  {
    if arg == "-f" then f.(fetch := true)
    else if arg == "-l" then f.(load := true)
    else if arg == "-p" then f.(plot := true)
    else f.(battleground := true)
  }

  /** The argument loop from position `ii` on. */
  function ScanFrom(params: seq<string>, ii: nat, st: ArgState): ArgOutcome
    requires ii <= |params|
    decreases |params| - ii
  {
    if ii == |params| then ArgOutcome(st, None)
    else
      var arg := params[ii];
      if arg == "-h" then ArgOutcome(st, Some(HelpRequested))
      else if IsFlagOption(arg) then ScanFrom(params, ii + 1, st.(flags := SetFlag(st.flags, arg)))
      else if arg == "-r" then
        if ii + 1 >= |params| then ArgOutcome(st, Some(MissingReportId))
        else ScanFrom(params, ii + 2, ArgState(st.flags.(report := true), ToUpper(params[ii + 1])))
      else ArgOutcome(st, Some(Unsupported(arg)))
  }

  /** The whole command line, starting from the flags as they were. */
  function ParseCommandLine(params: seq<string>, initial: Flags): ArgOutcome
  {
    if |params| < 1 then ArgOutcome(ArgState(initial, ""), Some(MissingArguments))
    else ScanFrom(params, 0, ArgState(initial, ""))
  }

  function FlagsOf(glob: Globals): Flags
    reads glob
  {
    Flags(glob.flagFetch, glob.flagLoad, glob.flagPlot, glob.flagReport, glob.flagBattleground)
  }

  /**
   * Reads the arguments left to right, setting the flags on the settings
   * object and the report identifier; -r takes the next argument as the
   * identifier. Help ends the loop where it is shown.
   */
  method ParseArgs(glob: Globals, params: seq<string>) returns (outcome: ArgOutcome)
    modifies glob`flagFetch, glob`flagLoad, glob`flagPlot, glob`flagReport, glob`flagBattleground
    ensures outcome == ParseCommandLine(params, old(FlagsOf(glob)))
    ensures FlagsOf(glob) == outcome.state.flags
  {
    var rpt := "";
    if |params| < 1 {
      return ArgOutcome(ArgState(FlagsOf(glob), rpt), Some(MissingArguments));
    }
    var ii := 0;
    while ii < |params|
      invariant ii <= |params|
      invariant ScanFrom(params, ii, ArgState(FlagsOf(glob), rpt)) == ParseCommandLine(params, old(FlagsOf(glob)))
      decreases |params| - ii
    {
      var arg := params[ii];
      if arg == "-h" {
        return ArgOutcome(ArgState(FlagsOf(glob), rpt), Some(HelpRequested));
      } else if arg == "-f" {
        glob.flagFetch := true;
      } else if arg == "-l" {
        glob.flagLoad := true;
      } else if arg == "-p" {
        glob.flagPlot := true;
      } else if arg == "-r" {
        ii := ii + 1;
        if ii >= |params| {
          return ArgOutcome(ArgState(FlagsOf(glob), rpt), Some(MissingReportId));
        }
        rpt := ToUpper(params[ii]);
        glob.flagReport := true;
      } else if arg == "-b" {
        glob.flagBattleground := true;
      } else {
        return ArgOutcome(ArgState(FlagsOf(glob), rpt), Some(Unsupported(arg)));
      }
      ii := ii + 1;
    }
    return ArgOutcome(ArgState(FlagsOf(glob), rpt), None);
  }

  /** An empty command line shows help. */
  lemma EmptyArgsShowHelp(initial: Flags)
    ensures ParseCommandLine([], initial).help == Some(MissingArguments)
  {
  }

  /** Scanning the tail of `p + q` past `p` is scanning `q`. */
  lemma {:induction false} ScanShift(p: seq<string>, q: seq<string>, j: nat, st: ArgState)
    requires j <= |q|
    ensures ScanFrom(p + q, |p| + j, st) == ScanFrom(q, j, st)
    decreases |q| - j
  {
    var params := p + q;
    if j < |q| {
      assert params[|p| + j] == q[j];
      var arg := q[j];
      if IsFlagOption(arg) {
        ScanShift(p, q, j + 1, st.(flags := SetFlag(st.flags, arg)));
      } else if arg == "-r" && j + 1 < |q| {
        assert params[|p| + j + 1] == q[j + 1];
        ScanShift(p, q, j + 2, ArgState(st.flags.(report := true), ToUpper(q[j + 1])));
      }
    }
  }

  /**
   * A prefix that scans to its end without help leaves the rest of the
   * command line to be scanned from the state it reached.
   */
  lemma {:induction false} ScanConcat(p: seq<string>, q: seq<string>, ii: nat, st: ArgState)
    requires ii <= |p|
    requires ScanFrom(p, ii, st).help.None?
    ensures ScanFrom(p + q, ii, st) == ScanFrom(q, 0, ScanFrom(p, ii, st).state)
    decreases |p| - ii
  {
    var params := p + q;
    if ii == |p| {
      ScanShift(p, q, 0, st);
    } else {
      assert params[ii] == p[ii];
      var arg := p[ii];
      if IsFlagOption(arg) {
        ScanConcat(p, q, ii + 1, st.(flags := SetFlag(st.flags, arg)));
      } else {
        assert arg == "-r" && ii + 1 < |p|;
        assert params[ii + 1] == p[ii + 1];
        ScanConcat(p, q, ii + 2, ArgState(st.flags.(report := true), ToUpper(p[ii + 1])));
      }
    }
  }

  /**
   * Without -r, an option scan that shows no help sets exactly the flags of
   * the options given, sets no report and keeps the identifier.
   */
  lemma {:induction false} FlagsOfOptions(params: seq<string>, ii: nat, st: ArgState)
    requires ii <= |params|
    requires "-r" !in params[ii..]
    requires ScanFrom(params, ii, st).help.None?
    ensures var f := ScanFrom(params, ii, st).state.flags;
      && f.fetch == (st.flags.fetch || "-f" in params[ii..])
      && f.load == (st.flags.load || "-l" in params[ii..])
      && f.plot == (st.flags.plot || "-p" in params[ii..])
      && f.battleground == (st.flags.battleground || "-b" in params[ii..])
      && f.report == st.flags.report
      && ScanFrom(params, ii, st).state.rpt == st.rpt
    decreases |params| - ii
  {
    if ii < |params| {
      assert params[ii..] == [params[ii]] + params[ii + 1..];
      FlagsOfOptions(params, ii + 1, st.(flags := SetFlag(st.flags, params[ii])));
    }
  }

  /** Repeating a flag option changes nothing. */
  lemma RepeatedFlagIdempotent(p: seq<string>, arg: string, q: seq<string>, st: ArgState)
    requires IsFlagOption(arg)
    requires ScanFrom(p, 0, st).help.None?
    ensures ScanFrom(p + [arg, arg] + q, 0, st) == ScanFrom(p + [arg] + q, 0, st)
  {
    var s1 := ScanFrom(p, 0, st).state;
    assert p + [arg, arg] + q == p + ([arg, arg] + q);
    assert p + [arg] + q == p + ([arg] + q);
    ScanConcat(p, [arg, arg] + q, 0, st);
    ScanConcat(p, [arg] + q, 0, st);
    var s2 := s1.(flags := SetFlag(s1.flags, arg));
    assert s2.(flags := SetFlag(s2.flags, arg)) == s2;
    ScanShift([arg, arg], q, 0, s2);
    ScanShift([arg], q, 0, s2);
  }

  /**
   * A -r followed by no other -r decides the report: the identifier is the
   * last one given, upper-cased, and the report flag is set.
   */
  lemma LastReportWins(p: seq<string>, id: string, q: seq<string>, st: ArgState)
    requires ScanFrom(p, 0, st).help.None?
    requires "-r" !in q
    requires ScanFrom(p + ["-r", id] + q, 0, st).help.None?
    ensures ScanFrom(p + ["-r", id] + q, 0, st).state.rpt == ToUpper(id)
    ensures ScanFrom(p + ["-r", id] + q, 0, st).state.flags.report
  {
    var s1 := ScanFrom(p, 0, st).state;
    assert p + ["-r", id] + q == p + (["-r", id] + q);
    ScanConcat(p, ["-r", id] + q, 0, st);
    var s2 := ArgState(s1.flags.(report := true), ToUpper(id));
    ScanShift(["-r", id], q, 0, s2);
    assert q[0..] == q;
    FlagsOfOptions(q, 0, s2);
  }

  /**
   * After a prefix that shows no help, -h, any unknown argument, or -r with
   * nothing after it shows help, and the scan stops there.
   */
  lemma HelpStopsScan(p: seq<string>, arg: string, q: seq<string>, st: ArgState)
    requires ScanFrom(p, 0, st).help.None?
    requires !IsFlagOption(arg) && (arg != "-r" || q == [])
    ensures ScanFrom(p + [arg] + q, 0, st)
      == ArgOutcome(ScanFrom(p, 0, st).state,
                    Some(if arg == "-h" then HelpRequested else if arg == "-r" then MissingReportId else Unsupported(arg)))
  {
    assert p + [arg] + q == p + ([arg] + q);
    ScanConcat(p, [arg] + q, 0, st);
  }

  /** The -b warning: a battleground restriction with no report to restrict. */
  function BattlegroundWarning(f: Flags): (w: bool)
    ensures w ==> f.battleground
    ensures f.report ==> !w
    ensures f.battleground && !f.report ==> w
  {
    f.battleground && !f.report
  }

  /**
   * With no -r on a command line that shows no help, the warning is given
   * exactly when -b is among the arguments, and it leaves the flags as they are.
   */
  lemma WarningWithoutReport(params: seq<string>)
    requires "-r" !in params
    requires ParseCommandLine(params, NoFlags).help.None?
    ensures BattlegroundWarning(ParseCommandLine(params, NoFlags).state.flags) <==> "-b" in params
  {
    assert params[0..] == params;
    FlagsOfOptions(params, 0, ArgState(NoFlags, ""));
  }

  /** The report run after the command line: none, the electoral college, or one state. */
  function Dispatch(st: ArgState): (r: Option<ReportChoice>)
    ensures r.None? <==> !st.flags.report
    ensures r == Some(ElectoralCollege) <==> st.flags.report && st.rpt == "EC"
    ensures r.Some? && r.value.StateReport? <==> st.flags.report && st.rpt != "EC"
    ensures r.Some? && r.value.StateReport? ==> r.value.code == st.rpt
  {
    if !st.flags.report then None
    else if st.rpt == "EC" then Some(ElectoralCollege)
    else Some(StateReport(st.rpt))
  }

  /** The -b warning is given exactly when -b is set and no report will run. */
  lemma WarningIffNoReport(st: ArgState)
    ensures BattlegroundWarning(st.flags) <==> st.flags.battleground && Dispatch(st).None?
  {
  }

  /**
   * `-r ID` alone runs the electoral-college report exactly when ID is "ec"
   * in any case, and the report for state ID upper-cased otherwise.
   */
  lemma ReportIdChoosesReport(id: string)
    ensures var outcome := ParseCommandLine(["-r", id], NoFlags);
      && outcome.help.None?
      && (Dispatch(outcome.state) == Some(ElectoralCollege) <==> ToUpper(id) == "EC")
      && (ToUpper(id) != "EC" ==> Dispatch(outcome.state) == Some(StateReport(ToUpper(id))))
  {
    var params := ["-r", id];
    var st := ArgState(NoFlags.(report := true), ToUpper(id));
    assert ScanFrom(params, 2, st) == ArgOutcome(st, None);
    assert ScanFrom(params, 0, ArgState(NoFlags, "")) == ScanFrom(params, 2, st);
  }
}
