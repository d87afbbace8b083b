/**
 * The award and trend kernel of the poll aggregator (helpers/utils.go): the
 * share of neither candidate, the three-point trend rule, the three
 * electoral-vote award algorithms, and the small lookup and cleaning helpers.
 * Percentages are reals; the tossup threshold is a parameter.
 */
module Utils {
  import opened Outcomes
  import opened Text
  import opened Global

  /** The share of the vote that went to neither candidate. */
  function CalcOther(dem: real, gop: real): (other: real)
    ensures dem + gop + other == 100.0
  {
    100.0 - (dem + gop)
  }

  function Abs(x: real): (r: real)
    ensures r >= 0.0 && (r == x || r == -x)
  {
    if x < 0.0 then -x else x
  }

  /**
   * The trend of the last three points: "u2"/"d2" for two rises/falls in a
   * row, "u1"/"d1" when only the last step rises/falls, "--" otherwise or
   * when there are fewer than three points.
   */
  function CalcTrend(a: seq<real>): (t: string)
    ensures |a| < 3 ==> t == "--"
  {
    var n := |a|;
    if n < 3 then "--"
    else if a[n - 1] > a[n - 2] then
      if a[n - 2] > a[n - 3] then "u2" else "u1"
    else if a[n - 1] < a[n - 2] then
      if a[n - 2] < a[n - 3] then "d2" else "d1"
    else "--"
  }

  /** Each trend holds exactly when its condition on the last three points does. */
  lemma TrendRule(a: seq<real>)
    ensures var t := CalcTrend(a); var n := |a|;
      && (t == "u2" <==> n >= 3 && a[n - 1] > a[n - 2] > a[n - 3])
      && (t == "u1" <==> n >= 3 && a[n - 1] > a[n - 2] && !(a[n - 2] > a[n - 3]))
      && (t == "d2" <==> n >= 3 && a[n - 1] < a[n - 2] < a[n - 3])
      && (t == "d1" <==> n >= 3 && a[n - 1] < a[n - 2] && !(a[n - 2] < a[n - 3]))
      && (t == "--" <==> n < 3 || a[n - 1] == a[n - 2])
  {
  }

  /** The trend depends on the last three points only. */
  lemma TrendOfSuffix(a: seq<real>, prefix: seq<real>)
    requires |a| >= 3
    ensures CalcTrend(prefix + a) == CalcTrend(a)
  {
    var b := prefix + a;
    assert b[|b| - 1] == a[|a| - 1] && b[|b| - 2] == a[|a| - 2] && b[|b| - 3] == a[|a| - 3];
  }

  function Negated(a: seq<real>): (b: seq<real>)
    ensures |b| == |a| && forall i :: 0 <= i < |a| ==> b[i] == -a[i]
  {
    seq(|a|, i requires 0 <= i < |a| => -a[i])
  }

  /** Mirroring the series turns rises into falls and falls into rises. */
  lemma TrendMirror(a: seq<real>)
    ensures CalcTrend(Negated(a)) == Mirror(CalcTrend(a))
  {
  }

  function Mirror(t: string): string
  {
    if t == "u1" then "d1" else if t == "u2" then "d2"
    else if t == "d1" then "u1" else if t == "d2" then "u2"
    else t
  }

  /** The flag printed beside a state: "**" when set, two spaces otherwise. */
  function FactorString(arg: bool): (s: string)
    ensures |s| == 2
    ensures s == "**" <==> arg
    ensures !arg ==> s == "  "
  {
    if arg then "**" else "  "
  }

  /** An award: the leader and the votes credited to Dem, Gop and tossup. */
  datatype Award = Award(leader: string, incDem: int, incGop: int, incTossup: int)

  /** An award with the flag printed beside it. */
  datatype FlaggedAward = FlaggedAward(award: Award, flag: string)

  /**
   * The state's votes go whole to the leader's column: "Dem", "Gop" or
   * "TOSSUP", with zero in the other two.
   */
  predicate Credits(a: Award, votes: int)
  {
    || (a.leader == "Dem" && a.incDem == votes && a.incGop == 0 && a.incTossup == 0)
    || (a.leader == "Gop" && a.incDem == 0 && a.incGop == votes && a.incTossup == 0)
    || (a.leader == "TOSSUP" && a.incDem == 0 && a.incGop == 0 && a.incTossup == votes)
  }

  /** Whatever the leader, the three increments add up to the state's votes. */
  lemma CreditsSum(a: Award, votes: int)
    requires Credits(a, votes)
    ensures a.incDem + a.incGop + a.incTossup == votes
  {
  }

  /** A candidate's share once the other share is split between the two in proportion. */
  function Reallocated(pct: real, other: real): real
  {
    pct + other * pct / 100.0
  }

  /** Both shares are scaled by the same factor, 1 + other / 100. */
  lemma ReallocatedScales(pct: real, other: real)
    ensures Reallocated(pct, other) == pct * (1.0 + other / 100.0)
  {
  }

  /**
   * Algorithm 1: the other share is shared out in proportion, then the state
   * is a tossup when the adjusted margin is below the threshold, and otherwise
   * goes to the larger adjusted share, ties to Gop.
   */
  function ECVAward1(stateVotes: int, pctDem: real, pctGop: real, threshold: real): (a: Award)
    ensures Credits(a, stateVotes)
    ensures var other := CalcOther(pctDem, pctGop);
      var dem := Reallocated(pctDem, other);
      var gop := Reallocated(pctGop, other);
      && (a.leader == "TOSSUP" <==> Abs(dem - gop) < threshold)
      && (a.leader == "Dem" <==> !(Abs(dem - gop) < threshold) && dem > gop)
  {
    var pctOther := CalcOther(pctDem, pctGop);
    var dem := Reallocated(pctDem, pctOther);
    var gop := Reallocated(pctGop, pctOther);
    var diff := Abs(dem - gop);
    if diff < threshold then Award("TOSSUP", 0, 0, stateVotes)
    else if dem > gop then Award("Dem", stateVotes, 0, 0)
    else Award("Gop", 0, stateVotes, 0)
  }

  /**
   * Algorithm 2: a tossup when the raw margin is below the threshold, else the
   * larger share wins, ties to Gop; the flag is "**" when the other share
   * exceeds the margin.
   */
  function ECVAward2(stateVotes: int, pctDem: real, pctGop: real, threshold: real): (r: FlaggedAward)
    ensures Credits(r.award, stateVotes)
    ensures var diff := Abs(pctDem - pctGop);
      && (r.award.leader == "TOSSUP" <==> diff < threshold)
      && (r.award.leader == "Dem" <==> !(diff < threshold) && pctDem > pctGop)
      && (r.flag == "**" <==> CalcOther(pctDem, pctGop) > diff)
      && (r.flag != "**" ==> r.flag == "  ")
      && |r.flag| == 2
  {
    var diff := Abs(pctDem - pctGop);
    var pctOther := CalcOther(pctDem, pctGop);
    if diff < threshold then FlaggedAward(Award("TOSSUP", 0, 0, stateVotes), FactorString(pctOther > diff))
    else if pctDem > pctGop then FlaggedAward(Award("Dem", stateVotes, 0, 0), FactorString(pctOther > diff))
    else FlaggedAward(Award("Gop", 0, stateVotes, 0), FactorString(pctOther > diff))
  }

  /**
   * Algorithm 3: a tossup flagged "**" when the other share exceeds the
   * margin, whatever the threshold; else as algorithm 2 with the flag " ".
   */
  function ECVAward3(stateVotes: int, pctDem: real, pctGop: real, threshold: real): (r: FlaggedAward)
    ensures Credits(r.award, stateVotes)
    ensures var diff := Abs(pctDem - pctGop);
      var other := CalcOther(pctDem, pctGop);
      && (r.award.leader == "TOSSUP" <==> other > diff || diff < threshold)
      && (r.award.leader == "Dem" <==> !(other > diff) && !(diff < threshold) && pctDem > pctGop)
      && (r.flag == "**" <==> other > diff)
      && (r.flag != "**" ==> r.flag == " ")
  {
    var diff := Abs(pctDem - pctGop);
    var pctOther := CalcOther(pctDem, pctGop);
    if pctOther > diff then FlaggedAward(Award("TOSSUP", 0, 0, stateVotes), FactorString(true))
    else if diff < threshold then FlaggedAward(Award("TOSSUP", 0, 0, stateVotes), " ")
    else if pctDem > pctGop then FlaggedAward(Award("Dem", stateVotes, 0, 0), " ")
    else FlaggedAward(Award("Gop", 0, stateVotes, 0), " ")
  }

  /** The flag of algorithm 2 never changes its award: algorithm 2's award is algorithm 3's with the flag test dropped. */
  lemma Award3StricterThanAward2(stateVotes: int, pctDem: real, pctGop: real, threshold: real)
    ensures ECVAward2(stateVotes, pctDem, pctGop, threshold).award.leader == "TOSSUP"
      ==> ECVAward3(stateVotes, pctDem, pctGop, threshold).award.leader == "TOSSUP"
    ensures ECVAward3(stateVotes, pctDem, pctGop, threshold).award.leader != "TOSSUP"
      ==> ECVAward3(stateVotes, pctDem, pctGop, threshold).award == ECVAward2(stateVotes, pctDem, pctGop, threshold).award
    ensures ECVAward2(stateVotes, pctDem, pctGop, threshold).flag != "**"
      ==> ECVAward3(stateVotes, pctDem, pctGop, threshold).award == ECVAward2(stateVotes, pctDem, pctGop, threshold).award
  {
  }

  /** A tie never goes to Dem, under any of the three algorithms. */
  lemma TiesNeverGoToDem(stateVotes: int, pct: real, threshold: real)
    ensures ECVAward1(stateVotes, pct, pct, threshold).leader != "Dem"
    ensures ECVAward2(stateVotes, pct, pct, threshold).award.leader != "Dem"
    ensures ECVAward3(stateVotes, pct, pct, threshold).award.leader != "Dem"
  {
  }

  /** Outside a tie, swapping the two shares swaps Dem and Gop and keeps a tossup. */
  lemma Award2Symmetric(stateVotes: int, pctDem: real, pctGop: real, threshold: real)
    requires pctDem != pctGop
    ensures var a := ECVAward2(stateVotes, pctDem, pctGop, threshold);
      var b := ECVAward2(stateVotes, pctGop, pctDem, threshold);
      && (a.award.leader == "TOSSUP" <==> b.award.leader == "TOSSUP")
      && (a.award.leader == "Dem" <==> b.award.leader == "Gop")
      && a.flag == b.flag
  {
  }

  /** A larger threshold can only turn decided states into tossups. */
  lemma ThresholdMonotone(stateVotes: int, pctDem: real, pctGop: real, t1: real, t2: real)
    requires t1 <= t2
    ensures ECVAward1(stateVotes, pctDem, pctGop, t1).leader == "TOSSUP"
      ==> ECVAward1(stateVotes, pctDem, pctGop, t2).leader == "TOSSUP"
    ensures ECVAward2(stateVotes, pctDem, pctGop, t1).award.leader == "TOSSUP"
      ==> ECVAward2(stateVotes, pctDem, pctGop, t2).award.leader == "TOSSUP"
    ensures ECVAward3(stateVotes, pctDem, pctGop, t1).award.leader == "TOSSUP"
      ==> ECVAward3(stateVotes, pctDem, pctGop, t2).award.leader == "TOSSUP"
  {
  }

  /**
   * While the two shares total less than 200, sharing out the other share
   * keeps the order of the raw shares, so algorithm 1 never hands the state
   * to the candidate with the smaller raw share.
   */
  lemma Award1KeepsDirection(stateVotes: int, pctDem: real, pctGop: real, threshold: real)
    requires pctDem + pctGop < 200.0
    ensures ECVAward1(stateVotes, pctDem, pctGop, threshold).leader == "Dem" ==> pctDem > pctGop
    ensures ECVAward1(stateVotes, pctDem, pctGop, threshold).leader == "Gop" ==> pctDem <= pctGop
  {
    var other := CalcOther(pctDem, pctGop);
    AdjustedMargin(pctDem, pctGop);
    var f := (200.0 - pctDem - pctGop) / 100.0;
    assert f > 0.0;
    if pctDem > pctGop {
      assert f * (pctDem - pctGop) > 0.0;
    } else {
      assert f * (pctGop - pctDem) >= 0.0;
    }
  }

  /** The adjusted margin is the raw margin scaled by (200 - dem - gop) / 100. */
  lemma AdjustedMargin(pctDem: real, pctGop: real)
    ensures var other := CalcOther(pctDem, pctGop);
      Reallocated(pctDem, other) - Reallocated(pctGop, other) == (pctDem - pctGop) * ((200.0 - pctDem - pctGop) / 100.0)
  {
    var other := CalcOther(pctDem, pctGop);
    ReallocatedScales(pctDem, other);
    ReallocatedScales(pctGop, other);
    assert 1.0 + other / 100.0 == (200.0 - pctDem - pctGop) / 100.0;
  }

  /**
   * While the shares total at most 100, algorithm 1 widens the margin, so a
   * state algorithm 2 decides is decided the same way by algorithm 1.
   */
  lemma Award1WidensMargin(stateVotes: int, pctDem: real, pctGop: real, threshold: real)
    requires pctDem + pctGop <= 100.0
    ensures ECVAward2(stateVotes, pctDem, pctGop, threshold).award.leader != "TOSSUP"
      ==> ECVAward1(stateVotes, pctDem, pctGop, threshold) == ECVAward2(stateVotes, pctDem, pctGop, threshold).award
  {
    var other := CalcOther(pctDem, pctGop);
    AdjustedMargin(pctDem, pctGop);
    var f := (200.0 - pctDem - pctGop) / 100.0;
    ScaledMargin(pctDem - pctGop, f);
  }

  /** Scaling by a factor of at least one keeps the sign and does not shrink the size. */
  lemma ScaledMargin(d: real, f: real)
    requires f >= 1.0
    ensures Abs(d * f) >= Abs(d)
    ensures d * f > 0.0 <==> d > 0.0
  {
    if d >= 0.0 {
      assert d * f - d == d * (f - 1.0);
      assert d * (f - 1.0) >= 0.0;
    } else {
      assert d * f - d == d * (f - 1.0);
      assert (-d) * (f - 1.0) >= 0.0;
    }
  }

  /** The three-letter month codes, January first. */
  const MonthList: seq<string> := ["JAN", "FEB", "MAR", "APR", "MAY", "JUN", "JUL", "AUG", "SEP", "OCT", "NOV", "DEC"]

  /** The position of the first occurrence of `x` in `list`, or -1. */
  function IndexOf(list: seq<string>, x: string): (i: int)
    ensures -1 <= i < |list|
    ensures i >= 0 ==> list[i] == x && forall j :: 0 <= j < i ==> list[j] != x
    ensures i < 0 <==> x !in list
    decreases |list|
  {
    if |list| == 0 then -1
    else if list[0] == x then 0
    else
      var j := IndexOf(list[1..], x);
      if j < 0 then -1 else j + 1
  }

  /** The first position holding `x` is the one IndexOf finds. */
  lemma IndexOfFirst(list: seq<string>, x: string, k: nat)
    requires k < |list| && list[k] == x
    requires forall j :: 0 <= j < k ==> list[j] != x
    ensures IndexOf(list, x) == k
  {
  }

  /** The month number of a month code, ignoring case, or the error naming the code. */
  function MonthOf(monthStr: string): (r: Result<int, string>)
    ensures r.Ok? ==> 1 <= r.value <= 12
  {
    var i := IndexOf(MonthList, ToUpper(monthStr));
    if i >= 0 then Ok(i + 1) else Err("invalid month string (" + monthStr + ")")
  }

  /**
   * A month number is the position, counted from 1, of the upper-cased code
   * in the month list; a string that is no month code gives the error naming it.
   */
  lemma MonthOfFinds(monthStr: string)
    ensures var r := MonthOf(monthStr);
      && (r.Ok? ==> MonthList[r.value - 1] == ToUpper(monthStr))
      && (r.Err? <==> ToUpper(monthStr) !in MonthList)
      && (r.Err? ==> r.error == "invalid month string (" + monthStr + ")")
  {
  }

  /** No two months share a code. */
  lemma MonthsDistinct()
    ensures forall i, j :: 0 <= i < j < 12 ==> MonthList[i] != MonthList[j]
  {
    forall i, j | 0 <= i < j < 12
      ensures MonthList[i] != MonthList[j]
    {
      assert MonthList[i][1..] != MonthList[j][1..];
    }
  }

  /** Each upper-case code JAN..DEC gives its month number 1..12. */
  lemma MonthCodes(i: nat)
    requires i < 12
    ensures MonthOf(MonthList[i]) == Ok(i + 1)
  {
    var code := MonthList[i];
    assert forall k :: 0 <= k < |code| ==> 'A' <= code[k] <= 'Z';
    ToUpperKeepsUpper(code);
    MonthsDistinct();
    IndexOfFirst(MonthList, code, i);
  }

  /** The month code is read without regard to case. */
  lemma MonthCaseInsensitive(monthStr: string)
    ensures MonthOf(monthStr).Ok? <==> MonthOf(ToUpper(monthStr)).Ok?
    ensures MonthOf(monthStr).Ok? ==> MonthOf(monthStr) == MonthOf(ToUpper(monthStr))
  {
    ToUpperIdempotent(monthStr);
    MonthOfFinds(monthStr);
    MonthOfFinds(ToUpper(monthStr));
  }

  /** Only a three-letter string can name a month. */
  lemma MonthCodeLength(monthStr: string)
    requires MonthOf(monthStr).Ok?
    ensures |monthStr| == 3
  {
    MonthOfFinds(monthStr);
    var m := MonthOf(monthStr).value;
    var code := MonthList[m - 1];
    assert |code| == 3;
    assert |ToUpper(monthStr)| == |code|;
  }

  /** Looks up a month code, case-insensitively, in the month list. */
  method MonthToInt(monthStr: string) returns (r: Result<int, string>)
    ensures r == MonthOf(monthStr)
  {
    var arg := ToUpper(monthStr);
    for ii := 0 to 12
      invariant forall j :: 0 <= j < ii ==> MonthList[j] != arg
    {
      if arg == MonthList[ii] {
        IndexOfFirst(MonthList, arg, ii);
        return Ok(ii + 1);
      }
    }
    assert arg !in MonthList;
    return Err("invalid month string (" + monthStr + ")");
  }

  /** A rune kept as it is: tab, newline, carriage return or printable ASCII. */
  predicate IsClean(c: char)
  {
    c == '\n' || c == '\r' || c == '\t' || 32 <= c as int <= 126
  }

  /** The rune after cleaning: kept if clean, '?' otherwise. */
  function CleanRune(c: char): char
  {
    if c == '\n' || c == '\r' || c == '\t' then c
    else if c as int > 126 || c as int < 32 then '?'
    else c
  }

  function Cleaned(s: string): seq<char>
  {
    seq(|s|, i requires 0 <= i < |s| => CleanRune(s[i]))
  }

  /** Cleaning keeps the length, keeps every clean rune and turns every other into '?'. */
  lemma CleanedRunes(s: string)
    ensures |Cleaned(s)| == |s|
    ensures forall i :: 0 <= i < |s| ==> IsClean(Cleaned(s)[i])
    ensures forall i :: 0 <= i < |s| ==> (IsClean(s[i]) <==> Cleaned(s)[i] == s[i])
    ensures forall i :: 0 <= i < |s| && !IsClean(s[i]) ==> Cleaned(s)[i] == '?'
  {
  }

  /** Clean text is left as it is, so cleaning twice is cleaning once. */
  lemma CleanedIdempotent(s: string)
    ensures Cleaned(Cleaned(s)) == Cleaned(s)
    ensures (forall i :: 0 <= i < |s| ==> IsClean(s[i])) ==> Cleaned(s) == s
  {
    CleanedRunes(s);
    CleanedRunes(Cleaned(s));
  }

  /** Replaces, in place in a rune buffer, every rune that is not clean by '?'. */
  method CleanerText(argText: string) returns (r: string)
    ensures r == Cleaned(argText)
  {
    var rr := new char[|argText|](i requires 0 <= i < |argText| => argText[i]);
    for ii := 0 to rr.Length
      invariant forall j :: 0 <= j < ii ==> rr[j] == CleanRune(argText[j])
      invariant forall j :: ii <= j < rr.Length ==> rr[j] == argText[j]
    {
      if rr[ii] == '\n' || rr[ii] == '\r' || rr[ii] == '\t' {
        continue;
      }
      if rr[ii] as int > 126 || rr[ii] as int < 32 {
        rr[ii] := '?';
      }
    }
    return rr[..];
  }

  /**
   * The votes of a state, looked up case-insensitively in the state table:
   * the first entry with that code, or the fatal error naming the code.
   */
  method StateToECV(glob: Globals, state: string) returns (r: Result<int, string>)
    ensures var arg := ToUpper(state);
      var table := glob.stateTable;
      && (r.Ok? <==> exists i :: 0 <= i < |table| && table[i].stcode == arg)
      && (r.Ok? ==> exists i :: 0 <= i < |table| && table[i].stcode == arg && table[i].votes == r.value
                      && forall j :: 0 <= j < i ==> table[j].stcode != arg)
      && (r.Err? ==> r.error == "StateToECV: invalid state code (" + state + ")")
  {
    var arg := ToUpper(state);
    for ii := 0 to |glob.stateTable|
      invariant forall j :: 0 <= j < ii ==> glob.stateTable[j].stcode != arg
    {
      if arg == glob.stateTable[ii].stcode {
        return Ok(glob.stateTable[ii].votes);
      }
    }
    return Err("StateToECV: invalid state code (" + state + ")");
  }

  /** Whether the target occurs in the slice. */
  method SearchSlice(slice: seq<string>, target: string) returns (found: bool)
    ensures found <==> target in slice
  {
    for ii := 0 to |slice|
      invariant target !in slice[..ii]
    {
      if slice[ii] == target {
        return true;
      }
      assert slice[..ii + 1] == slice[..ii] + [slice[ii]];
    }
    assert slice[..|slice|] == slice;
    return false;
  }
}
