/**
 * The pieces of Go's `strings` and `strconv` packages that the poll aggregator
 * relies on, over strings of Unicode scalar values (Go's runes).
 */
module Text {
  import opened Outcomes

  /** Go's unicode.IsSpace. */
  predicate IsSpace(c: char)
  {
    || c == ' ' || c == '\t' || c == '\n' || c == '\r' || c == '\U{0B}' || c == '\U{0C}'
    || c == '\U{85}' || c == '\U{A0}' || c == '\U{1680}'
    || ('\U{2000}' <= c <= '\U{200A}')
    || c == '\U{2028}' || c == '\U{2029}' || c == '\U{202F}' || c == '\U{205F}' || c == '\U{3000}'
  }

  /** Drops leading white space. */
  function TrimLeft(s: string): (r: string)
    ensures |r| <= |s|
    ensures r == [] || !IsSpace(r[0])
    decreases |s|
  {
    if |s| > 0 && IsSpace(s[0]) then TrimLeft(s[1..]) else s
  }

  /** Drops trailing white space. */
  function TrimRight(s: string): (r: string)
    ensures |r| <= |s|
    decreases |s|
  {
    if |s| > 0 && IsSpace(s[|s| - 1]) then TrimRight(s[..|s| - 1]) else s
  }

  /** strings.TrimSpace: the text with white space removed at both ends. */
  function TrimSpace(s: string): (r: string)
    ensures |r| <= |s|
  {
    TrimRight(TrimLeft(s))
  }

  /** The longest prefix of `s` that holds no white space. */
  function Word(s: string): (w: string)
    ensures |w| <= |s|
    ensures forall i :: 0 <= i < |w| ==> !IsSpace(w[i])
    ensures |w| == |s| || IsSpace(s[|w|])
    decreases |s|
  {
    if |s| == 0 || IsSpace(s[0]) then "" else [s[0]] + Word(s[1..])
  }

  /** A non-empty run of non-space characters. */
  predicate IsField(w: string)
  {
    |w| > 0 && forall i :: 0 <= i < |w| ==> !IsSpace(w[i])
  }

  /** strings.Fields: the maximal runs of non-space characters, in order. */
  function Fields(s: string): seq<string>
    decreases |s|
  {
    var t := TrimLeft(s);
    if t == [] then []
    else
      var w := Word(t);
      assert !IsSpace(t[0]);
      assert |w| > 0;
      [w] + Fields(t[|w|..])
  }

  /** Every field is a non-empty run of non-space characters. */
  lemma {:induction false} FieldsAreFields(s: string)
    ensures forall k :: 0 <= k < |Fields(s)| ==> IsField(Fields(s)[k])
    decreases |s|
  {
    var t := TrimLeft(s);
    if t != [] {
      var w := Word(t);
      FieldsAreFields(t[|w|..]);
      assert Fields(s) == [w] + Fields(t[|w|..]);
    }
  }

  /** strings.Split with a one-character separator. */
  function SplitOn(s: string, sep: char): (parts: seq<string>)
    ensures |parts| >= 1
    decreases |s|
  {
    if |s| == 0 then [""]
    else
      var rest := SplitOn(s[1..], sep);
      if s[0] == sep then [""] + rest
      else [[s[0]] + rest[0]] + rest[1..]
  }

  /** No part holds the separator. */
  lemma {:induction false} SplitPartsFree(s: string, sep: char)
    ensures forall k :: 0 <= k < |SplitOn(s, sep)| ==> sep !in SplitOn(s, sep)[k]
    decreases |s|
  {
    if |s| > 0 {
      SplitPartsFree(s[1..], sep);
    }
  }

  /** Text that does not start with the separator has a first part that starts with the text's first character. */
  lemma SplitFirstChar(s: string, sep: char)
    requires |s| > 0 && s[0] != sep
    ensures |SplitOn(s, sep)[0]| > 0 && SplitOn(s, sep)[0][0] == s[0]
  {
  }

  /** strings.Join with a one-character separator. */
  function JoinWith(parts: seq<string>, sep: char): string
    decreases |parts|
  {
    if |parts| == 0 then ""
    else if |parts| == 1 then parts[0]
    else parts[0] + [sep] + JoinWith(parts[1..], sep)
  }

  /** Splitting loses nothing: the parts joined back give the text. */
  lemma {:induction false} JoinSplit(s: string, sep: char)
    ensures JoinWith(SplitOn(s, sep), sep) == s
    decreases |s|
  {
    if |s| > 0 {
      JoinSplit(s[1..], sep);
      var rest := SplitOn(s[1..], sep);
      if s[0] == sep {
        assert SplitOn(s, sep)[1..] == rest;
      } else {
        var parts := SplitOn(s, sep);
        if |rest| == 1 {
          assert parts == [[s[0]] + rest[0]];
        } else {
          assert parts[1..] == rest[1..];
          assert JoinWith(rest, sep) == rest[0] + [sep] + JoinWith(rest[1..], sep);
        }
      }
    }
  }

  /** Text without the separator splits into itself alone. */
  lemma {:induction false} SplitWithoutSep(s: string, sep: char)
    requires sep !in s
    ensures SplitOn(s, sep) == [s]
    decreases |s|
  {
    if |s| > 0 {
      SplitWithoutSep(s[1..], sep);
      assert [s[0]] + s[1..] == s;
    }
  }

  /** Splitting at the first separator. */
  lemma {:induction false} SplitAtFirst(a: string, sep: char, b: string)
    requires sep !in a
    ensures SplitOn(a + [sep] + b, sep) == [a] + SplitOn(b, sep)
    decreases |a|
  {
    if |a| == 0 {
      assert a + [sep] + b == [sep] + b;
      assert ([sep] + b)[1..] == b;
    } else {
      var s := a + [sep] + b;
      assert s[1..] == a[1..] + [sep] + b;
      SplitAtFirst(a[1..], sep, b);
      assert [a[0]] + a[1..] == a;
    }
  }

  /** Joining parts that hold no separator and splitting again gives the parts back. */
  lemma {:induction false} SplitJoin(parts: seq<string>, sep: char)
    requires |parts| >= 1
    requires forall k :: 0 <= k < |parts| ==> sep !in parts[k]
    ensures SplitOn(JoinWith(parts, sep), sep) == parts
    decreases |parts|
  {
    if |parts| == 1 {
      SplitWithoutSep(parts[0], sep);
    } else {
      SplitJoin(parts[1..], sep);
      SplitAtFirst(parts[0], sep, JoinWith(parts[1..], sep));
    }
  }

  /** strings.HasPrefix. */
  predicate HasPrefix(s: string, prefix: string)
  {
    |prefix| <= |s| && s[..|prefix|] == prefix
  }

  /** unicode.ToUpper restricted to ASCII letters. */
  function UpperRune(c: char): char
  {
    if 'a' <= c <= 'z' then (c as int - 32) as char else c
  }

  /** strings.ToUpper, letter by letter. */
  function ToUpper(s: string): (u: string)
    ensures |u| == |s|
    ensures forall i :: 0 <= i < |s| ==> u[i] == UpperRune(s[i])
  {
    seq(|s|, i requires 0 <= i < |s| => UpperRune(s[i]))
  }

  /** Upper-casing twice is upper-casing once. */
  lemma ToUpperIdempotent(s: string)
    ensures ToUpper(ToUpper(s)) == ToUpper(s)
  {
    assert forall i :: 0 <= i < |s| ==> UpperRune(UpperRune(s[i])) == UpperRune(s[i]);
  }

  /** A string without lower-case letters is its own upper case. */
  lemma ToUpperKeepsUpper(s: string)
    requires forall k :: 0 <= k < |s| ==> !('a' <= s[k] <= 'z')
    ensures ToUpper(s) == s
  {
    assert forall k :: 0 <= k < |s| ==> ToUpper(s)[k] == s[k];
  }

  predicate IsDigit(c: char)
  {
    '0' <= c <= '9'
  }

  predicate AllDigits(s: string)
  {
    forall i :: 0 <= i < |s| ==> IsDigit(s[i])
  }

  function DigitValue(c: char): nat
    requires IsDigit(c)
  {
    c as int - '0' as int
  }

  function DigitChar(d: nat): (c: char)
    requires d < 10
    ensures IsDigit(c) && DigitValue(c) == d
  {
    ('0' as int + d) as char
  }

  /** The number a string of decimal digits denotes. */
  function DigitsValue(s: string): nat
    requires AllDigits(s)
    decreases |s|
  {
    if |s| == 0 then 0 else 10 * DigitsValue(s[..|s| - 1]) + DigitValue(s[|s| - 1])
  }

  const MinInt64: int := -0x8000_0000_0000_0000
  const MaxInt64: int := 0x7FFF_FFFF_FFFF_FFFF

  /**
   * strconv.ParseInt(s, 10, 64), which strconv.Atoi also is on a 64-bit platform:
   * an optional sign, then one or more decimal digits, and a value in int64 range.
   */
  function ParseInt(s: string): (r: Option<int>)
    ensures r.Some? ==> MinInt64 <= r.value <= MaxInt64
  {
    var negative := |s| > 0 && s[0] == '-';
    var digits := if |s| > 0 && (s[0] == '-' || s[0] == '+') then s[1..] else s;
    if |digits| == 0 || !AllDigits(digits) then None
    else
      var v: int := if negative then -(DigitsValue(digits) as int) else DigitsValue(digits);
      if MinInt64 <= v <= MaxInt64 then Some(v) else None
  }

  /** The decimal digits of `n`, without leading zeros. */
  function DecimalString(n: nat): (s: string)
    ensures |s| >= 1 && AllDigits(s)
    ensures DigitsValue(s) == n
    decreases n
  {
    if n < 10 then [DigitChar(n)]
    else
      var s := DecimalString(n / 10) + [DigitChar(n % 10)];
      assert s[..|s| - 1] == DecimalString(n / 10);
      s
  }

  /** fmt's "%02d": at least two characters, zero-padded after any sign. */
  function Pad2(n: int): string
  {
    if n < 0 then "-" + DecimalString(-n)
    else if n < 10 then "0" + DecimalString(n)
    else DecimalString(n)
  }

  /** A leading zero does not change the value of a digit string. */
  lemma {:induction false} LeadingZero(s: string)
    requires AllDigits(s)
    ensures AllDigits("0" + s) && DigitsValue("0" + s) == DigitsValue(s)
    decreases |s|
  {
    if |s| > 0 {
      var t := "0" + s;
      assert t[..|t| - 1] == "0" + s[..|s| - 1];
      LeadingZero(s[..|s| - 1]);
    }
  }

  /** "%02d" and ParseInt are inverse on the int64 range. */
  lemma Pad2RoundTrip(n: int)
    requires MinInt64 <= n <= MaxInt64
    ensures ParseInt(Pad2(n)) == Some(n)
  {
    if n < 0 {
      var s := Pad2(n);
      assert s[1..] == DecimalString(-n);
    } else if n < 10 {
      LeadingZero(DecimalString(n));
    }
  }

  /** Two-digit values print as exactly two characters. */
  lemma Pad2Width(n: int)
    requires 0 <= n < 100
    ensures |Pad2(n)| == 2
  {
    if n >= 10 {
      assert |DecimalString(n / 10)| == 1;
    }
  }

  /** Concatenation is associative; stated so that loop proofs need not rediscover it. */
  lemma AppendAssoc<T>(a: seq<T>, b: seq<T>, c: seq<T>)
    ensures (a + b) + c == a + (b + c)
  {
  }

  /** What `read` makes of every line of a text, each given its 1-based line number. */
  function ReadEach<T>(lines: seq<string>, read: (string, nat) -> T): (readings: seq<T>)
    ensures |readings| == |lines|
    decreases |lines|
  {
    if |lines| == 0 then []
    else ReadEach(lines[..|lines| - 1], read) + [read(lines[|lines| - 1], |lines|)]
  }

  /** The reading at position `i` is that of line number `i + 1`. */
  lemma {:induction false} ReadEachAt<T>(lines: seq<string>, read: (string, nat) -> T, i: nat)
    requires i < |lines|
    ensures ReadEach(lines, read)[i] == read(lines[i], i + 1)
    decreases |lines|
  {
    if i < |lines| - 1 {
      var init := lines[..|lines| - 1];
      ReadEachAt(init, read, i);
      assert init[i] == lines[i];
    }
  }

  /** The readings of a prefix of the lines are a prefix of the readings. */
  lemma {:induction false} ReadEachPrefix<T>(lines: seq<string>, read: (string, nat) -> T, n: nat)
    requires n <= |lines|
    ensures ReadEach(lines[..n], read) == ReadEach(lines, read)[..n]
    decreases |lines|
  {
    if n < |lines| {
      var init := lines[..|lines| - 1];
      ReadEachPrefix(init, read, n);
      assert init[..n] == lines[..n];
      assert ReadEach(lines, read)[..|lines| - 1] == ReadEach(init, read);
    } else {
      assert lines[..n] == lines;
    }
  }
}
