/**
 * The string operations the dashboard relies on: decimal rendering of counts
 * (template literals), String.prototype.split and Array.prototype.join with a
 * one-character separator, String.prototype.trim, and the "N unit[s]"
 * phrases of the relative-time texts. Decimal rendering, the "N unit[s]"
 * phrases and split/join come with a reader or inverse and round-trip lemmas.
 */
module Text {
  import opened Wrappers

  /** Milliseconds in a minute: both relative-time texts floor their millisecond gap to this unit. */
  const MinuteMs: int := 60000

  predicate IsDigit(c: char) { '0' <= c <= '9' }

  predicate AllDigits(s: string) { forall i :: 0 <= i < |s| ==> IsDigit(s[i]) }

  function DigitOf(c: char): (d: nat)
    requires IsDigit(c)
    ensures d < 10
  {
    c as int - '0' as int
  }

  function DigitChar(d: nat): (c: char)
    requires d < 10
    ensures IsDigit(c) && DigitOf(c) == d
  {
    ('0' as int + d) as char
  }

  /** Decimal rendering of a natural number, without sign or leading zeros. */
  function Show(n: nat): (s: string)
    ensures |s| > 0 && AllDigits(s)
    ensures |s| > 1 ==> s[0] != '0'
  {
    if n < 10 then [DigitChar(n)] else Show(n / 10) + [DigitChar(n % 10)]
  }

  /** The number a string of decimal digits denotes. */
  function DigitsValue(s: string): nat
    requires AllDigits(s)
  {
    if s == [] then 0 else DigitsValue(s[..|s| - 1]) * 10 + DigitOf(s[|s| - 1])
  }

  lemma {:induction false} ShowValue(n: nat)
    ensures DigitsValue(Show(n)) == n
  {
    var s := Show(n);
    if n < 10 {
      assert s[..|s| - 1] == [];
    } else {
      assert s[..|s| - 1] == Show(n / 10);
      ShowValue(n / 10);
    }
  }

  /** Different numbers never render alike. */
  lemma ShowInjective(m: nat, n: nat)
    requires Show(m) == Show(n)
    ensures m == n
  {
    ShowValue(m);
    ShowValue(n);
  }

  /** The length of the run of digits that starts s. */
  function DigitRun(s: string): (k: nat)
    ensures k <= |s| && AllDigits(s[..k])
    ensures k == |s| || !IsDigit(s[k])
  {
    if s == [] || !IsDigit(s[0]) then 0
    else
      var k := 1 + DigitRun(s[1..]);
      assert s[..k] == [s[0]] + s[1..][..k - 1];
      k
  }

  lemma {:induction false} DigitRunOfDigits(d: string, rest: string)
    requires AllDigits(d)
    requires rest == [] || !IsDigit(rest[0])
    ensures DigitRun(d + rest) == |d|
  {
    if d != [] {
      assert (d + rest)[1..] == d[1..] + rest;
      DigitRunOfDigits(d[1..], rest);
    }
  }

  /** The decimal number at the head of s, and the text after it. */
  function ReadNat(s: string): Option<(nat, string)>
  {
    var k := DigitRun(s);
    if k == 0 then None else Some((DigitsValue(s[..k]), s[k..]))
  }

  lemma ReadShow(n: nat, rest: string)
    requires rest == [] || !IsDigit(rest[0])
    ensures ReadNat(Show(n) + rest) == Some((n, rest))
  {
    var d := Show(n);
    DigitRunOfDigits(d, rest);
    assert (d + rest)[..|d|] == d;
    assert (d + rest)[|d|..] == rest;
    ShowValue(n);
  }

  predicate StartsWith(s: string, prefix: string)
  {
    |prefix| <= |s| && s[..|prefix|] == prefix
  }

  /** The English noun for a count: the plural exactly when the count is not 1. */
  function Noun(unit: string, n: nat): string
  {
    unit + (if n == 1 then "" else "s")
  }

  /**
   * Reads a phrase "<n> <unit>" or "<n> <unit>s" at the head of s, accepting
   * only the form Noun gives for n; yields n and the text that follows.
   */
  function ReadCount(s: string, unit: string): Option<(nat, string)>
  {
    match ReadNat(s)
    case None => None
    case Some((n, rest)) =>
      var word := " " + Noun(unit, n);
      if StartsWith(rest, word) then Some((n, rest[|word|..])) else None
  }

  lemma ReadCountRoundTrip(n: nat, unit: string, rest: string)
    ensures ReadCount(Show(n) + " " + Noun(unit, n) + rest, unit) == Some((n, rest))
  {
    var word := " " + Noun(unit, n);
    assert Show(n) + " " + Noun(unit, n) + rest == Show(n) + (word + rest);
    ReadShow(n, word + rest);
    assert (word + rest)[..|word|] == word;
    assert (word + rest)[|word|..] == rest;
  }

  /**
   * A phrase for one unit is never read as a phrase for a unit that differs
   * from it in the first letter.
   */
  lemma ReadCountOtherUnit(n: nat, unit: string, other: string, rest: string)
    requires |unit| > 0 && |other| > 0 && unit[0] != other[0]
    ensures ReadCount(Show(n) + " " + Noun(unit, n) + rest, other) == None
  {
    var word := " " + Noun(unit, n);
    assert Show(n) + " " + Noun(unit, n) + rest == Show(n) + (word + rest);
    ReadShow(n, word + rest);
    var w := " " + Noun(other, n);
    assert |w| >= 2 && w[1] == other[0];
    assert (word + rest)[1] == unit[0];
  }

  /** The number of times c occurs in s. */
  function Occurrences(s: string, c: char): nat
  {
    if s == [] then 0 else (if s[0] == c then 1 else 0) + Occurrences(s[1..], c)
  }

  /**
   * String.prototype.split with a one-character separator: every occurrence
   * cuts, so "" gives [""] and two adjacent separators give an empty piece.
   */
  function Split(s: string, sep: char): (parts: seq<string>)
    ensures |parts| == Occurrences(s, sep) + 1
    ensures forall i :: 0 <= i < |parts| ==> sep !in parts[i]
  {
    if s == [] then [""]
    else
      var tail := Split(s[1..], sep);
      if s[0] == sep then [""] + tail
      else [[s[0]] + tail[0]] + tail[1..]
  }

  /** Array.prototype.join with a one-character separator. */
  function Join(parts: seq<string>, sep: char): string
  {
    if |parts| == 0 then ""
    else if |parts| == 1 then parts[0]
    else parts[0] + [sep] + Join(parts[1..], sep)
  }

  lemma JoinCons(p: string, parts: seq<string>, sep: char)
    requires |parts| > 0
    ensures Join([p] + parts, sep) == p + [sep] + Join(parts, sep)
  {
    assert ([p] + parts)[1..] == parts;
  }

  /** Splitting loses nothing: joining the pieces gives the string back. */
  lemma {:induction false} JoinSplit(s: string, sep: char)
    ensures Join(Split(s, sep), sep) == s
  {
    if s != [] {
      var tail := Split(s[1..], sep);
      JoinSplit(s[1..], sep);
      if s[0] == sep {
        JoinCons("", tail, sep);
        assert s == [sep] + s[1..];
      } else {
        var head := [s[0]] + tail[0];
        if |tail| == 1 {
          assert Split(s, sep) == [head];
        } else {
          assert Split(s, sep) == [head] + tail[1..];
          JoinCons(head, tail[1..], sep);
          assert tail == [tail[0]] + tail[1..];
          JoinCons(tail[0], tail[1..], sep);
        }
      }
    }
  }

  /** A piece without the separator, put in front of more text, extends its first piece. */
  lemma {:induction false} SplitPrefix(a: string, b: string, sep: char)
    requires sep !in a
    ensures Split(a + b, sep) == [a + Split(b, sep)[0]] + Split(b, sep)[1..]
  {
    if a != [] {
      assert (a + b)[1..] == a[1..] + b;
      SplitPrefix(a[1..], b, sep);
      var t := Split(a[1..] + b, sep);
      assert a[0] != sep && (a + b)[0] == a[0];
      assert Split(a + b, sep) == [[a[0]] + t[0]] + t[1..];
      assert t[0] == a[1..] + Split(b, sep)[0] && t[1..] == Split(b, sep)[1..];
      assert [a[0]] + (a[1..] + Split(b, sep)[0]) == a + Split(b, sep)[0];
    } else {
      assert a + b == b;
      assert a + Split(b, sep)[0] == Split(b, sep)[0];
      assert Split(b, sep) == [Split(b, sep)[0]] + Split(b, sep)[1..];
    }
  }

  /** Joining pieces that do not contain the separator and splitting again gives the pieces back. */
  lemma {:induction false} SplitJoin(parts: seq<string>, sep: char)
    requires |parts| > 0
    requires forall i :: 0 <= i < |parts| ==> sep !in parts[i]
    ensures Split(Join(parts, sep), sep) == parts
  {
    if |parts| == 1 {
      SplitPrefix(parts[0], "", sep);
      assert parts[0] + "" == parts[0];
    } else {
      var rest := Join(parts[1..], sep);
      SplitJoin(parts[1..], sep);
      assert parts[0] + [sep] + rest == parts[0] + ([sep] + rest);
      SplitPrefix(parts[0], [sep] + rest, sep);
      assert ([sep] + rest)[1..] == rest;
      assert Split([sep] + rest, sep) == [""] + Split(rest, sep);
      assert Join(parts, sep) == parts[0] + [sep] + rest;
      assert parts[0] + "" == parts[0];
      assert parts == [parts[0]] + parts[1..];
    }
  }

  /** The characters String.prototype.trim removes: ECMAScript WhiteSpace and LineTerminator. */
  predicate IsWhitespace(c: char)
  {
    || c == '\t' || c == '\n' || c == '\r' || c == ' '
    || c == '\U{000B}' || c == '\U{000C}' || c == '\U{00A0}' || c == '\U{1680}'
    || ('\U{2000}' <= c <= '\U{200A}')
    || c == '\U{2028}' || c == '\U{2029}' || c == '\U{202F}' || c == '\U{205F}'
    || c == '\U{3000}' || c == '\U{FEFF}'
  }

  predicate Blank(s: string) { forall i :: 0 <= i < |s| ==> IsWhitespace(s[i]) }

  lemma BlankAppend(a: string, b: string)
    requires Blank(a) && Blank(b)
    ensures Blank(a + b)
  {
    forall i | 0 <= i < |a + b|
      ensures IsWhitespace((a + b)[i])
    {
      if i < |a| {
        assert (a + b)[i] == a[i];
      } else {
        assert (a + b)[i] == b[i - |a|];
      }
    }
  }

  /** The length of the run of whitespace that starts s. */
  function LeadingBlank(s: string): (k: nat)
    ensures k <= |s| && Blank(s[..k])
    ensures k == |s| || !IsWhitespace(s[k])
  {
    if s == [] || !IsWhitespace(s[0]) then 0
    else
      var k := 1 + LeadingBlank(s[1..]);
      assert s[..k] == [s[0]] + s[1..][..k - 1];
      k
  }

  /** s without its leading whitespace. */
  function TrimStart(s: string): (r: string)
    ensures |r| <= |s| && r == s[|s| - |r|..] && Blank(s[..|s| - |r|])
    ensures r == [] || !IsWhitespace(r[0])
  {
    s[LeadingBlank(s)..]
  }

  /** s without its trailing whitespace. */
  function TrimEnd(s: string): (r: string)
    ensures |r| <= |s| && r == s[..|r|] && Blank(s[|r|..])
    ensures r == [] || !IsWhitespace(r[|r| - 1])
  {
    if s != [] && IsWhitespace(s[|s| - 1]) then
      var r := TrimEnd(s[..|s| - 1]);
      var rest := s[..|s| - 1][|r|..];
      assert s[|r|..] == rest + [s[|s| - 1]];
      assert s[..|s| - 1][..|r|] == s[..|r|];
      BlankAppend(rest, [s[|s| - 1]]);
      r
    else s
  }

  /** String.prototype.trim. */
  function Trim(s: string): string
  {
    TrimEnd(TrimStart(s))
  }

  /** A string trims to the empty string exactly when all its characters are whitespace. */
  lemma TrimEmptyIffBlank(s: string)
    ensures Trim(s) == "" <==> Blank(s)
  {
    var t := TrimStart(s);
    assert t != [] ==> t[0] == s[|s| - |t|];
    assert Trim(s) == "" ==> Blank(t[0..]);
    assert t[0..] == t;
    assert s[..|s|] == s;
  }
}
