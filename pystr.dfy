/**
 * The Python string operations the client relies on (`str.split`,
 * `str.join`, `str.strip`, `unicode.splitlines`, `str(int)`, the `in`
 * substring test), written out over `seq<char>`.
 */
module PyStr {

  predicate IsDigit(c: char) { '0' <= c <= '9' }

  /** Python 2's `unicode.isspace` (its Unicode 5.2 tables) for the characters it accepts. */
  predicate IsSpace(c: char)
  {
    c == ' ' || ('\t' <= c <= '\r') || ('\U{1C}' <= c <= '\U{1F}') || c == '\U{85}' || c == '\U{A0}' ||
    c == '\U{1680}' || c == '\U{180E}' || ('\U{2000}' <= c <= '\U{200A}') || c == '\U{2028}' || c == '\U{2029}' ||
    c == '\U{202F}' || c == '\U{205F}' || c == '\U{3000}'
  }

  /** The line boundaries of Python's `unicode.splitlines` (`\r\n` counts as one). */
  predicate IsLineBreak(c: char)
  {
    ('\n' <= c <= '\r') || ('\U{1C}' <= c <= '\U{1E}') || c == '\U{85}' || c == '\U{2028}' || c == '\U{2029}'
  }

  predicate IsPrefix(p: string, s: string) { |p| <= |s| && s[..|p|] == p }

  /** Python's `sub in s`. */
  predicate Contains(s: string, sub: string)
  {
    exists i | 0 <= i <= |s| - |sub| :: OccursAt(s, i, sub)
  }

  /** `sub` stands in `s` from index `i` on. */
  predicate OccursAt(s: string, i: int, sub: string)
  {
    0 <= i <= |s| - |sub| && s[i..i + |sub|] == sub
  }

  lemma ContainsConcat(a: string, b: string, c: string)
    ensures Contains(a + b + c, b)
  {
    assert OccursAt(a + b + c, |a|, b);
  }

  lemma ContainsWithin(a: string, mid: string, b: string, sub: string)
    requires Contains(mid, sub)
    ensures Contains(a + mid + b, sub)
  {
    var i :| 0 <= i <= |mid| - |sub| && OccursAt(mid, i, sub);
    assert (a + mid + b)[|a| + i..|a| + i + |sub|] == mid[i..i + |sub|];
    assert OccursAt(a + mid + b, |a| + i, sub);
  }

  /** `sep.join(parts)` */
  function Join(parts: seq<string>, sep: string): string
  {
    if |parts| == 0 then ""
    else if |parts| == 1 then parts[0]
    else parts[0] + sep + Join(parts[1..], sep)
  }

  /** What a suffix of a string contains, the string contains. */
  lemma SuffixContained(s: string, d: int, sub: string)
    requires 0 <= d <= |s| && Contains(s[d..], sub)
    ensures Contains(s, sub)
  {
    var i :| 0 <= i <= |s[d..]| - |sub| && OccursAt(s[d..], i, sub);
    assert s[d + i..d + i + |sub|] == s[d..][i..i + |sub|];
    assert OccursAt(s, d + i, sub);
  }

  /** A prefix is contained. */
  lemma PrefixContained(p: string, s: string)
    ensures IsPrefix(p, s) ==> Contains(s, p)
  {
    if IsPrefix(p, s) {
      assert OccursAt(s, 0, p);
    }
  }

  /** What the tail of a string contains, the string contains. */
  lemma TailContained(s: string, sub: string)
    requires s != []
    ensures Contains(s[1..], sub) ==> Contains(s, sub)
  {
    if Contains(s[1..], sub) {
      var i :| 0 <= i <= |s[1..]| - |sub| && OccursAt(s[1..], i, sub);
      assert s[i + 1..i + 1 + |sub|] == s[1..][i..i + |sub|];
      assert OccursAt(s, i + 1, sub);
    }
  }

  /** Every part is found in the joined string. */
  lemma {:induction false} JoinContains(parts: seq<string>, sep: string, i: int)
    requires 0 <= i < |parts|
    ensures Contains(Join(parts, sep), parts[i])
  {
    if |parts| == 1 {
      ContainsConcat("", parts[0], "");
      assert "" + parts[0] + "" == parts[0];
    } else if i == 0 {
      ContainsConcat("", parts[0], sep + Join(parts[1..], sep));
      assert "" + parts[0] + (sep + Join(parts[1..], sep)) == Join(parts, sep);
    } else {
      JoinContains(parts[1..], sep, i - 1);
      ContainsWithin(parts[0] + sep, Join(parts[1..], sep), "", parts[i]);
      assert parts[0] + sep + Join(parts[1..], sep) + "" == Join(parts, sep);
    }
  }

  /** `s.split(sep)` for a one-character separator: never empty, and no part holds `sep`. */
  function Split(s: string, sep: char): (parts: seq<string>)
    ensures |parts| >= 1
    ensures forall i :: 0 <= i < |parts| ==> sep !in parts[i]
  {
    if s == [] then [""]
    else if s[0] == sep then [""] + Split(s[1..], sep)
    else
      var rest := Split(s[1..], sep);
      [[s[0]] + rest[0]] + rest[1..]
  }

  /** The number of occurrences of `c` in `s`. */
  function CountChar(s: string, c: char): nat
  {
    if s == [] then 0 else (if s[0] == c then 1 else 0) + CountChar(s[1..], c)
  }

  /** `split` yields one piece more than there are separators. */
  lemma {:induction false} SplitCount(s: string, sep: char)
    ensures |Split(s, sep)| == CountChar(s, sep) + 1
  {
    if s != [] {
      SplitCount(s[1..], sep);
    }
  }

  /** Joining what `split` produced gives the string back. */
  lemma {:induction false} JoinSplit(s: string, sep: char)
    ensures Join(Split(s, sep), [sep]) == s
  {
    if s == [] {
    } else if s[0] == sep {
      JoinSplit(s[1..], sep);
      assert Split(s, sep) == [""] + Split(s[1..], sep);
      assert Join(Split(s, sep), [sep]) == "" + [sep] + Join(Split(s[1..], sep), [sep]);
      assert s == [sep] + s[1..];
    } else {
      var rest := Split(s[1..], sep);
      JoinSplit(s[1..], sep);
      JoinConsHead(s[0], rest, [sep]);
      assert s == [s[0]] + s[1..];
    }
  }

  lemma JoinConsHead(c: char, parts: seq<string>, sep: string)
    requires |parts| >= 1
    ensures Join([[c] + parts[0]] + parts[1..], sep) == [c] + Join(parts, sep)
  {
    var ps := [[c] + parts[0]] + parts[1..];
    assert ps[1..] == parts[1..];
    if |parts| > 1 {
      assert Join(ps, sep) == [c] + parts[0] + sep + Join(parts[1..], sep);
    }
  }

  /** Splitting what `join` produced gives the parts back, when no part holds the separator. */
  lemma {:induction false} SplitJoin(parts: seq<string>, sep: char)
    requires |parts| >= 1
    requires forall i :: 0 <= i < |parts| ==> sep !in parts[i]
    ensures Split(Join(parts, [sep]), sep) == parts
  {
    if |parts| == 1 {
      SplitNoSep(parts[0], sep);
    } else {
      SplitJoin(parts[1..], sep);
      SplitAround(parts[0], Join(parts[1..], [sep]), sep);
      assert [parts[0]] + parts[1..] == parts;
    }
  }

  lemma {:induction false} SplitNoSep(s: string, sep: char)
    requires sep !in s
    ensures Split(s, sep) == [s]
  {
    if s != [] {
      SplitNoSep(s[1..], sep);
      assert [s[0]] + s[1..] == s;
    }
  }

  lemma {:induction false} SplitAround(a: string, b: string, sep: char)
    requires sep !in a
    ensures Split(a + [sep] + b, sep) == [a] + Split(b, sep)
  {
    if a == [] {
      assert a + [sep] + b == [sep] + b;
      assert ([sep] + b)[1..] == b;
    } else {
      assert (a + [sep] + b)[1..] == a[1..] + [sep] + b;
      SplitAround(a[1..], b, sep);
      assert [a[0]] + a[1..] == a;
    }
  }

  /** Length of the longest prefix of `s` without `c`. */
  function SpanWithout(s: string, c: char): (n: nat)
    ensures n <= |s|
    ensures c !in s[..n]
    ensures n < |s| ==> s[n] == c
  {
    if s == [] || s[0] == c then 0
    else
      var n := SpanWithout(s[1..], c);
      assert s[..n + 1] == [s[0]] + s[1..][..n];
      n + 1
  }

  /** The second piece of `s.split(c)` is the text between the first and the second `c`. */
  lemma {:induction false} SplitSecond(rest: string, c: char)
    ensures |Split([c] + rest, c)| >= 2
    ensures Split([c] + rest, c)[1] == rest[..SpanWithout(rest, c)]
  {
    assert ([c] + rest)[1..] == rest;
    SplitFirst(rest, c);
  }

  lemma {:induction false} SplitFirst(s: string, c: char)
    ensures Split(s, c)[0] == s[..SpanWithout(s, c)]
  {
    if s != [] && s[0] != c {
      SplitFirst(s[1..], c);
    }
  }

  /** `s.lstrip()` */
  function TrimStart(s: string): (r: string)
    ensures |r| <= |s| && r == s[|s| - |r|..]
    ensures r == [] || !IsSpace(r[0])
    ensures forall i :: 0 <= i < |s| - |r| ==> IsSpace(s[i])
  {
    if s != [] && IsSpace(s[0]) then TrimStart(s[1..]) else s
  }

  /** `s.rstrip()` */
  function TrimEnd(s: string): (r: string)
    ensures |r| <= |s| && r == s[..|r|]
    ensures r == [] || !IsSpace(r[|r| - 1])
    ensures forall i :: |r| <= i < |s| ==> IsSpace(s[i])
  {
    if s != [] && IsSpace(s[|s| - 1]) then TrimEnd(s[..|s| - 1]) else s
  }

  /** `s.strip()`: the middle of `s` between leading and trailing whitespace. */
  function Strip(s: string): (r: string)
    ensures r == [] || (!IsSpace(r[0]) && !IsSpace(r[|r| - 1]))
    ensures exists i :: OccursAt(s, i, r) && (forall j :: 0 <= j < i ==> IsSpace(s[j])) &&
                        (forall j :: i + |r| <= j < |s| ==> IsSpace(s[j]))
  {
    var t := TrimStart(s);
    var r := TrimEnd(t);
    StripParts(s, t, r);
    r
  }

  /** The middle `r` of `s` stands between a whitespace-only head and a whitespace-only tail. */
  lemma StripParts(s: string, t: string, r: string)
    requires |t| <= |s| && t == s[|s| - |t|..] && forall j :: 0 <= j < |s| - |t| ==> IsSpace(s[j])
    requires |r| <= |t| && r == t[..|r|] && forall j :: |r| <= j < |t| ==> IsSpace(t[j])
    ensures exists i :: OccursAt(s, i, r) && (forall j :: 0 <= j < i ==> IsSpace(s[j])) &&
                        (forall j :: i + |r| <= j < |s| ==> IsSpace(s[j]))
  {
    var i := |s| - |t|;
    assert s[i..i + |r|] == r;
    forall j | i + |r| <= j < |s|
      ensures IsSpace(s[j])
    {
      assert s[j] == t[j - i];
    }
    assert OccursAt(s, i, r);
  }

  /** Length of the first line of `s`. */
  function LineLength(s: string): (n: nat)
    ensures n <= |s|
    ensures forall i :: 0 <= i < n ==> !IsLineBreak(s[i])
    ensures n < |s| ==> IsLineBreak(s[n])
  {
    if s == [] || IsLineBreak(s[0]) then 0 else LineLength(s[1..]) + 1
  }

  /** `s.splitlines()` on a unicode string. */
  function SplitLines(s: string): (lines: seq<string>)
    ensures forall k, i :: 0 <= k < |lines| && 0 <= i < |lines[k]| ==> !IsLineBreak(lines[k][i])
    ensures s == [] <==> lines == []
    decreases |s|
  {
    if s == [] then []
    else
      var n := LineLength(s);
      if n == |s| then [s]
      else
        var skip := if s[n] == '\r' && n + 1 < |s| && s[n + 1] == '\n' then 2 else 1;
        [s[..n]] + SplitLines(s[n + skip..])
  }

  /** A line ended by one line boundary: `\r\n` is one boundary, any other break character is one. */
  predicate EndsLine(brk: string, rest: string)
  {
    (brk == "\r\n") || (|brk| == 1 && IsLineBreak(brk[0]) && !(brk[0] == '\r' && rest != [] && rest[0] == '\n'))
  }

  /**
   * `splitlines` line by line: a text without breaks is one line, and a
   * line followed by one boundary is that line, then the lines of the rest.
   */
  lemma {:induction false} SplitLinesOfLine(line: string, brk: string, rest: string)
    requires forall i :: 0 <= i < |line| ==> !IsLineBreak(line[i])
    ensures line != [] ==> SplitLines(line) == [line]
    ensures EndsLine(brk, rest) ==> SplitLines(line + brk + rest) == [line] + SplitLines(rest)
  {
    LineLengthOf(line, []);
    assert line + [] == line;
    if EndsLine(brk, rest) {
      var s := line + brk + rest;
      LineLengthOf(line, brk + rest);
      assert s == line + (brk + rest);
      assert s[..|line|] == line;
      assert s[|line|] == brk[0];
      assert s[|line| + |brk|..] == rest;
    }
  }

  lemma {:induction false} LineLengthOf(line: string, tail: string)
    requires forall i :: 0 <= i < |line| ==> !IsLineBreak(line[i])
    requires tail == [] || IsLineBreak(tail[0])
    ensures LineLength(line + tail) == |line|
  {
    if line == [] {
      assert line + tail == tail;
    } else {
      assert (line + tail)[1..] == line[1..] + tail;
      LineLengthOf(line[1..], tail);
    }
  }

  function DigitChar(d: nat): char
    requires d < 10
  {
    ['0', '1', '2', '3', '4', '5', '6', '7', '8', '9'][d]
  }

  /** `str(n)` for a natural number. */
  function NatToString(n: nat): (s: string)
    ensures |s| >= 1
    ensures forall i :: 0 <= i < |s| ==> IsDigit(s[i])
  {
    if n < 10 then [DigitChar(n)] else NatToString(n / 10) + [DigitChar(n % 10)]
  }

  /** The number a string of decimal digits denotes. */
  function DigitsValue(s: string): nat
    requires forall i :: 0 <= i < |s| ==> IsDigit(s[i])
  {
    if s == [] then 0
    else
      assert IsDigit(s[|s| - 1]);
      10 * DigitsValue(s[..|s| - 1]) + (s[|s| - 1] as int - '0' as int)
  }

  lemma {:induction false} NatToStringValue(n: nat)
    ensures DigitsValue(NatToString(n)) == n
  {
    var s := NatToString(n);
    if n >= 10 {
      NatToStringValue(n / 10);
      assert s[..|s| - 1] == NatToString(n / 10);
    }
  }

  /** `str(i)` for any integer. */
  function IntToString(i: int): (s: string)
    ensures i >= 0 ==> s == NatToString(i)
    ensures i < 0 ==> s == "-" + NatToString(-i)
  {
    if i < 0 then "-" + NatToString(-i) else NatToString(i)
  }
}
