/**
 * The string operations of Python that the level format relies on:
 * str() of an integer, int() of a string, " ".join, str.split() and
 * str.splitlines(), with the round trips between them.
 */
module Text {
  import opened Wrappers

  /** str.isspace() for one character. */
  predicate IsSpace(c: char) {
    c == ' ' || ('\t' <= c <= '\r') || ('\U{1c}' <= c <= '\U{1f}') || c == '\U{85}' || c == '\U{a0}'
    || c == '\U{1680}' || ('\U{2000}' <= c <= '\U{200a}') || c == '\U{2028}' || c == '\U{2029}'
    || c == '\U{202f}' || c == '\U{205f}' || c == '\U{3000}'
  }

  /** The characters at which str.splitlines() ends a line ("\r\n" counts once). */
  predicate IsLineBreak(c: char) {
    c == '\n' || c == '\r' || c == '\U{0b}' || c == '\U{0c}' || ('\U{1c}' <= c <= '\U{1e}')
    || c == '\U{85}' || c == '\U{2028}' || c == '\U{2029}'
  }

  lemma LineBreakIsSpace(c: char)
    ensures IsLineBreak(c) ==> IsSpace(c)
  {
  }

  predicate NoSpace(s: string) {
    forall i :: 0 <= i < |s| ==> !IsSpace(s[i])
  }

  predicate NoLineBreak(s: string) {
    forall i :: 0 <= i < |s| ==> !IsLineBreak(s[i])
  }

  predicate StartsWith(s: string, prefix: string) {
    |prefix| <= |s| && s[..|prefix|] == prefix
  }

  // ----- decimal integers -----

  predicate IsDigit(c: char) {
    '0' <= c <= '9'
  }

  predicate AllDigits(s: string) {
    forall i :: 0 <= i < |s| ==> IsDigit(s[i])
  }

  function DigitChar(d: nat): (c: char)
    requires d < 10
    ensures IsDigit(c)
  {
    (d + '0' as int) as char
  }

  function DigitValue(c: char): (r: nat)
    requires IsDigit(c)
  {
    (c as int - '0' as int)
  }

  /** str(n) for n >= 0: decimal digits, no leading zero. */
  function NatToString(n: nat): (s: string)
    ensures |s| > 0 && AllDigits(s)
  {
    if n < 10 then [DigitChar(n)] else NatToString(n / 10) + [DigitChar(n % 10)]
  }

  /** str(n) for any Python int. */
  function IntToString(n: int): (s: string)
    ensures |s| > 0 && NoSpace(s)
    ensures s[0] == '-' || IsDigit(s[0])
  {
    var s := if n < 0 then "-" + NatToString(-n) else NatToString(n);
    assert forall i :: 0 <= i < |s| ==> s[i] == '-' || IsDigit(s[i]);
    s
  }

  /** The value of a non-empty run of decimal digits (leading zeros allowed). */
  function DigitsValue(s: string): (r: nat)
    requires AllDigits(s)
  {
    if s == [] then 0 else DigitsValue(s[..|s| - 1]) * 10 + DigitValue(s[|s| - 1])
  }

  lemma {:induction false} DigitsOfNat(n: nat)
    ensures DigitsValue(NatToString(n)) == n
  {
    var s := NatToString(n);
    if n >= 10 {
      DigitsOfNat(n / 10);
      assert s[..|s| - 1] == NatToString(n / 10);
    }
  }

  /** str.strip(): drop leading and trailing whitespace. */
  function Strip(s: string): (t: string)
    ensures |t| <= |s|
    ensures t == [] || (!IsSpace(t[0]) && !IsSpace(t[|t| - 1]))
    decreases |s|
  {
    if s == [] then []
    else if IsSpace(s[0]) then Strip(s[1..])
    else if IsSpace(s[|s| - 1]) then Strip(s[..|s| - 1])
    else s
  }

  lemma StripNoSpace(s: string)
    requires NoSpace(s)
    ensures Strip(s) == s
  {
  }

  /**
   * int(s) for a string: surrounding whitespace, an optional sign and at least
   * one decimal digit; anything else is a ValueError (None here).
   */
  function ParseInt(s: string): (r: Option<int>)
    ensures r.Some? ==> |Strip(s)| > 0
  {
    var t := Strip(s);
    if |t| > 0 && (t[0] == '-' || t[0] == '+') then
      if |t| > 1 && AllDigits(t[1..]) then
        var v: int := DigitsValue(t[1..]);
        Some(if t[0] == '-' then -v else v)
      else None
    else if |t| > 0 && AllDigits(t) then Some(DigitsValue(t))
    else None
  }

  lemma DigitsNoSpace(t: string)
    requires AllDigits(t)
    ensures NoSpace(t)
  {
    forall i | 0 <= i < |t| ensures !IsSpace(t[i]) {
      assert IsDigit(t[i]);
    }
  }

  /** int() of a run of digits is its value. */
  lemma ParseDigits(t: string)
    requires |t| > 0 && AllDigits(t)
    ensures ParseInt(t) == Some(DigitsValue(t))
  {
    DigitsNoSpace(t);
    StripNoSpace(t);
  }

  /** int() of a minus sign followed by a run of digits is the negated value. */
  lemma ParseNegativeDigits(t: string)
    requires |t| > 1 && t[0] == '-' && AllDigits(t[1..])
    ensures ParseInt(t) == Some(-(DigitsValue(t[1..]) as int))
  {
    DigitsNoSpace(t[1..]);
    assert NoSpace(t) by {
      forall i | 0 <= i < |t| ensures !IsSpace(t[i]) {
        if i > 0 {
          assert t[i] == t[1..][i - 1];
        }
      }
    }
    StripNoSpace(t);
  }

  /** int(str(n)) == n. */
  lemma IntRoundTrip(n: int)
    ensures ParseInt(IntToString(n)) == Some(n)
  {
    var s := IntToString(n);
    if n < 0 {
      assert s[1..] == NatToString(-n);
      ParseNegativeDigits(s);
      DigitsOfNat(-n);
    } else {
      ParseDigits(s);
      DigitsOfNat(n);
    }
  }

  lemma IntToStringInjective(m: int, n: int)
    requires IntToString(m) == IntToString(n)
    ensures m == n
  {
    IntRoundTrip(m);
    IntRoundTrip(n);
  }

  // ----- joining and splitting -----

  /** sep.join(xs) */
  function Join(sep: string, xs: seq<string>): (r: string) {
    if |xs| == 0 then ""
    else if |xs| == 1 then xs[0]
    else xs[0] + sep + Join(sep, xs[1..])
  }

  /** Concatenation of a list of strings, ''.join(xs). */
  function Concat(xs: seq<string>): (r: string) {
    if xs == [] then "" else xs[0] + Concat(xs[1..])
  }

  lemma {:induction false} ConcatAppend(xs: seq<string>, ys: seq<string>)
    ensures Concat(xs + ys) == Concat(xs) + Concat(ys)
  {
    if xs == [] {
      assert xs + ys == ys;
    } else {
      assert (xs + ys)[1..] == xs[1..] + ys;
      ConcatAppend(xs[1..], ys);
    }
  }

  lemma {:induction false} JoinAppend(sep: string, xs: seq<string>, x: string)
    requires xs != []
    ensures Join(sep, xs + [x]) == Join(sep, xs) + sep + x
  {
    if |xs| == 1 {
    } else {
      assert (xs + [x])[1..] == xs[1..] + [x];
      JoinAppend(sep, xs[1..], x);
    }
  }

  /** Join with a separator is the first element followed by separator-prefixed rest. */
  lemma {:induction false} JoinAsConcat(sep: string, x: string, rest: seq<string>)
    ensures Join(sep, [x] + rest) == x + Concat(Prefixed(sep, rest))
    decreases |rest|
  {
    if rest == [] {
    } else {
      assert ([x] + rest)[1..] == rest;
      assert rest == [rest[0]] + rest[1..];
      JoinAsConcat(sep, rest[0], rest[1..]);
      assert Prefixed(sep, rest) == [sep + rest[0]] + Prefixed(sep, rest[1..]);
    }
  }

  /** [sep + x for x in xs] */
  function Prefixed(sep: string, xs: seq<string>): (r: seq<string>)
    ensures |r| == |xs|
    ensures forall i :: 0 <= i < |xs| ==> r[i] == sep + xs[i]
  {
    if xs == [] then [] else [sep + xs[0]] + Prefixed(sep, xs[1..])
  }

  /** The suffix of s after its leading whitespace. */
  function SkipSpace(s: string): (t: string)
    ensures |t| <= |s| && t == s[|s| - |t|..]
    ensures t == [] || !IsSpace(t[0])
  {
    if s != [] && IsSpace(s[0]) then SkipSpace(s[1..]) else s
  }

  /** The length of the leading run of non-whitespace characters of s. */
  function WordLength(s: string): (k: nat)
    ensures k <= |s| && NoSpace(s[..k])
    ensures k < |s| ==> IsSpace(s[k])
    ensures s != [] && !IsSpace(s[0]) ==> k > 0
  {
    if s == [] || IsSpace(s[0]) then 0 else 1 + WordLength(s[1..])
  }

  /** s.split(): the maximal runs of non-whitespace characters, in order. */
  function Split(s: string): (r: seq<string>)
    ensures forall i :: 0 <= i < |r| ==> |r[i]| > 0 && NoSpace(r[i])
    decreases |s|
  {
    var t := SkipSpace(s);
    if t == [] then []
    else
      var k := WordLength(t);
      var rest := Split(t[k..]);
      PlainCons(t[..k], rest);
      [t[..k]] + rest
  }

  lemma PlainCons(w: string, rest: seq<string>)
    requires |w| > 0 && NoSpace(w)
    requires forall i :: 0 <= i < |rest| ==> |rest[i]| > 0 && NoSpace(rest[i])
    ensures forall i :: 0 <= i < |[w] + rest| ==> |([w] + rest)[i]| > 0 && NoSpace(([w] + rest)[i])
  {
  }

  lemma WordLengthOfToken(w: string, rest: string)
    requires NoSpace(w)
    requires rest == [] || IsSpace(rest[0])
    ensures WordLength(w + rest) == |w|
    decreases |w|
  {
    if w != [] {
      assert (w + rest)[1..] == w[1..] + rest;
      WordLengthOfToken(w[1..], rest);
    }
  }

  /** A token followed by nothing or by whitespace is split off first. */
  lemma SplitToken(w: string, rest: string)
    requires |w| > 0 && NoSpace(w)
    requires rest == [] || IsSpace(rest[0])
    ensures Split(w + rest) == [w] + Split(rest)
  {
    var s := w + rest;
    assert SkipSpace(s) == s;
    WordLengthOfToken(w, rest);
    assert s[..|w|] == w;
    assert s[|w|..] == rest;
  }

  lemma SplitSpace(s: string)
    ensures Split(" " + s) == Split(s)
  {
    assert (" " + s)[1..] == s;
  }

  /** A token, a space and the rest split as the token followed by the rest's tokens. */
  lemma SplitCons(w: string, j: string)
    requires |w| > 0 && NoSpace(w)
    ensures Split(w + " " + j) == [w] + Split(j)
  {
    assert w + " " + j == w + (" " + j);
    SplitToken(w, " " + j);
    SplitSpace(j);
  }

  lemma AppendAssoc<T>(a: seq<T>, b: seq<T>, c: seq<T>)
    ensures a + b + c == a + (b + c)
  {
  }

  lemma EmptyAppend<T>(s: seq<T>)
    ensures [] + s == s
  {
  }

  lemma AppendEmpty<T>(s: seq<T>)
    ensures s + [] == s
  {
  }

  lemma TakeAppend<T>(a: seq<T>, b: seq<T>)
    ensures (a + b)[..|a|] == a
  {
  }

  lemma DropAppend<T>(a: seq<T>, b: seq<T>)
    ensures (a + b)[|a|..] == b
  {
  }

  lemma TailSnoc<T>(s: seq<T>, x: T)
    requires |s| > 0
    ensures (s + [x])[1..] == s[1..] + [x]
  {
  }

  lemma HeadTail<T>(s: seq<T>)
    requires |s| > 0
    ensures [s[0]] + s[1..] == s
  {
  }

  /** One more token in front of a list that splits back into itself. */
  lemma SplitJoinStep(w: string, rest: seq<string>)
    requires |w| > 0 && NoSpace(w) && rest != []
    requires Split(Join(" ", rest)) == rest
    ensures Split(Join(" ", [w] + rest)) == [w] + rest
  {
    JoinCons(" ", w, rest);
    SplitCons(w, Join(" ", rest));
  }

  lemma SplitNothing()
    ensures Split(Join(" ", [])) == []
  {
  }

  lemma SplitOne(w: string)
    requires |w| > 0 && NoSpace(w)
    ensures Split(Join(" ", [w])) == [w]
  {
    assert w + "" == w;
    SplitToken(w, "");
  }

  /** Splitting a space-joined list of tokens gives the tokens back. */
  lemma {:induction false} SplitJoin(toks: seq<string>)
    requires forall i :: 0 <= i < |toks| ==> |toks[i]| > 0 && NoSpace(toks[i])
    ensures Split(Join(" ", toks)) == toks
  {
    if |toks| == 0 {
      SplitNothing();
    } else if |toks| == 1 {
      SplitOne(toks[0]);
    } else {
      var rest := toks[1..];
      assert forall i :: 0 <= i < |rest| ==> rest[i] == toks[i + 1];
      SplitJoin(rest);
      SplitJoinStep(toks[0], rest);
      HeadTail(toks);
    }
  }

  /** The index of the first line break in s, or |s| when there is none. */
  function LineEnd(s: string): (k: nat)
    ensures k <= |s| && NoLineBreak(s[..k])
    ensures k < |s| ==> IsLineBreak(s[k])
  {
    if s == [] || IsLineBreak(s[0]) then 0 else 1 + LineEnd(s[1..])
  }

  /** s.splitlines(): lines without their terminators; no trailing empty line. */
  function SplitLines(s: string): (r: seq<string>)
    ensures forall i :: 0 <= i < |r| ==> NoLineBreak(r[i])
    decreases |s|
  {
    if s == [] then []
    else
      var k := LineEnd(s);
      if k == |s| then [s]
      else
        var w := if s[k] == '\r' && k + 1 < |s| && s[k + 1] == '\n' then 2 else 1;
        [s[..k]] + SplitLines(s[k + w..])
  }

  lemma LineEndOfLine(w: string, rest: string)
    requires NoLineBreak(w)
    requires rest == [] || IsLineBreak(rest[0])
    ensures LineEnd(w + rest) == |w|
    decreases |w|
  {
    if w != [] {
      assert (w + rest)[1..] == w[1..] + rest;
      LineEndOfLine(w[1..], rest);
    }
  }

  /**
   * Splitting newline-joined lines gives them back, provided no line holds a
   * line break and the last line is not empty (splitlines drops a final
   * empty line).
   */
  lemma {:induction false} SplitLinesJoin(lines: seq<string>)
    requires forall i :: 0 <= i < |lines| ==> NoLineBreak(lines[i])
    requires lines == [] || lines[|lines| - 1] != ""
    ensures SplitLines(Join("\n", lines)) == lines
  {
    if |lines| == 0 {
    } else if |lines| == 1 {
      LineEndOfLine(lines[0], "");
      AppendEmpty(lines[0]);
    } else {
      var w := lines[0];
      var j := Join("\n", lines[1..]);
      var s := w + "\n" + j;
      assert Join("\n", lines) == s;
      AppendAssoc(w, "\n", j);
      LineEndOfLine(w, "\n" + j);
      TakeAppend(w, "\n" + j);
      DropAppend(w + "\n", j);
      SplitLinesJoin(lines[1..]);
      HeadTail(lines);
    }
  }

  /** Text without whitespace has no line break either. */
  lemma NoSpaceNoLineBreak(s: string)
    requires NoSpace(s)
    ensures NoLineBreak(s)
  {
    forall i | 0 <= i < |s| ensures !IsLineBreak(s[i]) {
      LineBreakIsSpace(s[i]);
    }
  }

  lemma JoinCons(sep: string, x: string, rest: seq<string>)
    requires rest != []
    ensures Join(sep, [x] + rest) == x + sep + Join(sep, rest)
  {
    assert ([x] + rest)[1..] == rest;
  }

  lemma {:induction false} PrefixedAppend(sep: string, xs: seq<string>, ys: seq<string>)
    ensures Prefixed(sep, xs + ys) == Prefixed(sep, xs) + Prefixed(sep, ys)
  {
    if xs == [] {
      assert xs + ys == ys;
    } else {
      assert (xs + ys)[1..] == xs[1..] + ys;
      PrefixedAppend(sep, xs[1..], ys);
    }
  }

  /** Two lists of lines without line breaks make one. */
  lemma AllNoLineBreakAppend(a: seq<string>, b: seq<string>)
    requires forall i :: 0 <= i < |a| ==> NoLineBreak(a[i])
    requires forall i :: 0 <= i < |b| ==> NoLineBreak(b[i])
    ensures forall i :: 0 <= i < |a + b| ==> NoLineBreak((a + b)[i])
  {
    forall i | 0 <= i < |a + b| ensures NoLineBreak((a + b)[i]) {
      if i < |a| {
        assert (a + b)[i] == a[i];
      } else {
        assert (a + b)[i] == b[i - |a|];
      }
    }
  }

  lemma JoinNoLineBreak(sep: string, xs: seq<string>)
    requires NoLineBreak(sep)
    requires forall i :: 0 <= i < |xs| ==> NoLineBreak(xs[i])
    ensures NoLineBreak(Join(sep, xs))
  {
    if |xs| > 1 {
      JoinNoLineBreak(sep, xs[1..]);
      var j := Join(sep, xs[1..]);
      assert Join(sep, xs) == xs[0] + sep + j;
    }
  }

  /** An integer's decimal text holds no line break. */
  lemma IntNoLineBreak(n: int)
    ensures NoLineBreak(IntToString(n))
  {
    NoSpaceNoLineBreak(IntToString(n));
  }

  lemma ConcatNoLineBreak(a: string, b: string)
    requires NoLineBreak(a) && NoLineBreak(b)
    ensures NoLineBreak(a + b)
  {
    forall i | 0 <= i < |a + b| ensures !IsLineBreak((a + b)[i]) {
      if i < |a| {
        assert (a + b)[i] == a[i];
      } else {
        assert (a + b)[i] == b[i - |a|];
      }
    }
  }

  /** Visible ASCII characters are not whitespace. */
  lemma VisibleNoSpace(s: string)
    requires forall i :: 0 <= i < |s| ==> '!' <= s[i] <= '~'
    ensures NoSpace(s)
  {
  }

  /** Printable ASCII characters, the space included, are not line breaks. */
  lemma PrintableNoLineBreak(s: string)
    requires forall i :: 0 <= i < |s| ==> ' ' <= s[i] <= '~'
    ensures NoLineBreak(s)
  {
  }

  lemma ConcatNoSpace(a: string, b: string)
    requires NoSpace(a) && NoSpace(b)
    ensures NoSpace(a + b)
  {
    forall i | 0 <= i < |a + b| ensures !IsSpace((a + b)[i]) {
      if i < |a| {
        assert (a + b)[i] == a[i];
      } else {
        assert (a + b)[i] == b[i - |a|];
      }
    }
  }
}
