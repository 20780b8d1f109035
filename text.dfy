/**
 * String operations of the Python and JavaScript runtimes that the application
 * relies on: whitespace stripping, character replacement, ASCII title-casing,
 * prefix tests, splitting on a separator, and decimal rendering of numbers.
 */
module Text {

  /** The characters for which Python's str.isspace() is true. */
  predicate IsPySpace(c: char) {
    ('\t' <= c <= '\r') || ('\U{1C}' <= c <= '\U{1F}') || c == ' ' || c == '\U{85}' || c == '\U{A0}'
    || c == '\U{1680}' || ('\U{2000}' <= c <= '\U{200A}') || c == '\U{2028}' || c == '\U{2029}'
    || c == '\U{202F}' || c == '\U{205F}' || c == '\U{3000}'
  }

  /** The characters that JavaScript's String.prototype.trim() removes (WhiteSpace and LineTerminator). */
  predicate IsJsSpace(c: char) {
    ('\t' <= c <= '\r') || c == ' ' || c == '\U{A0}' || c == '\U{1680}' || ('\U{2000}' <= c <= '\U{200A}')
    || c == '\U{2028}' || c == '\U{2029}' || c == '\U{202F}' || c == '\U{205F}' || c == '\U{3000}'
    || c == '\U{FEFF}'
  }

  /** Drops the leading characters satisfying `ws`. */
  function TrimStart(s: string, ws: char -> bool): (r: string)
    ensures |r| <= |s|
  {
    if s != [] && ws(s[0]) then TrimStart(s[1..], ws) else s
  }

  /** The front trim keeps a suffix, everything it drops is `ws`, and what is left does not start with `ws`. */
  lemma {:induction false} TrimStartShape(s: string, ws: char -> bool)
    ensures var r := TrimStart(s, ws);
      && r == s[|s| - |r|..]
      && (forall k :: 0 <= k < |s| - |r| ==> ws(s[k]))
      && (r != [] ==> !ws(r[0]))
  {
    if s != [] && ws(s[0]) {
      TrimStartShape(s[1..], ws);
      var r := TrimStart(s, ws);
      forall k | 0 < k < |s| - |r|
        ensures ws(s[k])
      {
        assert s[k] == s[1..][k - 1];
      }
    }
  }

  /** Drops the trailing characters satisfying `ws`. */
  function TrimEnd(s: string, ws: char -> bool): (r: string)
    ensures |r| <= |s|
  {
    if s != [] && ws(s[|s| - 1]) then TrimEnd(s[..|s| - 1], ws) else s
  }

  /** The end trim keeps a prefix, everything it drops is `ws`, and what is left does not end with `ws`. */
  lemma {:induction false} TrimEndShape(s: string, ws: char -> bool)
    ensures var r := TrimEnd(s, ws);
      && r == s[..|r|]
      && (forall k :: |r| <= k < |s| ==> ws(s[k]))
      && (r != [] ==> !ws(r[|r| - 1]))
  {
    if s != [] && ws(s[|s| - 1]) {
      TrimEndShape(s[..|s| - 1], ws);
      var r := TrimEnd(s, ws);
      forall k | |r| <= k < |s| - 1
        ensures ws(s[k])
      {
        assert s[k] == s[..|s| - 1][k];
      }
    }
  }

  /** Python's str.strip() with no argument. */
  function PyStrip(s: string): string {
    TrimEnd(TrimStart(s, IsPySpace), IsPySpace)
  }

  /** JavaScript's String.prototype.trim(). */
  function JsTrim(s: string): string {
    TrimEnd(TrimStart(s, IsJsSpace), IsJsSpace)
  }

  /** r is s with i `ws` characters removed in front and a run of them at the end, and r itself neither starts nor ends with one. */
  ghost predicate StrippedFrom(s: string, r: string, i: nat, ws: char -> bool) {
    && i + |r| <= |s| && r == s[i..i + |r|]
    && (forall k :: 0 <= k < i ==> ws(s[k]))
    && (forall k :: i + |r| <= k < |s| ==> ws(s[k]))
    && (r != [] ==> !ws(r[0]) && !ws(r[|r| - 1]))
  }

  /** Stripping removes a run of `ws` characters at each end and nothing else. */
  lemma StripShape(s: string, ws: char -> bool)
    ensures StrippedFrom(s, TrimEnd(TrimStart(s, ws), ws), |s| - |TrimStart(s, ws)|, ws)
  {
    var t := TrimStart(s, ws);
    TrimStartShape(s, ws);
    TrimEndShape(t, ws);
    StripPieces(s, t, TrimEnd(t, ws), ws);
  }

  /** A front trim followed by an end trim, described by their results. */
  lemma StripPieces(s: string, t: string, r: string, ws: char -> bool)
    requires |t| <= |s| && t == s[|s| - |t|..]
    requires forall k :: 0 <= k < |s| - |t| ==> ws(s[k])
    requires t != [] ==> !ws(t[0])
    requires |r| <= |t| && r == t[..|r|]
    requires forall k :: |r| <= k < |t| ==> ws(t[k])
    requires r != [] ==> !ws(r[|r| - 1])
    ensures StrippedFrom(s, r, |s| - |t|, ws)
  {
    var i := |s| - |t|;
    forall k | i + |r| <= k < |s|
      ensures ws(s[k])
    {
      assert s[k] == t[k - i];
    }
    assert r == s[i..i + |r|];
  }

  /** A string whose ends are not whitespace is left as it is. */
  lemma StripKeepsClean(s: string, ws: char -> bool)
    requires s != [] ==> !ws(s[0]) && !ws(s[|s| - 1])
    ensures TrimEnd(TrimStart(s, ws), ws) == s
  {
  }

  /** Python's str.replace(old, new) for single characters. */
  function ReplaceChar(s: string, from: char, to: char): (r: string)
    ensures |r| == |s|
    ensures forall k :: 0 <= k < |s| ==> r[k] == if s[k] == from then to else s[k]
  {
    if s == [] then [] else [if s[0] == from then to else s[0]] + ReplaceChar(s[1..], from, to)
  }

  predicate IsUpper(c: char) { 'A' <= c <= 'Z' }
  predicate IsLower(c: char) { 'a' <= c <= 'z' }
  predicate IsLetter(c: char) { IsUpper(c) || IsLower(c) }

  function ToUpper(c: char): char { if IsLower(c) then (c as int - 32) as char else c }
  function ToLower(c: char): char { if IsUpper(c) then (c as int + 32) as char else c }

  /**
   * Python's str.title() restricted to ASCII: a letter is upper-cased when the
   * previous character is not a letter and lower-cased when it is; every other
   * character is kept. `afterLetter` says whether the character before `s` is a letter.
   */
  function TitleFrom(s: string, afterLetter: bool): (r: string)
    ensures |r| == |s|
  {
    if s == [] then []
    else [if afterLetter then ToLower(s[0]) else ToUpper(s[0])] + TitleFrom(s[1..], IsLetter(s[0]))
  }

  function Title(s: string): string {
    TitleFrom(s, false)
  }

  /** Each character of a title-cased string, described by its position. */
  lemma {:induction false} TitleFromAt(s: string, afterLetter: bool, k: nat)
    requires k < |s|
    ensures var r := TitleFrom(s, afterLetter);
      var starts := if k == 0 then !afterLetter else !IsLetter(s[k - 1]);
      (IsLetter(r[k]) <==> IsLetter(s[k]))
      && (!IsLetter(s[k]) ==> r[k] == s[k])
      && (IsLetter(s[k]) && starts ==> IsUpper(r[k]))
      && (IsLetter(s[k]) && !starts ==> IsLower(r[k]))
  {
    if k > 0 {
      TitleFromAt(s[1..], IsLetter(s[0]), k - 1);
    }
  }

  /** Title-casing keeps the length and makes every run of letters start upper-case with the rest lower-case. */
  lemma TitleAt(s: string, k: nat)
    requires k < |s|
    ensures var r := Title(s);
      |r| == |s|
      && (IsLetter(r[k]) <==> IsLetter(s[k]))
      && (!IsLetter(s[k]) ==> r[k] == s[k])
      && (IsLetter(s[k]) && (k == 0 || !IsLetter(s[k - 1])) ==> IsUpper(r[k]))
      && (IsLetter(s[k]) && k > 0 && IsLetter(s[k - 1]) ==> IsLower(r[k]))
  {
    TitleFromAt(s, false, k);
  }

  lemma {:induction false} TitleFromIdempotent(s: string, afterLetter: bool)
    ensures TitleFrom(TitleFrom(s, afterLetter), afterLetter) == TitleFrom(s, afterLetter)
  {
    if s != [] {
      var c := if afterLetter then ToLower(s[0]) else ToUpper(s[0]);
      assert IsLetter(c) == IsLetter(s[0]);
      TitleFromIdempotent(s[1..], IsLetter(s[0]));
      assert TitleFrom(s, afterLetter)[1..] == TitleFrom(s[1..], IsLetter(s[0]));
    }
  }

  /** Title-casing twice is title-casing once. */
  lemma TitleIdempotent(s: string)
    ensures Title(Title(s)) == Title(s)
  {
    TitleFromIdempotent(s, false);
  }

  /** Title-casing changes letters only, so a character that is not a letter is absent afterwards iff it was absent before. */
  lemma TitleKeepsNonLetters(s: string, c: char)
    requires !IsLetter(c)
    ensures c in Title(s) <==> c in s
  {
    var r := Title(s);
    forall k | 0 <= k < |s| ensures (r[k] == c) <==> (s[k] == c) {
      TitleAt(s, k);
    }
    if c in r {
      var k :| 0 <= k < |r| && r[k] == c;
      assert s[k] == c;
    }
    if c in s {
      var k :| 0 <= k < |s| && s[k] == c;
      assert r[k] == c;
    }
  }

  predicate StartsWith(s: string, prefix: string) {
    |prefix| <= |s| && s[..|prefix|] == prefix
  }

  /** Python's `t in s` on strings: `t` occurs somewhere in `s`. */
  predicate Contains(s: string, t: string)
    decreases |s|
  {
    StartsWith(s, t) || (s != [] && Contains(s[1..], t))
  }

  lemma ContainsPrefix(t: string, rest: string)
    ensures Contains(t + rest, t)
  {
    assert (t + rest)[..|t|] == t;
  }

  /** An occurrence stays an occurrence when text is put in front. */
  lemma {:induction false} ContainsAfter(p: string, s: string, t: string)
    requires Contains(s, t)
    ensures Contains(p + s, t)
    decreases |p|
  {
    if p != [] {
      assert (p + s)[1..] == p[1..] + s;
      ContainsAfter(p[1..], s, t);
    } else {
      assert p + s == s;
    }
  }

  /** No occurrence is made by putting text in front that lacks the first character of `t`. */
  lemma {:induction false} NotContainsAfter(p: string, s: string, t: string)
    requires t != [] && t[0] !in p && !Contains(s, t)
    ensures !Contains(p + s, t)
    decreases |p|
  {
    if p != [] {
      assert (p + s)[0] == p[0];
      assert (p + s)[1..] == p[1..] + s;
      NotContainsAfter(p[1..], s, t);
    } else {
      assert p + s == s;
    }
  }

  /**
   * JavaScript's String.prototype.split(sep) for a non-empty separator: the pieces
   * between the occurrences of `sep`, found left to right without overlap.
   */
  function Split(s: string, sep: string): (parts: seq<string>)
    requires sep != []
    ensures |parts| > 0
    decreases |s|
  {
    if |s| < |sep| then [s]
    else if s[..|sep|] == sep then [""] + Split(s[|sep|..], sep)
    else
      var rest := Split(s[1..], sep);
      [[s[0]] + rest[0]] + rest[1..]
  }

  /** Array.prototype.join(sep). */
  function Join(parts: seq<string>, sep: string): string
    requires |parts| > 0
  {
    if |parts| == 1 then parts[0] else parts[0] + sep + Join(parts[1..], sep)
  }

  /** Splitting loses nothing: joining the pieces with the separator gives back the string. */
  lemma {:induction false} JoinSplit(s: string, sep: string)
    requires sep != []
    ensures Join(Split(s, sep), sep) == s
    decreases |s|
  {
    if |s| < |sep| {
    } else if s[..|sep|] == sep {
      JoinSplit(s[|sep|..], sep);
      JoinAddSeparator(Split(s[|sep|..], sep), sep);
      assert s == sep + s[|sep|..];
    } else {
      JoinSplit(s[1..], sep);
      JoinAddFirst(s[0], Split(s[1..], sep), sep);
      assert s == [s[0]] + s[1..];
    }
  }

  /** An empty first piece puts one separator in front. */
  lemma JoinAddSeparator(parts: seq<string>, sep: string)
    requires |parts| > 0
    ensures Join([""] + parts, sep) == sep + Join(parts, sep)
  {
    assert ([""] + parts)[1..] == parts;
  }

  /** A character put in front of the first piece comes out in front of the joined string. */
  lemma JoinAddFirst(c: char, parts: seq<string>, sep: string)
    requires |parts| > 0
    ensures Join([[c] + parts[0]] + parts[1..], sep) == [c] + Join(parts, sep)
  {
    var p := [[c] + parts[0]] + parts[1..];
    assert p[1..] == parts[1..];
  }

  /** A piece that precedes the separator and holds no occurrence of it is split off whole. */
  lemma {:induction false} SplitAfterPiece(a: string, sep: string, rest: string)
    requires sep != []
    requires forall i :: 0 <= i < |a| ==> !StartsWith((a + sep + rest)[i..], sep)
    ensures Split(a + sep + rest, sep) == [a] + Split(rest, sep)
    decreases |a|
  {
    var s := a + sep + rest;
    if a == [] {
      assert s[..|sep|] == sep;
      assert s[|sep|..] == rest;
    } else {
      assert !StartsWith(s[0..], sep);
      assert s[0..] == s;
      assert s[1..] == a[1..] + sep + rest;
      forall i | 0 <= i < |a[1..]|
        ensures !StartsWith((a[1..] + sep + rest)[i..], sep)
      {
        assert (a[1..] + sep + rest)[i..] == s[i + 1..];
      }
      SplitAfterPiece(a[1..], sep, rest);
      assert [s[0]] + a[1..] == a;
    }
  }

  /** `s` does not contain the character `c`. */
  predicate Lacks(s: string, c: char) {
    forall i :: 0 <= i < |s| ==> s[i] != c
  }

  lemma LacksConcat(x: string, y: string, c: char)
    requires Lacks(x, c) && Lacks(y, c)
    ensures Lacks(x + y, c)
  {
    forall i | 0 <= i < |x + y|
      ensures (x + y)[i] != c
    {
      if i < |x| {
        assert (x + y)[i] == x[i];
      } else {
        assert (x + y)[i] == y[i - |x|];
      }
    }
  }

  /** A string holding no occurrence of the separator is a single piece. */
  lemma {:induction false} SplitWithoutSeparator(s: string, sep: string)
    requires sep != []
    requires forall i :: 0 <= i < |s| ==> !StartsWith(s[i..], sep)
    ensures Split(s, sep) == [s]
    decreases |s|
  {
    if |s| >= |sep| {
      assert s[0..] == s;
      forall i | 0 <= i < |s[1..]|
        ensures !StartsWith(s[1..][i..], sep)
      {
        assert s[1..][i..] == s[i + 1..];
      }
      SplitWithoutSeparator(s[1..], sep);
      assert [s[0]] + s[1..] == s;
    }
  }

  /** The decimal digits of `n`, as Python's str() on an int and an f-string render it. */
  function NatToString(n: nat): (r: string)
    ensures r != []
    ensures forall k :: 0 <= k < |r| ==> '0' <= r[k] <= '9'
    decreases n
  {
    if n < 10 then [DigitChar(n)] else NatToString(n / 10) + [DigitChar(n % 10)]
  }

  function DigitChar(d: nat): (c: char)
    requires d < 10
    ensures '0' <= c <= '9'
  {
    ('0' as int + d) as char
  }

  /** Reads a string of decimal digits back into a number. */
  function DigitsValue(s: string): nat
    requires forall k :: 0 <= k < |s| ==> '0' <= s[k] <= '9'
  {
    if s == [] then 0 else 10 * DigitsValue(s[..|s| - 1]) + (s[|s| - 1] as int - '0' as int)
  }

  /** Rendering a number in decimal loses nothing: reading the digits back gives the number. */
  lemma {:induction false} DigitsValueOfNatToString(n: nat)
    ensures DigitsValue(NatToString(n)) == n
    decreases n
  {
    if n >= 10 {
      var s := NatToString(n);
      assert s[..|s| - 1] == NatToString(n / 10);
      DigitsValueOfNatToString(n / 10);
    }
  }

  /** Two different numbers render differently. */
  lemma NatToStringInjective(m: nat, n: nat)
    requires NatToString(m) == NatToString(n)
    ensures m == n
  {
    DigitsValueOfNatToString(m);
    DigitsValueOfNatToString(n);
  }
}
