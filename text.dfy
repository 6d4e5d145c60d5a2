/** The pieces of Python's str behaviour that the text utilities, the matrix rendering and the
    log records rely on: whitespace, strip(), split(), join(), str() of an int, ljust()/rjust(). */
module Text {

  function Max(a: int, b: int): int { if a >= b then a else b }

  function Min(a: int, b: int): int { if a <= b then a else b }

  // ---------------------------------------------------------------------------------------------
  // Whitespace, strip() and split()
  // ---------------------------------------------------------------------------------------------

  /** Python's str.isspace() for one character: str.split() and str.strip() without an argument
      cut at exactly these characters. */
  predicate IsSpace(c: char) {
    || '\t' <= c <= '\r'
    || '\U{1C}' <= c <= '\U{1F}'
    || c == ' '
    || c == '\U{85}'
    || c == '\U{A0}'
    || c == '\U{1680}'
    || '\U{2000}' <= c <= '\U{200A}'
    || c == '\U{2028}'
    || c == '\U{2029}'
    || c == '\U{202F}'
    || c == '\U{205F}'
    || c == '\U{3000}'
  }

  predicate NoSpace(s: string) {
    forall k :: 0 <= k < |s| ==> !IsSpace(s[k])
  }

  /** s.lstrip(): s without its leading whitespace. */
  function TrimLeft(s: string): (r: string)
    ensures |r| <= |s| && r == s[|s| - |r|..]
    ensures forall k :: 0 <= k < |s| - |r| ==> IsSpace(s[k])
    ensures r != [] ==> !IsSpace(r[0])
    decreases |s|
  {
    if s != [] && IsSpace(s[0]) then TrimLeft(s[1..]) else s
  }

  /** s.rstrip(): s without its trailing whitespace. */
  function TrimRight(s: string): (r: string)
    ensures |r| <= |s| && r == s[..|r|]
    ensures forall k :: |r| <= k < |s| ==> IsSpace(s[k])
    ensures r != [] ==> !IsSpace(r[|r| - 1])
    decreases |s|
  {
    if s != [] && IsSpace(s[|s| - 1]) then TrimRight(s[..|s| - 1]) else s
  }

  /** s.strip(): s without the whitespace at either end (TrimLeft and TrimRight say what each
      side removes). */
  function Strip(s: string): string {
    TrimRight(TrimLeft(s))
  }

  lemma {:induction false} TrimLeftAppend(s: string, u: string)
    ensures TrimLeft(s + u) == if TrimLeft(s) == [] then TrimLeft(u) else TrimLeft(s) + u
    decreases |s|
  {
    if s == [] {
      assert s + u == u;
    } else if IsSpace(s[0]) {
      assert (s + u)[1..] == s[1..] + u;
      TrimLeftAppend(s[1..], u);
    }
  }

  /** Stripping a line removes its line terminator: str.strip() gives the same text for a line
      read from a file (ending in "\n") and for the same line read by input() (without it). */
  lemma StripDropsNewline(s: string)
    ensures Strip(s + "\n") == Strip(s)
  {
    TrimLeftAppend(s, "\n");
    var t := TrimLeft(s);
    var nl: string := "\n";
    assert IsSpace(nl[0]);
    if t == [] {
      assert TrimLeft(nl) == TrimLeft(nl[1..]) == [];
    } else {
      var u := t + nl;
      assert u[|u| - 1] == '\n' && u[..|u| - 1] == t;
      assert TrimRight(u) == TrimRight(t);
    }
  }

  /** The longest prefix of s that holds no whitespace. */
  function WordPrefix(s: string): (w: string)
    ensures |w| <= |s| && w == s[..|w|] && NoSpace(w)
    ensures |w| < |s| ==> IsSpace(s[|w|])
    ensures s != [] && !IsSpace(s[0]) ==> |w| >= 1
  {
    if s == [] || IsSpace(s[0]) then [] else [s[0]] + WordPrefix(s[1..])
  }

  /** s.split() with no argument: the maximal runs of non-whitespace characters, in order. */
  function SplitWords(s: string): seq<string>
    decreases |s|
  {
    var t := TrimLeft(s);
    if t == [] then []
    else
      var w := WordPrefix(t);
      [w] + SplitWords(t[|w|..])
  }

  /** The number of positions of s where a run of non-whitespace begins; `afterSpace` tells
      whether what precedes s counts as whitespace (the start of a line does). */
  function RunStarts(s: string, afterSpace: bool): nat
    decreases |s|
  {
    if s == [] then 0
    else (if afterSpace && !IsSpace(s[0]) then 1 else 0) + RunStarts(s[1..], IsSpace(s[0]))
  }

  /** The number of words of s: the characters that are not whitespace and stand first or
      right after whitespace. */
  function WordCount(s: string): nat {
    RunStarts(s, true)
  }

  lemma {:induction false} RunStartsSkipsSpaces(s: string)
    ensures RunStarts(s, true) == RunStarts(TrimLeft(s), true)
    decreases |s|
  {
    if s != [] && IsSpace(s[0]) {
      RunStartsSkipsSpaces(s[1..]);
    }
  }

  lemma {:induction false} RunStartsOverWord(t: string, afterSpace: bool)
    requires t != [] && !IsSpace(t[0])
    ensures RunStarts(t, afterSpace)
         == (if afterSpace then 1 else 0) + RunStarts(t[|WordPrefix(t)|..], false)
    decreases |t|
  {
    var u := t[1..];
    if u != [] && !IsSpace(u[0]) {
      RunStartsOverWord(u, false);
      assert t[|WordPrefix(t)|..] == u[|WordPrefix(u)|..];
    }
  }

  lemma {:induction false} RunStartsAppend(s: string, u: string, afterSpace: bool)
    ensures RunStarts(s + u, afterSpace)
         == RunStarts(s, afterSpace) + RunStarts(u, if s == [] then afterSpace else IsSpace(s[|s| - 1]))
    decreases |s|
  {
    if s == [] {
      assert s + u == u;
    } else {
      assert (s + u)[0] == s[0];
      assert (s + u)[1..] == s[1..] + u;
      RunStartsAppend(s[1..], u, IsSpace(s[0]));
    }
  }

  lemma RunStartsAtSpace(u: string)
    requires u == [] || IsSpace(u[0])
    ensures RunStarts(u, false) == RunStarts(u, true)
  {
  }

  /** What one step of str.split() takes off the front of s: the leading whitespace and one word. */
  function AfterFirstWord(s: string): string {
    var t := TrimLeft(s);
    t[|WordPrefix(t)|..]
  }

  lemma SplitWordsStep(s: string)
    requires TrimLeft(s) != []
    ensures |AfterFirstWord(s)| < |s|
    ensures |SplitWords(s)| == 1 + |SplitWords(AfterFirstWord(s))|
  {
  }

  lemma WordCountStep(s: string)
    requires TrimLeft(s) != []
    ensures WordCount(s) == 1 + WordCount(AfterFirstWord(s))
  {
    var t := TrimLeft(s);
    var rest := t[|WordPrefix(t)|..];
    RunStartsSkipsSpaces(s);
    RunStartsOverWord(t, true);
    RunStartsAtSpace(rest);
  }

  /** str.split() yields one word per maximal run of non-whitespace. */
  lemma {:induction false} SplitWordsCountsRuns(s: string)
    ensures |SplitWords(s)| == WordCount(s)
    decreases |s|
  {
    if TrimLeft(s) == [] {
      RunStartsSkipsSpaces(s);
    } else {
      SplitWordsStep(s);
      WordCountStep(s);
      SplitWordsCountsRuns(AfterFirstWord(s));
    }
  }

  // ---------------------------------------------------------------------------------------------
  // str() of an int and its inverse
  // ---------------------------------------------------------------------------------------------

  predicate IsDigit(c: char) { '0' <= c <= '9' }

  function DigitChar(d: nat): (c: char)
    requires d < 10
    ensures IsDigit(c)
  {
    (48 + d) as char
  }

  /** str(n) for an int n >= 0: its decimal digits without leading zeros. */
  function NatToString(n: nat): (s: string)
    ensures |s| >= 1
    ensures forall k :: 0 <= k < |s| ==> IsDigit(s[k])
    decreases n
  {
    if n < 10 then [DigitChar(n)] else NatToString(n / 10) + [DigitChar(n % 10)]
  }

  /** str(i) for any int i: a minus sign before the digits of a negative number. */
  function IntToString(i: int): (s: string)
    ensures forall k :: 0 <= k < |s| ==> s[k] == '-' || IsDigit(s[k])
  {
    if i < 0 then "-" + NatToString(-i) else NatToString(i)
  }

  /** int(s) for a string of decimal digits (other characters read as 0). */
  function ParseNat(s: string): nat {
    if s == [] then 0
    else
      var c := s[|s| - 1];
      ParseNat(s[..|s| - 1]) * 10 + (if IsDigit(c) then c as int - '0' as int else 0)
  }

  /** int(s) for an optionally signed decimal string. */
  function ParseInt(s: string): int {
    if |s| > 0 && s[0] == '-' then -(ParseNat(s[1..]) as int) else ParseNat(s)
  }

  lemma {:induction false} ParseNatToString(n: nat)
    ensures ParseNat(NatToString(n)) == n
    decreases n
  {
    if n >= 10 {
      var s := NatToString(n);
      assert s[..|s| - 1] == NatToString(n / 10);
      ParseNatToString(n / 10);
    }
  }

  /** int(str(i)) == i. */
  lemma ParseIntToString(i: int)
    ensures ParseInt(IntToString(i)) == i
  {
    if i < 0 {
      assert IntToString(i)[1..] == NatToString(-i);
      ParseNatToString(-i);
    } else {
      ParseNatToString(i);
    }
  }

  /** A larger number never has fewer decimal digits. */
  lemma {:induction false} NatToStringMonotone(x: nat, y: nat)
    requires x <= y
    ensures |NatToString(x)| <= |NatToString(y)|
    decreases y
  {
    if x >= 10 {
      NatToStringMonotone(x / 10, y / 10);
    }
  }

  // ---------------------------------------------------------------------------------------------
  // join(), split() on one character, concatenation, padding
  // ---------------------------------------------------------------------------------------------

  /** sep.join(parts). */
  function Join(sep: string, parts: seq<string>): string {
    if |parts| == 0 then ""
    else if |parts| == 1 then parts[0]
    else parts[0] + sep + Join(sep, parts[1..])
  }

  /** s.split(c) for a one-character separator: the pieces between the occurrences of c. */
  function Split(s: string, c: char): (r: seq<string>)
    ensures |r| >= 1
    ensures forall k :: 0 <= k < |r| ==> c !in r[k]
    decreases |s|
  {
    if s == [] then [""]
    else
      var rest := Split(s[1..], c);
      if s[0] == c then [""] + rest else [[s[0]] + rest[0]] + rest[1..]
  }

  lemma {:induction false} SplitOverPiece(p: string, t: string, c: char)
    requires c !in p
    ensures Split(p + t, c) == [p + Split(t, c)[0]] + Split(t, c)[1..]
    decreases |p|
  {
    if p == [] {
      assert p + t == t;
      var r := Split(t, c);
      assert r == [r[0]] + r[1..];
      assert p + r[0] == r[0];
    } else {
      assert (p + t)[1..] == p[1..] + t;
      SplitOverPiece(p[1..], t, c);
      assert [p[0]] + (p[1..] + Split(t, c)[0]) == p + Split(t, c)[0];
    }
  }

  /** Splitting a join at its separator gives the parts back, when no part holds the separator. */
  lemma {:induction false} SplitJoin(parts: seq<string>, c: char)
    requires |parts| >= 1
    requires forall k :: 0 <= k < |parts| ==> c !in parts[k]
    ensures Split(Join([c], parts), c) == parts
    decreases |parts|
  {
    if |parts| == 1 {
      SplitOverPiece(parts[0], "", c);
      assert parts[0] + "" == parts[0];
    } else {
      var tail := Join([c], parts[1..]);
      assert Join([c], parts) == parts[0] + ([c] + tail);
      SplitOverPiece(parts[0], [c] + tail, c);
      assert ([c] + tail)[1..] == tail;
      SplitJoin(parts[1..], c);
      assert parts[0] + "" == parts[0];
      assert [parts[0]] + parts[1..] == parts;
    }
  }

  /** The strings of ss written one after the other. */
  function Concat(ss: seq<string>): string {
    if ss == [] then "" else Concat(ss[..|ss| - 1]) + ss[|ss| - 1]
  }

  lemma ConcatAppend(ss: seq<string>, x: string)
    ensures Concat(ss + [x]) == Concat(ss) + x
  {
    assert (ss + [x])[..|ss|] == ss;
  }

  function Spaces(k: nat): (s: string)
    ensures |s| == k && forall i :: 0 <= i < k ==> s[i] == ' '
  {
    seq(k, _ => ' ')
  }

  /** s.ljust(width): s followed by spaces up to width characters; a longer s is kept whole. */
  function LJust(s: string, width: int): (r: string)
    ensures |r| == Max(|s|, width)
    ensures r[..|s|] == s
    ensures forall k :: |s| <= k < |r| ==> r[k] == ' '
  {
    if |s| >= width then s else s + Spaces(width - |s|)
  }

  /** s.rjust(width) (format spec ">width"): spaces before s up to width characters; a longer
      s is kept whole. */
  function RJust(s: string, width: int): (r: string)
    ensures |r| == Max(|s|, width)
    ensures r[|r| - |s|..] == s
    ensures forall k :: 0 <= k < |r| - |s| ==> r[k] == ' '
  {
    if |s| >= width then s else Spaces(width - |s|) + s
  }
}
