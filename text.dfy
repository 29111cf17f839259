/** The Python `str` operations the system relies on, over `seq<char>`.
    Letter case is ASCII only: `lower`, `upper` and `title` change the
    letters A-Z and a-z and leave every other character alone. */
module Text {

  // ---------------------------------------------------------------------
  // Characters

  /** The characters `str.split()` and `str.strip()` treat as whitespace
      (the ASCII ones; other Unicode spaces are not modelled). */
  predicate IsSpace(c: char) {
    c == ' ' || c == '\t' || c == '\n' || c == '\r' || c == '\U{B}' || c == '\U{C}'
    || c == '\U{1C}' || c == '\U{1D}' || c == '\U{1E}' || c == '\U{1F}'
  }

  predicate IsUpper(c: char) { 'A' <= c <= 'Z' }
  predicate IsLower(c: char) { 'a' <= c <= 'z' }
  /** A "cased" character in the sense of `str.title()`. */
  predicate IsCased(c: char) { IsUpper(c) || IsLower(c) }

  function LowerChar(c: char): (d: char)
    ensures !IsUpper(d)
    ensures IsCased(d) == IsCased(c) && IsSpace(d) == IsSpace(c)
    ensures !IsUpper(c) ==> d == c
  {
    if IsUpper(c) then (c as int + 32) as char else c
  }

  function UpperChar(c: char): (d: char)
    ensures !IsLower(d)
    ensures IsCased(d) == IsCased(c)
    ensures !IsLower(c) ==> d == c
  {
    if IsLower(c) then (c as int - 32) as char else c
  }

  // ---------------------------------------------------------------------
  // Case mapping

  /** Title-casing changes letters only. */
  lemma {:induction false} TitleKeepsNonLetters(s: string, afterCased: bool)
    ensures forall i :: 0 <= i < |s| && !IsCased(s[i]) ==> TitleAfter(s, afterCased)[i] == s[i]
    ensures forall i :: 0 <= i < |s| && IsCased(s[i]) ==> IsCased(TitleAfter(s, afterCased)[i])
  {
    if |s| > 0 {
      TitleKeepsNonLetters(s[1..], IsCased(s[0]));
    }
  }

  /** Title-casing works piece by piece, each piece seeing whether the
      character before it is cased. */
  lemma {:induction false} TitleConcat(a: string, b: string, afterCased: bool)
    requires |a| > 0
    ensures TitleAfter(a + b, afterCased) == TitleAfter(a, afterCased) + TitleAfter(b, IsCased(a[|a| - 1]))
  {
    assert (a + b)[1..] == a[1..] + b;
    if |a| > 1 {
      TitleConcat(a[1..], b, IsCased(a[0]));
    } else {
      assert a[1..] + b == b;
    }
  }

  /** A lower-case word keeps its letters, with the first upper-cased when
      nothing cased comes before it. */
  lemma {:induction false} TitleLowerWord(w: string, afterCased: bool)
    requires |w| > 0 && forall i :: 0 <= i < |w| ==> IsLower(w[i])
    ensures TitleAfter(w, afterCased) == [if afterCased then w[0] else UpperChar(w[0])] + w[1..]
  {
    if |w| > 1 {
      TitleLowerWord(w[1..], true);
      assert [w[1]] + w[2..] == w[1..];
    }
  }

  /** The case a title-cased character gets depends only on whether the
      character before it is cased. */
  lemma {:induction false} TitleAfterAt(s: string, afterCased: bool, i: nat)
    requires i < |s|
    ensures var before := if i == 0 then afterCased else IsCased(s[i - 1]);
      TitleAfter(s, afterCased)[i] ==
        if !IsCased(s[i]) then s[i] else if before then LowerChar(s[i]) else UpperChar(s[i])
  {
    if i > 0 {
      TitleAfterAt(s[1..], IsCased(s[0]), i - 1);
    }
  }

  lemma TitleUncased(s: string, afterCased: bool)
    requires forall i :: 0 <= i < |s| ==> !IsCased(s[i])
    ensures TitleAfter(s, afterCased) == s
  {
  }

  /** `s.lower()` */
  function Lower(s: string): (r: string)
    ensures |r| == |s|
    ensures forall i :: 0 <= i < |s| ==> r[i] == LowerChar(s[i])
  {
    seq(|s|, i requires 0 <= i < |s| => LowerChar(s[i]))
  }

  /** `s.upper()` */
  function Upper(s: string): (r: string)
    ensures |r| == |s|
    ensures forall i :: 0 <= i < |s| ==> r[i] == UpperChar(s[i])
  {
    seq(|s|, i requires 0 <= i < |s| => UpperChar(s[i]))
  }

  /** `s.title()`: a cased character is upper-cased when the character
      before it is not cased, and lower-cased otherwise. */
  function Title(s: string): (r: string)
    ensures |r| == |s|
  {
    TitleAfter(s, false)
  }

  function TitleAfter(s: string, afterCased: bool): (r: string)
    ensures |r| == |s|
  {
    if |s| == 0 then ""
    else
      var c := if !IsCased(s[0]) then s[0]
               else if afterCased then LowerChar(s[0])
               else UpperChar(s[0]);
      [c] + TitleAfter(s[1..], IsCased(s[0]))
  }

  lemma LowerConcat(a: string, b: string)
    ensures Lower(a + b) == Lower(a) + Lower(b)
  {
    assert forall i :: 0 <= i < |a + b| ==> Lower(a + b)[i] == (Lower(a) + Lower(b))[i];
  }

  lemma LowerIdempotent(s: string)
    ensures Lower(Lower(s)) == Lower(s)
  {
  }

  // ---------------------------------------------------------------------
  // Substrings

  /** Python's `p in s` for strings (the empty string is in every string). */
  predicate IsSubstring(p: string, s: string) {
    exists i | 0 <= i <= |s| - |p| :: OccursAt(p, s, i)
  }

  /** `p` is found in `s` starting at index `i`. */
  predicate OccursAt(p: string, s: string, i: int) {
    0 <= i <= |s| - |p| && s[i..i + |p|] == p
  }

  predicate StartsWith(s: string, p: string) {
    |p| <= |s| && s[..|p|] == p
  }

  /** `s.endswith(p)` */
  predicate EndsWith(s: string, p: string) {
    |p| <= |s| && s[|s| - |p|..] == p
  }

  lemma SubstringAt(p: string, s: string, i: int)
    requires OccursAt(p, s, i)
    ensures IsSubstring(p, s)
  {
  }

  lemma SubstringOfSelf(s: string)
    ensures IsSubstring(s, s)
  {
    SubstringAt(s, s, 0);
  }

  lemma SubstringInContext(p: string, s: string, x: string, y: string)
    requires IsSubstring(p, s)
    ensures IsSubstring(p, x + s + y)
  {
    var i :| 0 <= i <= |s| - |p| && OccursAt(p, s, i);
    var t := x + s + y;
    assert t[|x| + i..|x| + i + |p|] == s[i..i + |p|];
    SubstringAt(p, t, |x| + i);
  }

  /** Both pieces of `a + p + b + q + c` occur in it. */
  lemma BothOccur(a: string, p: string, b: string, q: string, c: string)
    ensures IsSubstring(p, a + p + b + q + c) && IsSubstring(q, a + p + b + q + c)
  {
    SubstringOfSelf(p);
    SubstringInContext(p, p, a, b + q + c);
    assert a + p + b + q + c == a + p + (b + q + c);
    SubstringOfSelf(q);
    SubstringInContext(q, q, a + p + b, c);
  }

  // A line `h + x + m + y + n + z + t` with three fields `x`, `y`, `z`
  // starts with `h + x + m`, holds `m + y + n` and ends with `n + z + t`.

  lemma PrefixOf(a: string, b: string)
    ensures StartsWith(a + b, a)
  {
    assert (a + b)[..|a|] == a;
  }

  lemma SuffixOf(a: string, b: string)
    ensures EndsWith(a + b, b)
  {
    assert (a + b)[|a|..] == b;
  }

  lemma FrontOf(front: string, y: string, n: string, z: string, t: string)
    ensures StartsWith(front + y + n + z + t, front)
  {
    var line := front + y + n + z + t;
    assert forall i :: 0 <= i < |front| ==> line[i] == front[i];
    assert line[..|front|] == front;
  }

  lemma MiddleOf(h: string, x: string, m: string, y: string, n: string, z: string, t: string)
    ensures IsSubstring(m + y + n, h + x + m + y + n + z + t)
  {
    var middle := m + y + n;
    SubstringOfSelf(middle);
    SubstringInContext(middle, middle, h + x, z + t);
    assert (h + x) + middle + (z + t) == h + x + m + y + n + z + t;
  }

  lemma BackOf(h: string, x: string, m: string, y: string, n: string, z: string, t: string)
    ensures EndsWith(h + x + m + y + n + z + t, n + z + t)
  {
    var line, before, back := h + x + m + y + n + z + t, h + x + m + y, n + z + t;
    assert line == before + back;
    assert line[|before|..] == back;
  }

  lemma SubstringTransitive(a: string, b: string, c: string)
    requires IsSubstring(a, b) && IsSubstring(b, c)
    ensures IsSubstring(a, c)
  {
    var i :| 0 <= i <= |b| - |a| && OccursAt(a, b, i);
    var j :| 0 <= j <= |c| - |b| && OccursAt(b, c, j);
    forall k | 0 <= k < |a|
      ensures c[j + i + k] == a[k]
    {
      assert c[j..j + |b|][i + k] == b[i + k];
      assert b[i..i + |a|][k] == b[i + k];
    }
    assert c[j + i..j + i + |a|] == a;
    SubstringAt(a, c, j + i);
  }

  lemma LowerSubstring(p: string, s: string)
    requires IsSubstring(p, s)
    ensures IsSubstring(Lower(p), Lower(s))
  {
    var i :| 0 <= i <= |s| - |p| && OccursAt(p, s, i);
    assert Lower(s)[i..i + |p|] == Lower(p);
    SubstringAt(Lower(p), Lower(s), i);
  }

  // ---------------------------------------------------------------------
  // Replacing

  /** `s.replace(pat, rep)`: occurrences are found left to right and
      never overlap. */
  function Replace(s: string, pat: string, rep: string): (r: string)
    requires |pat| > 0
    decreases |s|
  {
    if |s| < |pat| then s
    else if s[..|pat|] == pat then rep + Replace(s[|pat|..], pat, rep)
    else [s[0]] + Replace(s[1..], pat, rep)
  }

  /** Replacing a pattern that does not occur changes nothing. */
  lemma {:induction false} ReplaceAbsent(s: string, pat: string, rep: string)
    requires |pat| > 0 && !IsSubstring(pat, s)
    ensures Replace(s, pat, rep) == s
    decreases |s|
  {
    if |s| >= |pat| {
      assert !OccursAt(pat, s, 0);
      assert !IsSubstring(pat, s[1..]) by {
        if IsSubstring(pat, s[1..]) {
          var i :| 0 <= i <= |s[1..]| - |pat| && OccursAt(pat, s[1..], i);
          assert s[i + 1..i + 1 + |pat|] == s[1..][i..i + |pat|];
          assert OccursAt(pat, s, i + 1);
        }
      }
      ReplaceAbsent(s[1..], pat, rep);
      assert s == [s[0]] + s[1..];
    }
  }

  /** `s` with every copy of `c` deleted. */
  function Without(s: string, c: char): (r: string)
    ensures c !in r
    ensures |r| <= |s|
  {
    if |s| == 0 then "" else (if s[0] == c then "" else [s[0]]) + Without(s[1..], c)
  }

  lemma {:induction false} WithoutConcat(a: string, b: string, c: char)
    ensures Without(a + b, c) == Without(a, c) + Without(b, c)
  {
    if |a| > 0 {
      assert (a + b)[1..] == a[1..] + b;
      WithoutConcat(a[1..], b, c);
    } else {
      assert a + b == b;
    }
  }

  lemma {:induction false} ReplaceCharByNothing(s: string, c: char)
    ensures Replace(s, [c], "") == Without(s, c)
  {
    if |s| > 0 {
      ReplaceCharByNothing(s[1..], c);
    }
  }

  /** Removing "**" first and then "*" deletes exactly the stars. */
  lemma {:induction false} ReplaceDoubleThenSingle(s: string, c: char)
    ensures Replace(Replace(s, [c, c], ""), [c], "") == Without(s, c)
    decreases |s|
  {
    var once := Replace(s, [c, c], "");
    ReplaceCharByNothing(once, c);
    if |s| < 2 {
      assert once == s;
      if |s| == 1 {
        assert s[1..] == "";
      }
    } else if s[..2] == [c, c] {
      ReplaceDoubleThenSingle(s[2..], c);
      assert once == Replace(s[2..], [c, c], "");
      assert s == [c, c] + s[2..];
      assert [c, c][1..] == [c];
      assert Without([c, c], c) == "";
      WithoutConcat([c, c], s[2..], c);
      ReplaceCharByNothing(Replace(s[2..], [c, c], ""), c);
    } else {
      ReplaceDoubleThenSingle(s[1..], c);
      assert once == [s[0]] + Replace(s[1..], [c, c], "");
      WithoutConcat([s[0]], Replace(s[1..], [c, c], ""), c);
      ReplaceCharByNothing(Replace(s[1..], [c, c], ""), c);
      assert s == [s[0]] + s[1..];
      WithoutConcat([s[0]], s[1..], c);
    }
  }

  /** Replacing a single character works piece by piece. */
  lemma {:induction false} ReplaceCharConcat(a: string, b: string, c: char, rep: string)
    ensures Replace(a + b, [c], rep) == Replace(a, [c], rep) + Replace(b, [c], rep)
  {
    if |a| > 0 {
      assert (a + b)[1..] == a[1..] + b;
      assert (a + b)[..1] == a[..1];
      ReplaceCharConcat(a[1..], b, c, rep);
    } else {
      assert a + b == b;
    }
  }

  lemma {:induction false} ReplaceCharAbsent(s: string, c: char, rep: string)
    requires c !in s
    ensures Replace(s, [c], rep) == s
  {
    if |s| > 0 {
      assert s[..1] == [s[0]];
      ReplaceCharAbsent(s[1..], c, rep);
    }
  }

  /** Replacing one character by another works character by character. */
  lemma {:induction false} ReplaceCharAt(s: string, c: char, d: char)
    ensures |Replace(s, [c], [d])| == |s|
    ensures forall i :: 0 <= i < |s| ==> Replace(s, [c], [d])[i] == if s[i] == c then d else s[i]
  {
    if |s| > 0 {
      ReplaceCharAt(s[1..], c, d);
      assert s[..1] == [s[0]];
    }
  }

  /** Replacing one character by another leaves no copy of the first. */
  lemma {:induction false} ReplaceCharRemovesIt(s: string, c: char, d: char)
    requires c != d
    ensures c !in Replace(s, [c], [d])
    ensures |Replace(s, [c], [d])| == |s|
  {
    if |s| > 0 {
      ReplaceCharRemovesIt(s[1..], c, d);
    }
  }

  // ---------------------------------------------------------------------
  // Whitespace: strip and split

  /** The index of the first non-space character of `s` at or after `i`,
      or `|s|` if there is none. */
  function SkipSpaces(s: string, i: nat): (j: nat)
    requires i <= |s|
    ensures i <= j <= |s|
    decreases |s| - i
  {
    if i < |s| && IsSpace(s[i]) then SkipSpaces(s, i + 1) else i
  }

  /** The end of `s[..j]` once its trailing spaces are cut off. */
  function TrimSpaces(s: string, j: nat): (k: nat)
    requires j <= |s|
    ensures k <= j
  {
    if j > 0 && IsSpace(s[j - 1]) then TrimSpaces(s, j - 1) else j
  }

  lemma {:induction false} SkipSpacesSkips(s: string, i: nat)
    requires i <= |s|
    ensures forall k :: i <= k < SkipSpaces(s, i) ==> IsSpace(s[k])
    ensures SkipSpaces(s, i) == |s| || !IsSpace(s[SkipSpaces(s, i)])
    decreases |s| - i
  {
    if i < |s| && IsSpace(s[i]) {
      SkipSpacesSkips(s, i + 1);
    }
  }

  lemma {:induction false} TrimSpacesTrims(s: string, j: nat)
    requires j <= |s|
    ensures forall k :: TrimSpaces(s, j) <= k < j ==> IsSpace(s[k])
    ensures TrimSpaces(s, j) == 0 || !IsSpace(s[TrimSpaces(s, j) - 1])
  {
    if j > 0 && IsSpace(s[j - 1]) {
      TrimSpacesTrims(s, j - 1);
    }
  }

  /** `s.lstrip()` */
  function LStrip(s: string): string {
    s[SkipSpaces(s, 0)..]
  }

  /** `s.rstrip()` */
  function RStrip(s: string): string {
    s[..TrimSpaces(s, |s|)]
  }

  /** `s.strip()` */
  function Strip(s: string): string {
    RStrip(LStrip(s))
  }

  /** What `strip` removes is whitespace, and what it leaves neither starts
      nor ends with whitespace. */
  lemma StripSpec(s: string)
    ensures var i := SkipSpaces(s, 0);
      (forall k :: 0 <= k < i ==> IsSpace(s[k]))
      && LStrip(s) == s[i..]
      && (LStrip(s) == "" || !IsSpace(LStrip(s)[0]))
    ensures var r := Strip(s); r == "" || (!IsSpace(r[0]) && !IsSpace(r[|r| - 1]))
    ensures exists i, j :: 0 <= i <= j <= |s| && Strip(s) == s[i..j]
  {
    var i := SkipSpaces(s, 0);
    SkipSpacesSkips(s, 0);
    var l := s[i..];
    var j := TrimSpaces(l, |l|);
    TrimSpacesTrims(l, |l|);
    if j > 0 {
      SkipSpacesSkips(l, 0);
      assert SkipSpaces(l, 0) == 0;
      assert TrimSpaces(l, |l|) > 0;
    }
    assert Strip(s) == l[..j] == s[i..i + j];
  }

  lemma StripStripped(s: string)
    requires s == "" || (!IsSpace(s[0]) && !IsSpace(s[|s| - 1]))
    ensures Strip(s) == s
  {
    assert LStrip(s) == s;
  }

  lemma {:induction false} SkipSpacesLower(s: string, i: nat)
    requires i <= |s|
    ensures SkipSpaces(Lower(s), i) == SkipSpaces(s, i)
    decreases |s| - i
  {
    if i < |s| {
      SkipSpacesLower(s, i + 1);
    }
  }

  lemma {:induction false} TrimSpacesLower(s: string, j: nat)
    requires j <= |s|
    ensures TrimSpaces(Lower(s), j) == TrimSpaces(s, j)
  {
    if j > 0 {
      TrimSpacesLower(s, j - 1);
    }
  }

  lemma LStripLower(s: string)
    ensures LStrip(Lower(s)) == Lower(LStrip(s))
  {
    SkipSpacesLower(s, 0);
    assert Lower(s)[SkipSpaces(s, 0)..] == Lower(s[SkipSpaces(s, 0)..]);
  }

  lemma RStripLower(s: string)
    ensures RStrip(Lower(s)) == Lower(RStrip(s))
  {
    TrimSpacesLower(s, |s|);
    assert Lower(s)[..TrimSpaces(s, |s|)] == Lower(s[..TrimSpaces(s, |s|)]);
  }

  /** Length of the run of non-space characters at the front of `s`. */
  function WordLength(s: string): (n: nat)
    ensures n <= |s|
    ensures forall i :: 0 <= i < n ==> !IsSpace(s[i])
    ensures n < |s| ==> IsSpace(s[n])
    ensures |s| > 0 && !IsSpace(s[0]) ==> n > 0
  {
    if |s| == 0 || IsSpace(s[0]) then 0 else 1 + WordLength(s[1..])
  }

  /** `s.split()`: the maximal runs of non-space characters, in order. */
  function Split(s: string): (r: seq<string>)
    ensures forall t :: t in r ==> |t| > 0
    decreases |s|
  {
    if |s| == 0 then []
    else if IsSpace(s[0]) then Split(s[1..])
    else
      var n := WordLength(s);
      [s[..n]] + Split(s[n..])
  }

  /** `set(s.split())` */
  function Tokens(s: string): set<string> {
    set t | t in Split(s)
  }

  /** Every token of `s.split()` occurs in `s`. */
  lemma {:induction false} SplitTokenInString(s: string, t: string)
    requires t in Split(s)
    ensures IsSubstring(t, s)
    decreases |s|
  {
    if IsSpace(s[0]) {
      SplitTokenInString(s[1..], t);
      assert s == [s[0]] + s[1..] + "";
      SubstringInContext(t, s[1..], [s[0]], "");
    } else {
      var n := WordLength(s);
      if t == s[..n] {
        SubstringAt(t, s, 0);
      } else {
        SplitTokenInString(s[n..], t);
        assert s == s[..n] + s[n..] + "";
        SubstringInContext(t, s[n..], s[..n], "");
      }
    }
  }

  /** Splitting a word that stands at the front of a string. */
  lemma SplitWordFirst(w: string, rest: string)
    requires |w| > 0 && forall i :: 0 <= i < |w| ==> !IsSpace(w[i])
    requires rest == "" || IsSpace(rest[0])
    ensures Split(w + rest) == [w] + Split(rest)
  {
    WordLengthOf(w, rest);
    assert (w + rest)[..|w|] == w;
    assert (w + rest)[|w|..] == rest;
  }

  lemma {:induction false} WordLengthOf(w: string, rest: string)
    requires forall i :: 0 <= i < |w| ==> !IsSpace(w[i])
    requires rest == "" || IsSpace(rest[0])
    ensures WordLength(w + rest) == |w|
  {
    if |w| > 0 {
      assert (w + rest)[1..] == w[1..] + rest;
      WordLengthOf(w[1..], rest);
    }
  }

  lemma SplitSpaceFirst(c: char, rest: string)
    requires IsSpace(c)
    ensures Split([c] + rest) == Split(rest)
  {
    assert ([c] + rest)[1..] == rest;
  }

  // ---------------------------------------------------------------------
  // Numbers, joining and comparison

  function DigitChar(d: nat): (c: char)
    requires d < 10
    ensures '0' <= c <= '9'
  {
    "0123456789"[d]
  }

  /** `str(n)` for a natural number: its decimal digits. */
  function NatToStr(n: nat): (r: string)
    ensures |r| > 0
    ensures forall i :: 0 <= i < |r| ==> '0' <= r[i] <= '9'
    decreases n
  {
    if n < 10 then [DigitChar(n)] else NatToStr(n / 10) + [DigitChar(n % 10)]
  }

  /** `"".join(ss)` */
  function Concat(ss: seq<string>): string {
    if |ss| == 0 then "" else Concat(ss[..|ss| - 1]) + ss[|ss| - 1]
  }

  lemma {:induction false} ConcatAppend(ss: seq<string>, tt: seq<string>)
    ensures Concat(ss + tt) == Concat(ss) + Concat(tt)
    decreases |tt|
  {
    if |tt| == 0 {
      assert ss + tt == ss;
    } else {
      assert (ss + tt)[..|ss + tt| - 1] == ss + tt[..|tt| - 1];
      ConcatAppend(ss, tt[..|tt| - 1]);
    }
  }

  /** Where the `i`-th piece sits in the joined string. */
  lemma ConcatSplit(ss: seq<string>, i: nat)
    requires i < |ss|
    ensures Concat(ss) == Concat(ss[..i]) + ss[i] + Concat(ss[i + 1..])
  {
    var upTo, after := ss[..i + 1], ss[i + 1..];
    assert ss == upTo + after;
    ConcatAppend(upTo, after);
    assert upTo[..|upTo| - 1] == ss[..i];
    assert Concat(upTo) == Concat(ss[..i]) + ss[i];
  }

  /** Python's `a <= b` on strings: lexicographic by code point. */
  predicate StrLe(a: string, b: string)
    decreases |a|
  {
    if |a| == 0 then true
    else if |b| == 0 then false
    else if a[0] != b[0] then a[0] < b[0]
    else StrLe(a[1..], b[1..])
  }

  lemma {:induction false} StrLeTotal(a: string, b: string)
    ensures StrLe(a, b) || StrLe(b, a)
    decreases |a|
  {
    if |a| > 0 && |b| > 0 && a[0] == b[0] {
      StrLeTotal(a[1..], b[1..]);
    }
  }

  lemma {:induction false} StrLeTransitive(a: string, b: string, c: string)
    requires StrLe(a, b) && StrLe(b, c)
    ensures StrLe(a, c)
    decreases |a|
  {
    if |a| > 0 && |b| > 0 && |c| > 0 && a[0] == b[0] && b[0] == c[0] {
      StrLeTransitive(a[1..], b[1..], c[1..]);
    }
  }
}
