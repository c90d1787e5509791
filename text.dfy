/** The handful of Python `str` operations the scripts rely on: `strip()`,
    `lower()`, `startswith`, `in`, `replace`, `' '.join`, `split(' ')` and
    `isalnum()`, on strings as sequences of characters. */
module Text {

  /** Python's `str.isspace()` for one character: the characters `str.strip()`
      removes when called without arguments. */
  predicate IsSpace(c: char) {
    || ('\t' <= c <= '\r')
    || ('\U{001C}' <= c <= '\U{001F}')
    || c == ' ' || c == '\U{0085}' || c == '\U{00A0}' || c == '\U{1680}'
    || ('\U{2000}' <= c <= '\U{200A}')
    || c == '\U{2028}' || c == '\U{2029}' || c == '\U{202F}' || c == '\U{205F}'
    || c == '\U{3000}'
  }

  /** Python's `str.isalnum()` for one character, exact for characters below
      U+0250 (ASCII, Latin-1, Latin Extended-A and -B); characters from later
      blocks count as not alphanumeric. */
  predicate IsAlnumChar(c: char) {
    || ('0' <= c <= '9') || ('A' <= c <= 'Z') || ('a' <= c <= 'z')
    || c == '\U{00AA}' || c == '\U{00B2}' || c == '\U{00B3}' || c == '\U{00B5}'
    || c == '\U{00B9}' || c == '\U{00BA}'
    || ('\U{00BC}' <= c <= '\U{00BE}')
    || ('\U{00C0}' <= c <= '\U{024F}' && c != '\U{00D7}' && c != '\U{00F7}')
  }

  /** `tok.isalnum()`: true for a non-empty string of alphanumeric characters. */
  predicate IsAlnum(s: string) {
    |s| > 0 && forall i :: 0 <= i < |s| ==> IsAlnumChar(s[i])
  }

  /** Lower-case mapping of one character: ASCII and Latin-1 capitals. */
  function LowerChar(c: char): char {
    if 'A' <= c <= 'Z' || ('\U{00C0}' <= c <= '\U{00DE}' && c != '\U{00D7}')
    then (c as int + 32) as char
    else c
  }

  /** `s.lower()`, character by character. */
  function Lower(s: string): (r: string)
    ensures |r| == |s|
    ensures forall i :: 0 <= i < |s| ==> r[i] == LowerChar(s[i])
  {
    seq(|s|, i requires 0 <= i < |s| => LowerChar(s[i]))
  }

  /** `s.startswith(p)`. */
  predicate StartsWith(s: string, p: string) {
    |p| <= |s| && s[..|p|] == p
  }

  /** A prefix of a prefix is a prefix. */
  lemma StartsWithPrefix(s: string, p: string, q: string)
    requires StartsWith(s, p) && StartsWith(p, q)
    ensures StartsWith(s, q)
  {
    assert s[..|q|] == s[..|p|][..|q|];
  }

  /** `s.endswith(p)`. */
  predicate EndsWith(s: string, p: string) {
    |p| <= |s| && s[|s| - |p|..] == p
  }

  /** `p` occurs in `s` starting at index `i`. */
  predicate OccursAt(s: string, p: string, i: int) {
    0 <= i && i + |p| <= |s| && s[i..i + |p|] == p
  }

  /** `p in s`: `p` occurs somewhere in `s` as a contiguous substring. */
  predicate Contains(s: string, p: string)
    decreases |s|
  {
    StartsWith(s, p) || (|s| > 0 && Contains(s[1..], p))
  }

  /** `Contains` holds exactly when some index of `s` starts an occurrence of `p`. */
  lemma {:induction false} ContainsAt(s: string, p: string)
    ensures Contains(s, p) <==> exists i :: OccursAt(s, p, i)
    decreases |s|
  {
    if StartsWith(s, p) {
      assert OccursAt(s, p, 0);
    }
    if |s| > 0 {
      ContainsAt(s[1..], p);
      if Contains(s[1..], p) {
        var i :| OccursAt(s[1..], p, i);
        assert s[i + 1..i + 1 + |p|] == s[1..][i..i + |p|];
        assert OccursAt(s, p, i + 1);
      }
      if exists i :: OccursAt(s, p, i) {
        var i :| OccursAt(s, p, i);
        if i > 0 {
          assert s[1..][i - 1..i - 1 + |p|] == s[i..i + |p|];
          assert OccursAt(s[1..], p, i - 1);
        }
      }
    } else if exists i :: OccursAt(s, p, i) {
      var i :| OccursAt(s, p, i);
      assert s[..|p|] == s[i..i + |p|];
    }
  }

  /** An occurrence survives lower-casing: if `p` occurs in `s`, then
      `p.lower()` occurs in `s.lower()`. */
  lemma ContainsLower(s: string, p: string)
    requires Contains(s, p)
    ensures Contains(Lower(s), Lower(p))
  {
    ContainsAt(s, p);
    var i :| OccursAt(s, p, i);
    forall k | 0 <= k < |p| ensures Lower(s)[i + k] == Lower(p)[k] {
      assert s[i + k] == s[i..i + |p|][k];
    }
    assert Lower(s)[i..i + |p|] == Lower(p);
    assert OccursAt(Lower(s), Lower(p), i);
    ContainsAt(Lower(s), Lower(p));
  }

  /** Leading whitespace removed. */
  function TrimStart(s: string): string
    decreases |s|
  {
    if s != [] && IsSpace(s[0]) then TrimStart(s[1..]) else s
  }

  /** Trailing whitespace removed. */
  function TrimEnd(s: string): string
    decreases |s|
  {
    if s != [] && IsSpace(s[|s| - 1]) then TrimEnd(s[..|s| - 1]) else s
  }

  /** `TrimStart` returns the suffix of `s` that starts at its first
      non-whitespace character. */
  lemma {:induction false} TrimStartSpec(s: string)
    ensures var r := TrimStart(s);
      && |r| <= |s| && r == s[|s| - |r|..]
      && (forall k :: 0 <= k < |s| - |r| ==> IsSpace(s[k]))
      && (r != [] ==> !IsSpace(r[0]))
    decreases |s|
  {
    if s != [] && IsSpace(s[0]) {
      TrimStartSpec(s[1..]);
    }
  }

  /** `TrimEnd` returns the prefix of `s` that ends at its last
      non-whitespace character. */
  lemma {:induction false} TrimEndSpec(s: string)
    ensures var r := TrimEnd(s);
      && |r| <= |s| && r == s[..|r|]
      && (forall k :: |r| <= k < |s| ==> IsSpace(s[k]))
      && (r != [] ==> !IsSpace(r[|r| - 1]))
    decreases |s|
  {
    if s != [] && IsSpace(s[|s| - 1]) {
      TrimEndSpec(s[..|s| - 1]);
      var r := TrimEnd(s[..|s| - 1]);
      assert s[..|s| - 1][..|r|] == s[..|r|];
    }
  }

  /** `s.strip()`. */
  function Strip(s: string): string {
    TrimEnd(TrimStart(s))
  }

  /** A piece cut from the front of a suffix, with whitespace on both sides
      of the cut and none at its own ends, is a contiguous slice of the whole
      string with only whitespace around it. */
  lemma TrimmedSlice(s: string, t: string, r: string)
    requires |t| <= |s| && t == s[|s| - |t|..] && (forall k :: 0 <= k < |s| - |t| ==> IsSpace(s[k]))
    requires t != [] ==> !IsSpace(t[0])
    requires |r| <= |t| && r == t[..|r|] && (forall k :: |r| <= k < |t| ==> IsSpace(t[k]))
    requires r != [] ==> !IsSpace(r[|r| - 1])
    ensures exists i :: (OccursAt(s, r, i)
                       && (forall k :: 0 <= k < i ==> IsSpace(s[k]))
                       && (forall k :: i + |r| <= k < |s| ==> IsSpace(s[k])))
    ensures r != [] ==> !IsSpace(r[0]) && !IsSpace(r[|r| - 1])
  {
    var i := |s| - |t|;
    assert s[i..i + |r|] == t[..|r|];
    forall k | i + |r| <= k < |s| ensures IsSpace(s[k]) {
      assert s[k] == t[k - i];
    }
    assert OccursAt(s, r, i);
    assert r != [] ==> r[0] == t[0];
  }

  /** What `strip()` returns: a contiguous piece of `s` that neither starts nor
      ends with whitespace, everything cut off on either side being whitespace. */
  lemma StripIsTrimmedSlice(s: string)
    ensures exists i :: (OccursAt(s, Strip(s), i)
                       && (forall k :: 0 <= k < i ==> IsSpace(s[k]))
                       && (forall k :: i + |Strip(s)| <= k < |s| ==> IsSpace(s[k])))
    ensures Strip(s) != [] ==> !IsSpace(Strip(s)[0]) && !IsSpace(Strip(s)[|Strip(s)| - 1])
  {
    TrimStartSpec(s);
    TrimEndSpec(TrimStart(s));
    TrimmedSlice(s, TrimStart(s), Strip(s));
  }

  /** A leading word that neither starts nor ends with whitespace is still
      leading once the string is stripped. */
  lemma StripKeepsPrefix(s: string, w: string)
    requires StartsWith(s, w) && |w| > 0 && !IsSpace(w[0]) && !IsSpace(w[|w| - 1])
    ensures StartsWith(Strip(s), w)
  {
    assert s[0] == w[0] && s[|w| - 1] == w[|w| - 1];
    assert TrimStart(s) == s;
    TrimEndSpec(s);
    var r := TrimEnd(s);
    assert r[..|w|] == s[..|w|];
  }

  /** `s.replace(a, b)` for a non-empty `a`: every occurrence of `a`, scanning
      left to right without overlaps, is replaced by `b`. */
  function Replace(s: string, a: string, b: string): string
    requires |a| > 0
    decreases |s|
  {
    if |s| < |a| then s
    else if s[..|a|] == a then b + Replace(s[|a|..], a, b)
    else [s[0]] + Replace(s[1..], a, b)
  }

  /** A string that starts with `a` comes out of the replacement starting with `b`. */
  lemma ReplaceLeading(s: string, a: string, b: string)
    requires |a| > 0 && StartsWith(s, a)
    ensures Replace(s, a, b) == b + Replace(s[|a|..], a, b)
    ensures StartsWith(Replace(s, a, b), b)
  {
  }

  /** Where `a` does not occur, the replacement changes nothing. */
  lemma {:induction false} ReplaceAbsent(s: string, a: string, b: string)
    requires |a| > 0 && !Contains(s, a)
    ensures Replace(s, a, b) == s
    decreases |s|
  {
    if |s| >= |a| {
      ReplaceAbsent(s[1..], a, b);
      assert [s[0]] + s[1..] == s;
    }
  }

  /** Replacing a string by one of the same length keeps the length. */
  lemma {:induction false} ReplaceKeepsLength(s: string, a: string, b: string)
    requires |a| > 0 && |a| == |b|
    ensures |Replace(s, a, b)| == |s|
    decreases |s|
  {
    if |s| >= |a| {
      if s[..|a|] == a {
        ReplaceKeepsLength(s[|a|..], a, b);
      } else {
        ReplaceKeepsLength(s[1..], a, b);
      }
    }
  }

  /** `' '.join(ws)`. */
  function JoinWords(ws: seq<string>): string
    decreases |ws|
  {
    if |ws| == 0 then ""
    else if |ws| == 1 then ws[0]
    else ws[0] + " " + JoinWords(ws[1..])
  }

  /** `s.split(' ')`: the pieces between single spaces, empty pieces included;
      never an empty list. */
  function SplitSpaces(s: string): (r: seq<string>)
    ensures |r| >= 1
    decreases |s|
  {
    if |s| == 0 then [""]
    else
      var rest := SplitSpaces(s[1..]);
      if s[0] == ' ' then [""] + rest
      else [[s[0]] + rest[0]] + rest[1..]
  }

  /** A string without spaces splits into itself. */
  lemma {:induction false} SplitWithoutSpace(w: string)
    requires ' ' !in w
    ensures SplitSpaces(w) == [w]
    decreases |w|
  {
    if |w| > 0 {
      SplitWithoutSpace(w[1..]);
      assert [w[0]] + w[1..] == w;
    }
  }

  /** Splitting `w + " " + t` for a space-free `w` yields `w` then the pieces of `t`. */
  lemma {:induction false} SplitAfterWord(w: string, t: string)
    requires ' ' !in w
    ensures SplitSpaces(w + " " + t) == [w] + SplitSpaces(t)
    decreases |w|
  {
    if |w| == 0 {
      assert w + " " + t == [' '] + t;
      assert (w + " " + t)[1..] == t;
    } else {
      var s := w + " " + t;
      assert s[1..] == w[1..] + " " + t;
      SplitAfterWord(w[1..], t);
      assert [w[0]] + w[1..] == w;
    }
  }

  /** Round trip: splitting a join of space-free words on single spaces gives
      the words back. */
  lemma {:induction false} SplitJoin(ws: seq<string>)
    requires |ws| > 0
    requires forall i :: 0 <= i < |ws| ==> ' ' !in ws[i]
    ensures SplitSpaces(JoinWords(ws)) == ws
    decreases |ws|
  {
    if |ws| == 1 {
      SplitWithoutSpace(ws[0]);
    } else {
      SplitJoin(ws[1..]);
      SplitAfterWord(ws[0], JoinWords(ws[1..]));
      assert [ws[0]] + ws[1..] == ws;
    }
  }

  /** An alphanumeric token holds no space, so joins of such tokens split back. */
  lemma AlnumHasNoSpace(s: string)
    requires IsAlnum(s)
    ensures ' ' !in s
  {
  }
}
