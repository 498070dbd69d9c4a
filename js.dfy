/** The few JavaScript value semantics the chat session relies on:
    absent values (`undefined`/`null`), the truthiness of strings as used by
    `a || b`, and `String.prototype.trim`. */
module Js {

  /** A value that may be absent: `undefined` and `null` are both `None`. */
  datatype Option<+T> = None | Some(value: T)

  /** JavaScript truthiness of an optional string: an absent value and the
      empty string are falsy, every other string is truthy. */
  predicate Truthy(o: Option<string>) {
    o.Some? && o.value != ""
  }

  /** `a || b` on optional strings: `a` when it is truthy, otherwise `b`. */
  function Or(a: Option<string>, b: Option<string>): Option<string> {
    if Truthy(a) then a else b
  }

  /** `a || b` where `b` is a string literal, so the result is always present. */
  function OrString(a: Option<string>, b: string): string {
    if Truthy(a) then a.value else b
  }

  /** The characters `String.prototype.trim` removes: ECMAScript WhiteSpace
      (tab, vertical tab, form feed, space, no-break space, the byte order
      mark and every space separator of category Zs) and LineTerminator
      (line feed, carriage return, line and paragraph separators). */
  predicate IsWhitespace(c: char) {
    c == '\t' || c == '\n' || c == '\U{B}' || c == '\U{C}' || c == '\r' ||
    c == ' ' || c == '\U{A0}' || c == '\U{1680}' ||
    ('\U{2000}' <= c <= '\U{200A}') ||
    c == '\U{2028}' || c == '\U{2029}' || c == '\U{202F}' || c == '\U{205F}' ||
    c == '\U{3000}' || c == '\U{FEFF}'
  }

  /** Every character of `s` is whitespace (the empty string included). */
  predicate IsBlank(s: string) {
    forall i :: 0 <= i < |s| ==> IsWhitespace(s[i])
  }

  /** `s` with its leading whitespace removed. */
  function TrimStart(s: string): (r: string)
    ensures |r| <= |s|
    ensures r != [] ==> !IsWhitespace(r[0])
    decreases |s|
  {
    if s != [] && IsWhitespace(s[0]) then TrimStart(s[1..]) else s
  }

  /** What `TrimStart` removed is a whitespace prefix of `s`. */
  lemma {:induction false} TrimStartSplit(s: string)
    ensures var r := TrimStart(s);
      r == s[|s| - |r|..] && IsBlank(s[..|s| - |r|])
    decreases |s|
  {
    if s != [] && IsWhitespace(s[0]) {
      var r := TrimStart(s[1..]);
      TrimStartSplit(s[1..]);
      assert s[..|s| - |r|] == [s[0]] + s[1..][..|s| - 1 - |r|];
    }
  }

  /** `s` with its trailing whitespace removed. */
  function TrimEnd(s: string): (r: string)
    ensures |r| <= |s|
    ensures r != [] ==> !IsWhitespace(r[|r| - 1])
    decreases |s|
  {
    if s != [] && IsWhitespace(s[|s| - 1]) then TrimEnd(s[..|s| - 1]) else s
  }

  /** What `TrimEnd` removed is a whitespace suffix of `s`. */
  lemma {:induction false} TrimEndSplit(s: string)
    ensures var r := TrimEnd(s);
      r == s[..|r|] && IsBlank(s[|r|..])
    decreases |s|
  {
    if s != [] && IsWhitespace(s[|s| - 1]) {
      var r := TrimEnd(s[..|s| - 1]);
      TrimEndSplit(s[..|s| - 1]);
      assert s[|r|..] == s[..|s| - 1][|r|..] + [s[|s| - 1]];
    }
  }

  /** `r` is the part of `s` that starts at `lo`, and everything of `s`
      before and after it is whitespace. */
  ghost predicate TrimmedAt(s: string, r: string, lo: int) {
    0 <= lo && lo + |r| <= |s| &&
    s[lo..lo + |r|] == r && IsBlank(s[..lo]) && IsBlank(s[lo + |r|..])
  }

  /** `String.prototype.trim`: `s` without leading and trailing whitespace. */
  function Trim(s: string): (r: string)
    ensures |r| <= |s|
    ensures r != [] ==> !IsWhitespace(r[0]) && !IsWhitespace(r[|r| - 1])
  {
    var t := TrimStart(s);
    TrimEndSplit(t);
    TrimEnd(t)
  }

  /** The trimmed string is a window of `s` with only whitespace around it. */
  lemma TrimWindow(s: string)
    ensures TrimmedAt(s, Trim(s), |s| - |TrimStart(s)|)
  {
    var t := TrimStart(s);
    var r := TrimEnd(t);
    var lo := |s| - |t|;
    TrimStartSplit(s);
    TrimEndSplit(t);
    assert s[lo..lo + |r|] == r;
    assert s[lo + |r|..] == t[|r|..];
  }

  /** The trimmed string is empty exactly when `s` is all whitespace. */
  lemma TrimEmptyIffBlank(s: string)
    ensures Trim(s) == [] <==> IsBlank(s)
  {
    TrimWindow(s);
    var lo := |s| - |TrimStart(s)|;
    if Trim(s) == [] {
      BlankHalves(s, lo);
    } else {
      assert s[lo] == Trim(s)[0] by { WindowEnds(s, Trim(s), lo); }
    }
  }

  /** Two whitespace-delimited non-blank windows of the same string, each
      starting and ending with a non-whitespace character, coincide. */
  lemma SameWindow(s: string, lo: int, hi: int, lo': int, hi': int)
    requires 0 <= lo < hi <= |s| && 0 <= lo' < hi' <= |s|
    requires !IsWhitespace(s[lo]) && !IsWhitespace(s[hi - 1])
    requires !IsWhitespace(s[lo']) && !IsWhitespace(s[hi' - 1])
    requires IsBlank(s[..lo]) && IsBlank(s[hi..])
    requires IsBlank(s[..lo']) && IsBlank(s[hi'..])
    ensures lo == lo' && hi == hi'
  {
  }

  /** The first and last characters of a window are those of the string at
      the window's ends. */
  lemma WindowEnds(s: string, r: string, lo: int)
    requires TrimmedAt(s, r, lo) && r != []
    ensures s[lo] == r[0] && s[lo + |r| - 1] == r[|r| - 1]
  {
    assert s[lo..lo + |r|] == r;
  }

  /** A string made of a blank prefix and a blank suffix is blank. */
  lemma BlankHalves(s: string, k: int)
    requires 0 <= k <= |s| && IsBlank(s[..k]) && IsBlank(s[k..])
    ensures IsBlank(s)
  {
    forall i | 0 <= i < |s| ensures IsWhitespace(s[i]) {
      if i < k { assert s[..k][i] == s[i]; } else { assert s[k..][i - k] == s[i]; }
    }
  }

  /** Trimming is determined by its characterisation: any middle part of `s`
      surrounded by whitespace and neither starting nor ending with
      whitespace is exactly `Trim(s)`. */
  lemma TrimUnique(s: string, r: string, lo: int)
    requires TrimmedAt(s, r, lo)
    requires r != [] ==> !IsWhitespace(r[0]) && !IsWhitespace(r[|r| - 1])
    ensures Trim(s) == r
  {
    var t := Trim(s);
    TrimWindow(s);
    TrimEmptyIffBlank(s);
    var lo' := |s| - |TrimStart(s)|;
    if r == [] {
      BlankHalves(s, lo);
    } else {
      WindowEnds(s, r, lo);
      assert !IsBlank(s);
      WindowEnds(s, t, lo');
      SameWindow(s, lo, lo + |r|, lo', lo' + |t|);
    }
  }

  /** Trimming twice is trimming once. */
  lemma TrimIdempotent(s: string)
    ensures Trim(Trim(s)) == Trim(s)
  {
    var r := Trim(s);
    assert TrimmedAt(r, r, 0);
    TrimUnique(r, r, 0);
  }
}
