/** The few Python `str` operations the program relies on: `strip`, `splitlines`,
    `split`, `startswith` and `replace`. Strings are sequences of characters. */
module Text {

  /** `str.isspace` for a single character. */
  predicate IsSpace(c: char) {
    || c == ' '
    || ('\t' <= c <= '\r')
    || ('\U{1C}' <= c <= '\U{1F}')
    || c == '\U{85}' || c == '\U{A0}' || c == '\U{1680}'
    || ('\U{2000}' <= c <= '\U{200A}')
    || c == '\U{2028}' || c == '\U{2029}' || c == '\U{202F}' || c == '\U{205F}' || c == '\U{3000}'
  }

  /** The characters at which `str.splitlines` ends a line. */
  predicate IsLineBreak(c: char) {
    || c == '\n' || c == '\r' || c == '\U{0B}' || c == '\U{0C}'
    || c == '\U{1C}' || c == '\U{1D}' || c == '\U{1E}' || c == '\U{85}'
    || c == '\U{2028}' || c == '\U{2029}'
  }

  predicate IsTab(c: char) {
    c == '\t'
  }

  /** Every line break is whitespace, so `strip` also removes surrounding line breaks. */
  lemma LineBreakIsSpace(c: char)
    ensures IsLineBreak(c) ==> IsSpace(c)
  {
  }

  predicate IsBlank(s: string) {
    forall i :: 0 <= i < |s| ==> IsSpace(s[i])
  }

  /** `str.lstrip()`: drops the leading whitespace, and nothing else. */
  function TrimStart(s: string): (r: string)
    ensures |r| <= |s| && r == s[|s| - |r|..]
    ensures forall i :: 0 <= i < |s| - |r| ==> IsSpace(s[i])
    ensures r == [] || !IsSpace(r[0])
  {
    if s != [] && IsSpace(s[0]) then TrimStart(s[1..]) else s
  }

  /** `str.rstrip()`: drops the trailing whitespace, and nothing else. */
  function TrimEnd(s: string): (r: string)
    ensures |r| <= |s| && r == s[..|r|]
    ensures forall i :: |r| <= i < |s| ==> IsSpace(s[i])
    ensures r == [] || !IsSpace(r[|r| - 1])
  {
    if s != [] && IsSpace(s[|s| - 1]) then TrimEnd(s[..|s| - 1]) else s
  }

  /** `r` is what is left of `s` once the whitespace `s[..i]` before it and the whitespace
      after it are dropped. */
  predicate Surrounds(s: string, i: int, r: string) {
    && 0 <= i <= |s| - |r|
    && r == s[i..i + |r|]
    && IsBlank(s[..i])
    && IsBlank(s[i + |r|..])
  }

  /** `str.strip()`: the middle of `s` left once the whitespace at both ends is dropped
      (`StripIsMiddle`). */
  function Strip(s: string): (r: string)
    ensures r == [] <==> IsBlank(s)
    ensures r != [] ==> !IsSpace(r[0]) && !IsSpace(r[|r| - 1])
  {
    var t := TrimStart(s);
    var r := TrimEnd(t);
    r
  }

  /** What `strip` keeps is a slice of the text with nothing but whitespace before and after it. */
  lemma StripIsMiddle(s: string)
    ensures exists i :: Surrounds(s, i, Strip(s))
  {
    var t := TrimStart(s);
    TrimmedMiddle(s, t, TrimEnd(t));
    assert Surrounds(s, |s| - |t|, Strip(s));
  }

  /** Trimming the front, then the back, leaves the middle of the text. */
  lemma TrimmedMiddle(s: string, t: string, r: string)
    requires |t| <= |s| && t == s[|s| - |t|..] && forall i :: 0 <= i < |s| - |t| ==> IsSpace(s[i])
    requires |r| <= |t| && r == t[..|r|] && forall i :: |r| <= i < |t| ==> IsSpace(t[i])
    ensures Surrounds(s, |s| - |t|, r)
  {
    var i := |s| - |t|;
    assert s[i..i + |r|] == t[..|r|];
    var after := s[i + |r|..];
    forall j | 0 <= j < |after|
      ensures IsSpace(after[j])
    {
      assert after[j] == t[|r| + j];
    }
  }

  /** Stripping a string whose first character is not whitespace keeps that first part intact:
      only a tail of what follows it can be removed. */
  lemma StripKeepsSolidHead(h: string, x: string)
    requires h != [] && forall i :: 0 <= i < |h| ==> !IsSpace(h[i])
    ensures |Strip(h + x)| >= |h| && Strip(h + x) == h + x[..|Strip(h + x)| - |h|]
  {
    var s := h + x;
    assert s[0] == h[0];
    assert TrimStart(s) == s;
    var r := TrimEnd(s);
    assert Strip(s) == r;
    var last := |h| - 1;
    assert s[last] == h[last];
    assert !IsSpace(s[last]);
    assert |r| >= |h|;
    assert r == s[..|r|];
    assert s[..|r|] == h + x[..|r| - |h|];
  }

  /** The longest prefix of `s` holding no character that satisfies `stop`:
      `s.splitlines()[0]` with `stop := IsLineBreak`, `s.split("\t")[0]` with `stop := IsTab`. */
  function UpTo(s: string, stop: char -> bool): (r: string)
    ensures |r| <= |s| && r == s[..|r|]
    ensures forall i :: 0 <= i < |r| ==> !stop(r[i])
    ensures |r| < |s| ==> stop(s[|r|])
  {
    if s == [] || stop(s[0]) then [] else [s[0]] + UpTo(s[1..], stop)
  }

  /** A prefix free of stop characters passes through `UpTo` unchanged. */
  lemma {:induction false} UpToAppend(h: string, w: string, stop: char -> bool)
    requires forall i :: 0 <= i < |h| ==> !stop(h[i])
    ensures UpTo(h + w, stop) == h + UpTo(w, stop)
  {
    if h != [] {
      var s := h + w;
      assert s[0] == h[0] && s[1..] == h[1..] + w;
      UpToAppend(h[1..], w, stop);
      assert UpTo(s, stop) == [h[0]] + (h[1..] + UpTo(w, stop));
      assert h == [h[0]] + h[1..];
    } else {
      assert h + w == w;
    }
  }

  /** `s.startswith(p)`. */
  predicate StartsWith(s: string, p: string) {
    |p| <= |s| && s[..|p|] == p
  }

  /** `p in s`. */
  predicate Contains(s: string, p: string)
    decreases |s|
  {
    if |s| < |p| then false else StartsWith(s, p) || Contains(s[1..], p)
  }

  /** `sep.join(parts)`. */
  function Join(parts: seq<string>, sep: string): string {
    if parts == [] then ""
    else if |parts| == 1 then parts[0]
    else parts[0] + sep + Join(parts[1..], sep)
  }

  /** `s.replace(pat, rep)`: every non-overlapping occurrence of `pat`, scanned from the left,
      is replaced by `rep`. The program only replaces non-empty patterns; an empty one is left
      alone here. */
  function ReplaceAll(s: string, pat: string, rep: string): string
    decreases |s|
  {
    if pat == [] || |s| < |pat| then s
    else if StartsWith(s, pat) then rep + ReplaceAll(s[|pat|..], pat, rep)
    else [s[0]] + ReplaceAll(s[1..], pat, rep)
  }

  /** Text that does not contain the pattern comes back unchanged. */
  lemma {:induction false} ReplaceAllAbsent(s: string, pat: string, rep: string)
    requires pat != [] && !Contains(s, pat)
    ensures ReplaceAll(s, pat, rep) == s
  {
    if |s| >= |pat| {
      ReplaceAllAbsent(s[1..], pat, rep);
    }
  }

  /** Deleting a pattern never lengthens the text. */
  lemma {:induction false} ReplaceAllDeletes(s: string, pat: string)
    requires pat != []
    ensures |ReplaceAll(s, pat, "")| <= |s|
    decreases |s|
  {
    if |s| >= |pat| {
      if StartsWith(s, pat) {
        ReplaceAllDeletes(s[|pat|..], pat);
      } else {
        ReplaceAllDeletes(s[1..], pat);
      }
    }
  }
}
