/**
 * The JavaScript string built-ins the chat handlers rely on:
 * `String.prototype.trim`, `String.prototype.toLowerCase` (restricted to ASCII letters)
 * and `String.prototype.includes`.
 */
module JsStrings {

  /** The characters `trim` removes: ECMAScript WhiteSpace (tab, vertical tab, form feed, space,
      no-break space, byte order mark and every space separator) and LineTerminator. */
  predicate IsTrimmable(c: char)
  {
    || c == '\t' || c == '\n' || c == '\U{000B}' || c == '\U{000C}' || c == '\r'
    || c == ' ' || c == '\U{00A0}' || c == '\U{1680}'
    || ('\U{2000}' <= c <= '\U{200A}')
    || c == '\U{2028}' || c == '\U{2029}' || c == '\U{202F}' || c == '\U{205F}'
    || c == '\U{3000}' || c == '\U{FEFF}'
  }

  /** Every character of `s` is white space. */
  predicate AllTrimmable(s: string)
  {
    s == [] || (IsTrimmable(s[0]) && AllTrimmable(s[1..]))
  }

  /** A concatenation is all white space exactly when both parts are. */
  lemma {:induction false} AllTrimmableConcat(a: string, b: string)
    ensures AllTrimmable(a + b) <==> AllTrimmable(a) && AllTrimmable(b)
  {
    if a == [] {
      assert a + b == b;
    } else {
      assert (a + b)[1..] == a[1..] + b;
      AllTrimmableConcat(a[1..], b);
    }
  }

  /** The number of white-space characters at the front of `s`: they are all white space, and the
      character after them, if any, is not. */
  function LeadingWhite(s: string): (n: nat)
    ensures n <= |s| && AllTrimmable(s[..n])
    ensures n < |s| ==> !IsTrimmable(s[n])
  {
    if s != [] && IsTrimmable(s[0]) then
      var m := LeadingWhite(s[1..]);
      assert s[..m + 1][1..] == s[1..][..m];
      m + 1
    else
      0
  }

  /** The position where the white space at the back of `s` begins: everything from there on is
      white space, and the character before it, if any, is not. */
  function ContentEnd(s: string): (n: nat)
    ensures n <= |s| && AllTrimmable(s[n..])
    ensures n > 0 ==> !IsTrimmable(s[n - 1])
  {
    if s != [] && IsTrimmable(s[|s| - 1]) then
      var m := ContentEnd(s[..|s| - 1]);
      assert s[m..] == s[..|s| - 1][m..] + [s[|s| - 1]];
      assert [s[|s| - 1]][1..] == [];
      AllTrimmableConcat(s[..|s| - 1][m..], [s[|s| - 1]]);
      m
    else
      |s|
  }

  /** Drops the leading trimmable characters: the result is a suffix of `s`, everything cut off was
      trimmable, and the result does not itself start with a trimmable character. */
  function TrimStart(s: string): (r: string)
    ensures |r| <= |s| && r == s[|s| - |r|..]
    ensures AllTrimmable(s[..|s| - |r|])
    ensures r != [] ==> !IsTrimmable(r[0])
  {
    s[LeadingWhite(s)..]
  }

  /** Drops the trailing trimmable characters: the result is a prefix of `s`, everything cut off was
      trimmable, and the result does not itself end with a trimmable character. */
  function TrimEnd(s: string): (r: string)
    ensures |r| <= |s| && r == s[..|r|]
    ensures AllTrimmable(s[|r|..])
    ensures r != [] ==> !IsTrimmable(r[|r| - 1])
  {
    s[..ContentEnd(s)]
  }

  /** `r` is the slice of `s` starting at `k`, and everything of `s` before and after it is white space. */
  ghost predicate IsTrimmedSlice(s: string, k: int, r: string)
  {
    0 <= k && k + |r| <= |s| && r == s[k..k + |r|] && AllTrimmable(s[..k]) && AllTrimmable(s[k + |r|..])
  }

  /** Cutting white space off the front of `s` (leaving `t`) and then off the back of `t` (leaving
      `r`) leaves a slice of `s` with only white space around it. */
  lemma CutBothEnds(s: string, t: string, r: string)
    requires |t| <= |s| && t == s[|s| - |t|..] && AllTrimmable(s[..|s| - |t|])
    requires |r| <= |t| && r == t[..|r|] && AllTrimmable(t[|r|..])
    ensures IsTrimmedSlice(s, |s| - |t|, r)
  {
    var k := |s| - |t|;
    assert r == s[k..k + |r|];
    assert s[k + |r|..] == t[|r|..];
  }

  /** With the cuts of `CutBothEnds`, where `t` does not start with white space, nothing is left
      exactly when `s` is all white space. */
  lemma CutToNothing(s: string, t: string, r: string)
    requires |t| <= |s| && t == s[|s| - |t|..] && AllTrimmable(s[..|s| - |t|])
    requires t != [] ==> !IsTrimmable(t[0])
    requires |r| <= |t| && r == t[..|r|] && AllTrimmable(t[|r|..])
    ensures r == [] <==> AllTrimmable(s)
  {
    var k := |s| - |t|;
    assert s == s[..k] + t;
    AllTrimmableConcat(s[..k], t);
    if r == [] {
      assert t[0..] == t;
    }
  }

  /** `s.trim()`: the text between the leading and the trailing white space. It is the slice of `s`
      left after cutting off only white space at both ends; it is empty exactly when `s` is all white
      space, and otherwise it neither starts nor ends with white space. */
  function Trim(s: string): (r: string)
    ensures exists k :: IsTrimmedSlice(s, k, r)
    ensures r == [] <==> AllTrimmable(s)
    ensures r != [] ==> !IsTrimmable(r[0]) && !IsTrimmable(r[|r| - 1])
    ensures Occurs(r, s)
  {
    var t := TrimStart(s);
    var r := TrimEnd(t);
    var k := |s| - |t|;
    CutBothEnds(s, t, r);
    CutToNothing(s, t, r);
    assert r != [] ==> r[0] == t[0];
    assert s[k..][..|r|] == r;
    assert StartsWith(s[k..], r);
    r
  }

  /** A string that does not start with white space has none to cut at the front. */
  lemma NoLeadingWhite(s: string)
    requires s != [] ==> !IsTrimmable(s[0])
    ensures LeadingWhite(s) == 0
  {
  }

  /** A string that does not end with white space has none to cut at the back. */
  lemma NoTrailingWhite(s: string)
    requires s != [] ==> !IsTrimmable(s[|s| - 1])
    ensures ContentEnd(s) == |s|
  {
  }

  /** Trimming twice is trimming once. */
  lemma TrimIdempotent(s: string)
    ensures Trim(Trim(s)) == Trim(s)
  {
    var r := Trim(s);
    NoLeadingWhite(r);
    NoTrailingWhite(r);
    assert r[0..] == r;
    assert r[..|r|] == r;
  }

  predicate IsAsciiUpper(c: char)
  {
    'A' <= c <= 'Z'
  }

  /** Lower-cases one character: an ASCII capital becomes the small letter at the same place in
      the alphabet, every other character is kept, and the result is never a capital. */
  function LowerChar(c: char): (d: char)
    ensures !IsAsciiUpper(d)
    ensures IsAsciiUpper(c) ==> 'a' <= d <= 'z' && d as int - 'a' as int == c as int - 'A' as int
    ensures !IsAsciiUpper(c) ==> d == c
  {
    if IsAsciiUpper(c) then (c as int - 'A' as int + 'a' as int) as char else c
  }

  /** `s.toLowerCase()` on ASCII: same length, each character lower-cased in place. */
  function Lower(s: string): (r: string)
    ensures |r| == |s|
    ensures forall i :: 0 <= i < |s| ==> r[i] == LowerChar(s[i])
  {
    if s == [] then [] else [LowerChar(s[0])] + Lower(s[1..])
  }

  /** A string without capitals is its own lower-case form. */
  lemma LowerKeepsLowercase(s: string)
    requires forall i :: 0 <= i < |s| ==> !IsAsciiUpper(s[i])
    ensures Lower(s) == s
  {
  }

  /** Lower-casing twice is lower-casing once. */
  lemma LowerIdempotent(s: string)
    ensures Lower(Lower(s)) == Lower(s)
  {
    LowerKeepsLowercase(Lower(s));
  }

  predicate StartsWith(s: string, prefix: string)
  {
    |prefix| <= |s| && s[..|prefix|] == prefix
  }

  predicate EndsWith(s: string, suffix: string)
  {
    |suffix| <= |s| && s[|s| - |suffix|..] == suffix
  }

  /** `sub` occurs somewhere in `s` (the reference meaning of substring search). */
  ghost predicate Occurs(sub: string, s: string)
  {
    exists i :: 0 <= i <= |s| && StartsWith(s[i..], sub)
  }

  /** `s.includes(sub)`, computed by trying each start position from the left. */
  function Includes(s: string, sub: string): bool
  {
    StartsWith(s, sub) || (s != [] && Includes(s[1..], sub))
  }

  /** The search finds `sub` exactly when it occurs in `s`. */
  lemma {:induction false} IncludesIffOccurs(s: string, sub: string)
    ensures Includes(s, sub) <==> Occurs(sub, s)
  {
    assert s[0..] == s;
    if s != [] {
      IncludesIffOccurs(s[1..], sub);
      if Occurs(sub, s) && !StartsWith(s, sub) {
        var i :| 0 <= i <= |s| && StartsWith(s[i..], sub);
        assert i != 0;
        assert s[1..][i - 1..] == s[i..];
      }
      if Occurs(sub, s[1..]) {
        var i :| 0 <= i <= |s| - 1 && StartsWith(s[1..][i..], sub);
        assert s[1..][i..] == s[i + 1..];
      }
    }
  }

  /** Text placed verbatim between two others occurs in the whole. */
  lemma OccursBetween(before: string, sub: string, after: string)
    ensures Occurs(sub, before + sub + after)
  {
    var s := before + sub + after;
    assert s[|before|..][..|sub|] == sub;
  }
}
