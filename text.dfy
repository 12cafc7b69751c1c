/**
  The few Python string operations the conversation engine relies on, stated
  over `string` (a sequence of Unicode code points):
  - `str.strip()` with no argument (the completion reply is stripped),
  - the substring test `sub in s` (the sensitive-link marker and the guide keyword),
  - `str.lower()` (applied to the reply before the keyword test),
  - `str.replace(old, new)` (the name placeholder in the greeting).
 */
module Text {

  /** Python's `str.isspace()` for a single character: the characters
      that `str.strip()` removes when called without an argument. */
  predicate IsSpace(c: char) {
    || ('\t' <= c <= '\r')                 // \t \n \x0b \x0c \r
    || ('\U{1C}' <= c <= '\U{1F}')         // file, group, record and unit separators
    || c == ' ' || c == '\U{85}' || c == '\U{A0}' || c == '\U{1680}'
    || ('\U{2000}' <= c <= '\U{200A}')
    || c == '\U{2028}' || c == '\U{2029}' || c == '\U{202F}' || c == '\U{205F}'
    || c == '\U{3000}'
  }

  /** The number of whitespace characters at the front of `s`. */
  function LeadingSpaces(s: string): (n: nat)
    ensures n <= |s|
    ensures forall i :: 0 <= i < n ==> IsSpace(s[i])
    ensures n < |s| ==> !IsSpace(s[n])
  {
    if s == [] || !IsSpace(s[0]) then 0 else 1 + LeadingSpaces(s[1..])
  }

  /** The number of whitespace characters at the end of `s`. */
  function TrailingSpaces(s: string): (n: nat)
    ensures n <= |s|
    ensures forall i :: |s| - n <= i < |s| ==> IsSpace(s[i])
    ensures n < |s| ==> !IsSpace(s[|s| - n - 1])
  {
    if s == [] || !IsSpace(s[|s| - 1]) then 0 else 1 + TrailingSpaces(s[..|s| - 1])
  }

  /** `s.strip()`: whitespace is dropped from both ends. */
  function Strip(s: string): string {
    var front := s[LeadingSpaces(s)..];
    front[..|front| - TrailingSpaces(front)]
  }

  /** `s.strip()` is the infix of `s` left once the whitespace at both ends
      is dropped: it neither starts nor ends with whitespace, and only
      whitespace follows it in `s`. */
  lemma StripTrims(s: string)
    ensures var r := Strip(s);
            && (r == [] || (!IsSpace(r[0]) && !IsSpace(r[|r| - 1])))
            && LeadingSpaces(s) + |r| <= |s|
            && r == s[LeadingSpaces(s)..LeadingSpaces(s) + |r|]
            && forall i :: LeadingSpaces(s) + |r| <= i < |s| ==> IsSpace(s[i])
  {
  }

  /** A string that already has no surrounding whitespace is left as it is. */
  lemma StripKeepsTrimmed(s: string)
    requires s == [] || (!IsSpace(s[0]) && !IsSpace(s[|s| - 1]))
    ensures Strip(s) == s
  {
    if s != [] {
      assert LeadingSpaces(s) == 0;
      assert TrailingSpaces(s) == 0;
    }
  }

  /** Stripping twice is stripping once. */
  lemma StripIdempotent(s: string)
    ensures Strip(Strip(s)) == Strip(s)
  {
    StripTrims(s);
    StripKeepsTrimmed(Strip(s));
  }

  /** `sub` occurs in `s` starting at index `i`. */
  ghost predicate OccursAt(s: string, sub: string, i: int) {
    0 <= i && i + |sub| <= |s| && s[i..i + |sub|] == sub
  }

  /** Python's `sub in s` for strings. */
  predicate Contains(s: string, sub: string)
    decreases |s|
  {
    |sub| <= |s| && (s[..|sub|] == sub || Contains(s[1..], sub))
  }

  /** `sub in s` holds exactly when `sub` occurs in `s` at some index. */
  lemma {:induction false} ContainsIff(s: string, sub: string)
    ensures Contains(s, sub) <==> exists i :: OccursAt(s, sub, i)
    decreases |s|
  {
    if |s| < |sub| {
      assert forall i :: !OccursAt(s, sub, i);
    } else if s[..|sub|] == sub {
      assert OccursAt(s, sub, 0);
    } else {
      ContainsIff(s[1..], sub);
      assert forall i :: OccursAt(s[1..], sub, i) <==> OccursAt(s, sub, i + 1) by {
        forall i ensures OccursAt(s[1..], sub, i) <==> OccursAt(s, sub, i + 1) {
          if 0 <= i && i + |sub| <= |s| - 1 {
            assert s[1..][i..i + |sub|] == s[i + 1..i + 1 + |sub|];
          }
        }
      }
      assert !OccursAt(s, sub, 0);
      assert (exists i :: OccursAt(s, sub, i)) ==> exists i :: OccursAt(s[1..], sub, i) by {
        if exists i :: OccursAt(s, sub, i) {
          var i :| OccursAt(s, sub, i);
          assert OccursAt(s[1..], sub, i - 1);
        }
      }
    }
  }

  /** Python's `str.lower()` on one character, for ASCII and the Cyrillic
      block U+0400..U+042F; every other character is left unchanged. */
  function LowerChar(c: char): char {
    if 'A' <= c <= 'Z' then (c as int + 32) as char
    else if '\U{0410}' <= c <= '\U{042F}' then (c as int + 32) as char
    else if '\U{0400}' <= c <= '\U{040F}' then (c as int + 80) as char
    else c
  }

  /** `s.lower()`, character by character. */
  function Lower(s: string): (r: string)
    ensures |r| == |s|
  {
    seq(|s|, i requires 0 <= i < |s| => LowerChar(s[i]))
  }

  /** Lower-casing a lower-case string changes nothing. */
  lemma LowerIdempotent(s: string)
    ensures Lower(Lower(s)) == Lower(s)
  {
  }

  /** A keyword written in lower case that occurs in `s` also occurs in
      `s.lower()`: a reply that literally contains the keyword passes a
      lower-cased keyword test. */
  lemma ContainsSurvivesLower(s: string, keyword: string)
    requires Lower(keyword) == keyword
    requires Contains(s, keyword)
    ensures Contains(Lower(s), keyword)
  {
    ContainsIff(s, keyword);
    var i :| OccursAt(s, keyword, i);
    forall k | 0 <= k < |keyword| ensures Lower(s)[i..i + |keyword|][k] == keyword[k] {
      assert Lower(s)[i + k] == LowerChar(s[i + k]);
      assert s[i + k] == s[i..i + |keyword|][k];
      assert keyword[k] == Lower(keyword)[k];
    }
    assert OccursAt(Lower(s), keyword, i);
    ContainsIff(Lower(s), keyword);
  }

  /** Python's `s.replace(pat, rep)` for a non-empty `pat`: every
      occurrence, scanning left to right without overlaps, is replaced. */
  function ReplaceAll(s: string, pat: string, rep: string): string
    requires pat != []
    decreases |s|
  {
    if |s| < |pat| then s
    else if s[..|pat|] == pat then rep + ReplaceAll(s[|pat|..], pat, rep)
    else [s[0]] + ReplaceAll(s[1..], pat, rep)
  }

  /** A string without an occurrence of `pat` comes back unchanged. */
  lemma {:induction false} ReplaceAllAbsent(s: string, pat: string, rep: string)
    requires pat != []
    requires !Contains(s, pat)
    ensures ReplaceAll(s, pat, rep) == s
  {
    if |s| >= |pat| {
      assert !OccursAt(s, pat, 0);
      assert Contains(s, pat) == Contains(s[1..], pat);
      ReplaceAllAbsent(s[1..], pat, rep);
    }
  }

  /** When `pat` occurs in `s`, the result holds `rep`: the first
      occurrence is replaced by it. */
  lemma {:induction false} ReplaceAllInserts(s: string, pat: string, rep: string)
    requires pat != []
    requires Contains(s, pat)
    ensures Contains(ReplaceAll(s, pat, rep), rep)
    decreases |s|
  {
    var r := ReplaceAll(s, pat, rep);
    if s[..|pat|] == pat {
      assert r == rep + ReplaceAll(s[|pat|..], pat, rep);
      assert r[..|rep|] == rep;
    } else {
      ReplaceAllInserts(s[1..], pat, rep);
      assert r == [s[0]] + ReplaceAll(s[1..], pat, rep);
      assert r[1..] == ReplaceAll(s[1..], pat, rep);
    }
  }
}
