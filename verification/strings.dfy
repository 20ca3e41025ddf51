/**
 * The PHP string built-ins the helpers use, over `seq<char>`:
 * `strtolower`, `ucwords`, `str_replace` (of one character, and removal of
 * a substring) and the "case-insensitive prefix" test `stripos(...) === 0`.
 * Case mapping is ASCII-only, as PHP 8 does it independently of the locale.
 */
module Strings {

  predicate IsUpper(c: char)
  {
    'A' <= c <= 'Z'
  }

  function LowerChar(c: char): char
  {
    if IsUpper(c) then (c as int + 32) as char else c
  }

  function UpperChar(c: char): char
  {
    if 'a' <= c <= 'z' then (c as int - 32) as char else c
  }

  /** PHP's `strtolower`. */
  function Lower(s: string): (r: string)
    ensures |r| == |s|
    ensures forall i :: 0 <= i < |s| ==> r[i] == LowerChar(s[i])
  {
    if s == [] then [] else [LowerChar(s[0])] + Lower(s[1..])
  }

  /** PHP's `str_replace` with a one-character search and a one-character replacement. */
  function Replace(s: string, from: char, to: char): (r: string)
    ensures |r| == |s|
    ensures forall i :: 0 <= i < |s| ==> r[i] == if s[i] == from then to else s[i]
  {
    if s == [] then [] else [if s[0] == from then to else s[0]] + Replace(s[1..], from, to)
  }

  /** The word separators `ucwords` uses by default: space, tab, CR, LF, form feed, vertical tab. */
  predicate IsWordDelimiter(c: char)
  {
    c == ' ' || c == '\t' || c == '\r' || c == '\n' || c == '\U{000C}' || c == '\U{000B}'
  }

  /** Position `i` of `s` begins a word. */
  predicate StartsWord(s: string, i: nat)
    requires i < |s|
  {
    i == 0 || IsWordDelimiter(s[i - 1])
  }

  /** PHP's `ucwords`: upper-cases the first character of every word, leaves the rest alone. */
  function UcWords(s: string): (r: string)
    ensures |r| == |s|
    ensures forall i :: 0 <= i < |s| ==> r[i] == if StartsWord(s, i) then UpperChar(s[i]) else s[i]
  {
    CapitaliseFrom(s, true)
  }

  function CapitaliseFrom(s: string, atStart: bool): (r: string)
    ensures |r| == |s|
    ensures forall i :: 0 <= i < |s| ==>
      r[i] == if (i == 0 && atStart) || (i > 0 && IsWordDelimiter(s[i - 1])) then UpperChar(s[i]) else s[i]
  {
    if s == [] then []
    else
      var rest := CapitaliseFrom(s[1..], IsWordDelimiter(s[0]));
      [if atStart then UpperChar(s[0]) else s[0]] + rest
  }

  /** `pat` occurs in `s` at position `i`. */
  predicate OccursAt(pat: string, s: string, i: nat)
  {
    i + |pat| <= |s| && s[i..i + |pat|] == pat
  }

  /** PHP's `str_replace` with an empty replacement: deletes every occurrence of `pat`, scanning left to right. */
  function RemoveAll(s: string, pat: string): (r: string)
    ensures |r| <= |s|
    decreases |s|
  {
    if pat == [] || |s| < |pat| then s
    else if s[..|pat|] == pat then RemoveAll(s[|pat|..], pat)
    else [s[0]] + RemoveAll(s[1..], pat)
  }

  lemma RemoveAllLeading(pat: string, rest: string)
    requires pat != []
    ensures RemoveAll(pat + rest, pat) == RemoveAll(rest, pat)
  {
    assert (pat + rest)[..|pat|] == pat;
    assert (pat + rest)[|pat|..] == rest;
  }

  /** Removing a pattern that does not occur leaves the string as it is. */
  lemma {:induction false} RemoveAllAbsent(s: string, pat: string)
    requires forall i :: 0 <= i <= |s| ==> !OccursAt(pat, s, i)
    ensures RemoveAll(s, pat) == s
    decreases |s|
  {
    if pat != [] && |s| >= |pat| {
      assert !OccursAt(pat, s, 0);
      forall i | 0 <= i <= |s[1..]| ensures !OccursAt(pat, s[1..], i) {
        assert !OccursAt(pat, s, i + 1);
        if i + |pat| <= |s[1..]| {
          assert s[1..][i..i + |pat|] == s[i + 1..i + 1 + |pat|];
        }
      }
      RemoveAllAbsent(s[1..], pat);
    }
  }

  /** PHP's `stripos` finding `prefix` at position 0: `s` starts with `prefix`, ignoring ASCII case. */
  predicate StartsWithIgnoringCase(s: string, prefix: string)
  {
    |prefix| <= |s| && Lower(s[..|prefix|]) == Lower(prefix)
  }
}
