/** The two JavaScript string operations the instrument names are built
    with: `toLowerCase` (on ASCII letters) and `replace` with a string
    pattern, which rewrites only the first occurrence. */
module Strings {
  import opened Records

  /** Lower-case counterpart of an ASCII upper-case letter; every other
      character is kept. */
  function LowerChar(c: char): char
  {
    if 'A' <= c <= 'Z' then (c as int + 32) as char else c
  }

  predicate IsUpper(c: char)
  {
    'A' <= c <= 'Z'
  }

  /** `s.toLowerCase()`: every character lowered, the length kept. */
  function ToLower(s: string): (r: string)
    ensures |r| == |s|
    ensures forall i :: 0 <= i < |s| ==> r[i] == LowerChar(s[i])
    ensures forall i :: 0 <= i < |r| ==> !IsUpper(r[i])
  {
    if s == [] then [] else [LowerChar(s[0])] + ToLower(s[1..])
  }

  /** Lowering twice is lowering once. */
  lemma ToLowerIdempotent(s: string)
    ensures ToLower(ToLower(s)) == ToLower(s)
  {
  }

  /** `pat` occurs in `s` starting at index `j`. */
  predicate OccursAt(s: string, pat: string, j: int)
  {
    0 <= j && j + |pat| <= |s| && s[j..j + |pat|] == pat
  }

  /** `pat` does not occur anywhere in `s`. */
  ghost predicate NoOccurrence(s: string, pat: string)
  {
    forall j :: !OccursAt(s, pat, j)
  }

  /** `j` is the first index at which `pat` occurs in `s`. */
  ghost predicate IsFirstOccurrence(s: string, pat: string, j: int)
  {
    OccursAt(s, pat, j) && forall k :: 0 <= k < j ==> !OccursAt(s, pat, k)
  }

  lemma OccursAtShift(s: string, pat: string, j: int)
    requires |s| > 0 && 1 <= j
    ensures OccursAt(s, pat, j) <==> OccursAt(s[1..], pat, j - 1)
  {
  }

  /** `s.indexOf(pat)`: the first index where `pat` occurs, if any. */
  function IndexOf(s: string, pat: string): (r: Option<nat>)
    ensures r.Some? ==> IsFirstOccurrence(s, pat, r.value)
    ensures r.None? ==> NoOccurrence(s, pat)
  {
    if |s| < |pat| then
      assert forall j :: !OccursAt(s, pat, j);
      None
    else if s[..|pat|] == pat then
      Some(0)
    else
      match IndexOf(s[1..], pat)
      case None =>
        assert forall j :: !OccursAt(s, pat, j) by {
          forall j | 1 <= j { OccursAtShift(s, pat, j); }
        }
        None
      case Some(i) =>
        assert IsFirstOccurrence(s, pat, i + 1) by {
          OccursAtShift(s, pat, i + 1);
          forall k | 1 <= k < i + 1 { OccursAtShift(s, pat, k); }
        }
        Some(i + 1)
  }

  /** `s.replace(pat, rep)` for a string pattern and a replacement without
      `$` (JavaScript expands `$$`, `$&`, `` $` `` and `$'` in a replacement
      string; `-USDT` has none): the first occurrence of `pat` replaced by
      `rep`; `s` itself when `pat` does not occur. */
  function ReplaceFirst(s: string, pat: string, rep: string): (r: string)
    ensures NoOccurrence(s, pat) ==> r == s
    ensures forall j :: IsFirstOccurrence(s, pat, j) ==>
              r == s[..j] + rep + s[j + |pat|..]
  {
    match IndexOf(s, pat)
    case None => s
    case Some(i) =>
      assert forall j :: IsFirstOccurrence(s, pat, j) ==> j == i;
      s[..i] + rep + s[i + |pat|..]
  }
}
