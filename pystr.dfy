/** The Python `str` operations that the YAML import uses, on `seq<char>`. */
module PyStr {

  /** `s.replace(pat, "")`: every occurrence of `pat`, scanned left to right without overlap
      and without rescanning the result, is removed. */
  function RemoveAll(s: string, pat: string): (r: string)
    requires pat != []
    ensures |r| <= |s|
    ensures forall c :: c in r ==> c in s
    ensures NoOccurrence(s, pat) ==> r == s
    decreases |s|
  {
    if |s| < |pat| then s
    else if s[..|pat|] == pat then
      assert OccursAt(s, pat, 0);
      RemoveAll(s[|pat|..], pat)
    else
      assert NoOccurrence(s, pat) ==> NoOccurrence(s[1..], pat) by {
        if NoOccurrence(s, pat) {
          forall i | 0 <= i <= |s[1..]| ensures !OccursAt(s[1..], pat, i) {
            assert !OccursAt(s, pat, i + 1);
            if i + |pat| <= |s[1..]| {
              assert s[1..][i..i + |pat|] == s[i + 1..i + 1 + |pat|];
            }
          }
        }
      }
      [s[0]] + RemoveAll(s[1..], pat)
  }

  /** `pat` occurs in `s` starting at index `i`. */
  predicate OccursAt(s: string, pat: string, i: int) {
    0 <= i && i + |pat| <= |s| && s[i..i + |pat|] == pat
  }

  /** `pat` occurs nowhere in `s`. */
  predicate NoOccurrence(s: string, pat: string) {
    forall i :: 0 <= i <= |s| ==> !OccursAt(s, pat, i)
  }

  /** A leading `pat` is removed, and the rest is kept when `pat` does not occur in it. */
  lemma RemoveLeading(pat: string, t: string)
    requires pat != [] && NoOccurrence(t, pat)
    ensures RemoveAll(pat + t, pat) == t
  {
    assert (pat + t)[..|pat|] == pat;
    assert (pat + t)[|pat|..] == t;
  }

  /** `s.replace(from, to)` for one-character `from` and `to`. */
  function ReplaceChar(s: string, from: char, to: char): (r: string)
    ensures |r| == |s|
    ensures forall i :: 0 <= i < |s| ==> r[i] == (if s[i] == from then to else s[i])
  {
    if s == [] then [] else [if s[0] == from then to else s[0]] + ReplaceChar(s[1..], from, to)
  }

  predicate IsAsciiLetter(c: char) {
    'a' <= c <= 'z' || 'A' <= c <= 'Z'
  }

  function Upper(c: char): (u: char)
    ensures IsAsciiLetter(c) ==> IsAsciiLetter(u) && 'A' <= u <= 'Z'
  {
    if 'a' <= c <= 'z' then (c as int - 32) as char else c
  }

  function Lower(c: char): (l: char)
    ensures IsAsciiLetter(c) ==> IsAsciiLetter(l) && 'a' <= l <= 'z'
  {
    if 'A' <= c <= 'Z' then (c as int + 32) as char else c
  }

  /** `str.title()` scanning state: `afterLetter` says whether the previous character was cased. */
  function TitleFrom(s: string, afterLetter: bool): (r: string)
    ensures |r| == |s|
  {
    if s == [] then []
    else
      var c := s[0];
      [if !IsAsciiLetter(c) then c else if afterLetter then Lower(c) else Upper(c)]
        + TitleFrom(s[1..], IsAsciiLetter(c))
  }

  lemma {:induction false} TitleFromAt(s: string, afterLetter: bool, i: int)
    requires 0 <= i < |s|
    ensures TitleFrom(s, afterLetter)[i] ==
      var prev := if i == 0 then afterLetter else IsAsciiLetter(s[i - 1]);
      if !IsAsciiLetter(s[i]) then s[i] else if prev then Lower(s[i]) else Upper(s[i])
  {
    if i > 0 {
      TitleFromAt(s[1..], IsAsciiLetter(s[0]), i - 1);
    }
  }

  /** `s.title()`: a letter that starts a run of letters is upper-cased, every other letter is
      lower-cased, and every other character is kept. Only ASCII letters count as cased. */
  function Title(s: string): (r: string)
    ensures |r| == |s|
    ensures forall i :: 0 <= i < |s| && !IsAsciiLetter(s[i]) ==> r[i] == s[i]
    ensures forall i :: 0 <= i < |s| ==> (IsAsciiLetter(r[i]) <==> IsAsciiLetter(s[i]))
    ensures forall i :: 0 <= i < |s| && IsAsciiLetter(s[i]) ==>
      r[i] == if i > 0 && IsAsciiLetter(s[i - 1]) then Lower(s[i]) else Upper(s[i])
  {
    var r := TitleFrom(s, false);
    forall i | 0 <= i < |s|
      ensures !IsAsciiLetter(s[i]) ==> r[i] == s[i]
      ensures IsAsciiLetter(r[i]) <==> IsAsciiLetter(s[i])
      ensures IsAsciiLetter(s[i]) ==> r[i] == if i > 0 && IsAsciiLetter(s[i - 1]) then Lower(s[i]) else Upper(s[i])
    {
      TitleFromAt(s, false, i);
    }
    r
  }

  /** Python's whitespace (`str.isspace`), the characters `str.strip()` removes. */
  predicate IsSpace(c: char) {
    var n := c as int;
    (9 <= n <= 13) || (0x1C <= n <= 0x20) || n == 0x85 || n == 0xA0 || n == 0x1680
    || (0x2000 <= n <= 0x200A) || n == 0x2028 || n == 0x2029 || n == 0x202F || n == 0x205F || n == 0x3000
  }

  predicate Blank(s: string) {
    forall i :: 0 <= i < |s| ==> IsSpace(s[i])
  }

  /** `s.lstrip()`: the longest all-whitespace prefix is dropped. */
  function LStrip(s: string): (r: string)
    ensures |r| <= |s| && r == s[|s| - |r|..]
    ensures forall k :: 0 <= k < |s| - |r| ==> IsSpace(s[k])
    ensures r == [] || !IsSpace(r[0])
  {
    if s != [] && IsSpace(s[0]) then LStrip(s[1..]) else s
  }

  /** `s.rstrip()`: the longest all-whitespace suffix is dropped. */
  function RStrip(s: string): (r: string)
    ensures |r| <= |s| && r == s[..|r|]
    ensures forall k :: |r| <= k < |s| ==> IsSpace(s[k])
    ensures r == [] || !IsSpace(r[|r| - 1])
  {
    if s != [] && IsSpace(s[|s| - 1]) then RStrip(s[..|s| - 1]) else s
  }

  /** `s.strip()`: empty exactly when `s` is blank, and otherwise neither starting nor ending
      with whitespace. */
  function Strip(s: string): (r: string)
    ensures r == [] <==> Blank(s)
    ensures r == [] || (!IsSpace(r[0]) && !IsSpace(r[|r| - 1]))
  {
    RStrip(LStrip(s))
  }

  /** `strip()` cuts only whitespace: its result is the slice `s[i..j]`, and every character
      before `i` and from `j` on is whitespace. */
  lemma StripCutsOnlySpace(s: string) returns (i: nat, j: nat)
    ensures i <= j <= |s| && Strip(s) == s[i..j]
    ensures forall k :: 0 <= k < i ==> IsSpace(s[k])
    ensures forall k :: j <= k < |s| ==> IsSpace(s[k])
  {
    var t := LStrip(s);
    var r := RStrip(t);
    i, j := |s| - |t|, |s| - |t| + |r|;
    SliceOfSuffix(s, t, r);
  }

  /** A prefix `r` of a suffix `t` of `s` is a slice of `s`, and `t`'s characters are `s`'s. */
  lemma SliceOfSuffix(s: string, t: string, r: string)
    requires |r| <= |t| <= |s| && t == s[|s| - |t|..] && r == t[..|r|]
    ensures s[|s| - |t|..|s| - |t| + |r|] == r
    ensures forall k :: |s| - |t| <= k < |s| ==> s[k] == t[k - (|s| - |t|)]
  {
  }
}
