/**
 The two pieces of Python `str` behaviour the trading bot relies on:
 the `in` operator between two strings (substring search) and
 `str.strip()` with no argument (removal of leading and trailing
 whitespace, where whitespace is what `str.isspace()` accepts).
 */
module PyStr {

  /** A code point Python's `str.isspace()` accepts, hence one `str.strip()` removes. */
  predicate IsSpace(c: char) {
    || ('\U{9}' <= c <= '\U{D}')        // \t \n \v \f \r
    || ('\U{1C}' <= c <= '\U{20}')      // file/group/record/unit separators, space
    || c == '\U{85}' || c == '\U{A0}' || c == '\U{1680}'
    || ('\U{2000}' <= c <= '\U{200A}')
    || c == '\U{2028}' || c == '\U{2029}' || c == '\U{202F}'
    || c == '\U{205F}' || c == '\U{3000}'
  }

  predicate AllSpace(t: string) {
    forall i :: 0 <= i < |t| ==> IsSpace(t[i])
  }

  predicate NoSpace(t: string) {
    forall i :: 0 <= i < |t| ==> !IsSpace(t[i])
  }

  /** Neither end of `t` is whitespace. */
  predicate Trimmed(t: string) {
    t == [] || (!IsSpace(t[0]) && !IsSpace(t[|t| - 1]))
  }

  /** `sub` occurs in `s` starting at index `i`. */
  predicate OccursAt(s: string, sub: string, i: nat) {
    i + |sub| <= |s| && s[i..i + |sub|] == sub
  }

  lemma OccursAtTail(s: string, sub: string, i: nat)
    requires |s| > 0
    ensures OccursAt(s, sub, i + 1) <==> OccursAt(s[1..], sub, i)
  {
  }

  /** Python's `sub in s` for two `str` values: a case-sensitive search
      trying every start position from the left. */
  function Contains(s: string, sub: string): (r: bool)
    ensures r <==> exists i: nat :: OccursAt(s, sub, i)
    decreases |s|
  {
    if |sub| > |s| then false
    else if s[..|sub|] == sub then assert OccursAt(s, sub, 0); true
    else
      var r := Contains(s[1..], sub);
      assert r ==> exists i: nat :: OccursAt(s, sub, i) by {
        if r {
          var i: nat :| OccursAt(s[1..], sub, i);
          OccursAtTail(s, sub, i);
        }
      }
      assert (exists i: nat :: OccursAt(s, sub, i)) ==> r by {
        if i: nat :| OccursAt(s, sub, i) {
          assert i != 0;
          OccursAtTail(s, sub, i - 1);
        }
      }
      r
  }

  /** `str.lstrip()`: drops the leading whitespace and nothing else. */
  function StripLeft(s: string): (r: string)
    ensures |r| <= |s| && r == s[|s| - |r|..]
    ensures AllSpace(s[..|s| - |r|])
    ensures r == [] || !IsSpace(r[0])
    decreases |s|
  {
    if |s| > 0 && IsSpace(s[0]) then StripLeft(s[1..]) else s
  }

  /** `str.rstrip()`: drops the trailing whitespace and nothing else. */
  function StripRight(s: string): (r: string)
    ensures |r| <= |s| && r == s[..|r|]
    ensures AllSpace(s[|r|..])
    ensures r == [] || !IsSpace(r[|r| - 1])
    decreases |s|
  {
    if |s| > 0 && IsSpace(s[|s| - 1]) then StripRight(s[..|s| - 1]) else s
  }

  /** `s` is `r` with whitespace-only text `s[..a]` before it and
      whitespace-only text after it. */
  predicate StrippedAt(s: string, a: nat, r: string) {
    a + |r| <= |s| && s[a..a + |r|] == r && AllSpace(s[..a]) && AllSpace(s[a + |r|..])
  }

  /** `str.strip()`: the result is a slice of `s`, what is cut off on
      either side is whitespace, and neither of its ends is whitespace. */
  function Strip(s: string): (r: string)
    ensures exists a: nat :: StrippedAt(s, a, r)
    ensures Trimmed(r)
  {
    var l := StripLeft(s);
    var r := StripRight(l);
    assert StrippedAt(s, |s| - |l|, r) by {
      SliceOfSlice(s, |s| - |l|, |s|, 0, |r|);
      SliceOfSlice(s, |s| - |l|, |s|, |r|, |l|);
    }
    r
  }

  /** Stripping twice is stripping once. */
  lemma StripIdempotent(s: string)
    ensures Strip(Strip(s)) == Strip(s)
  {
  }

  lemma SliceOfSlice(s: string, lo: nat, hi: nat, i: nat, j: nat)
    requires lo <= hi <= |s| && i <= j <= hi - lo
    ensures s[lo..hi][i..j] == s[lo + i..lo + j]
  {
    assert forall k :: 0 <= k < j - i ==> s[lo..hi][i..j][k] == s[lo + i + k];
  }

  /** An occurrence in the stripped text is an occurrence in the original. */
  lemma OccurrenceSurvivesUnstrip(s: string, sub: string, a: nat, r: string, j: nat)
    requires StrippedAt(s, a, r) && OccursAt(r, sub, j)
    ensures OccursAt(s, sub, a + j)
  {
    SliceOfSlice(s, a, a + |r|, j, j + |sub|);
  }

  /** An occurrence of a whitespace-free string lies inside the stripped text. */
  lemma OccurrenceSurvivesStrip(s: string, sub: string, a: nat, r: string, i: nat)
    requires |sub| > 0 && NoSpace(sub)
    requires StrippedAt(s, a, r) && OccursAt(s, sub, i)
    ensures a <= i && OccursAt(r, sub, i - a)
  {
    assert s[i] == sub[0];
    var last := i + |sub| - 1;
    assert s[last] == sub[|sub| - 1];
    SliceOfSlice(s, a, a + |r|, i - a, i - a + |sub|);
  }

  /** A non-empty search string without whitespace is found in `s`
      exactly when it is found in `s.strip()`: stripping can only cut
      whitespace, which no occurrence of such a string touches. */
  lemma StripKeepsOccurrences(s: string, sub: string)
    requires |sub| > 0 && NoSpace(sub)
    ensures Contains(Strip(s), sub) <==> Contains(s, sub)
  {
    var r := Strip(s);
    var a: nat :| StrippedAt(s, a, r);
    if Contains(r, sub) {
      var j: nat :| OccursAt(r, sub, j);
      OccurrenceSurvivesUnstrip(s, sub, a, r, j);
    }
    if Contains(s, sub) {
      var i: nat :| OccursAt(s, sub, i);
      OccurrenceSurvivesStrip(s, sub, a, r, i);
    }
  }
}
