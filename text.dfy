/**
 * The Python string operations the host normalisation uses, on `seq<char>`:
 * `str.strip()`, `str.rstrip(c)` and `str.replace(old, "")`.
 */
module Text {

  /** Python's `str.isspace` for one character: the characters `str.strip()` removes. */
  predicate IsSpace(c: char) {
    || ('\U{9}' <= c <= '\U{D}')
    || ('\U{1C}' <= c <= ' ')
    || c == '\U{85}' || c == '\U{A0}' || c == '\U{1680}'
    || ('\U{2000}' <= c <= '\U{200A}')
    || c == '\U{2028}' || c == '\U{2029}' || c == '\U{202F}' || c == '\U{205F}' || c == '\U{3000}'
  }

  /** The characters a strip call removes: whitespace (no argument) or one given character. */
  datatype CharClass = Whitespace | Exactly(c: char)

  predicate InClass(c: char, cls: CharClass) {
    match cls
    case Whitespace => IsSpace(c)
    case Exactly(d) => c == d
  }

  predicate StartsWith(s: string, prefix: string) {
    |prefix| <= |s| && s[..|prefix|] == prefix
  }

  predicate EndsWith(s: string, c: char) {
    |s| > 0 && s[|s| - 1] == c
  }

  /** `p` occurs in `s` starting at index `i`. */
  predicate OccursAt(s: string, p: string, i: int) {
    0 <= i && i + |p| <= |s| && s[i..i + |p|] == p
  }

  predicate Occurs(s: string, p: string) {
    exists i | 0 <= i <= |s| - |p| :: OccursAt(s, p, i)
  }

  /** The number of leading characters of `s` that are in `cls`. */
  function LeadingCount(s: string, cls: CharClass): (n: nat)
    ensures n <= |s|
    ensures forall i :: 0 <= i < n ==> InClass(s[i], cls)
    ensures n == |s| || !InClass(s[n], cls)
  {
    if |s| > 0 && InClass(s[0], cls) then 1 + LeadingCount(s[1..], cls) else 0
  }

  /** Removes the longest prefix of `s` whose characters are in `cls` (Python `lstrip`). */
  function TrimStart(s: string, cls: CharClass): (r: string)
    ensures |r| <= |s| && r == s[|s| - |r|..]
    ensures forall i :: 0 <= i < |s| - |r| ==> InClass(s[i], cls)
    ensures r == [] || !InClass(r[0], cls)
  {
    s[LeadingCount(s, cls)..]
  }

  /** The number of trailing characters of `s` that are in `cls`. */
  function TrailingCount(s: string, cls: CharClass): (n: nat)
    ensures n <= |s|
    ensures forall i :: |s| - n <= i < |s| ==> InClass(s[i], cls)
    ensures n == |s| || !InClass(s[|s| - 1 - n], cls)
  {
    if |s| > 0 && InClass(s[|s| - 1], cls) then 1 + TrailingCount(s[..|s| - 1], cls) else 0
  }

  /** Removes the longest suffix of `s` whose characters are in `cls` (Python `rstrip`). */
  function TrimEnd(s: string, cls: CharClass): (r: string)
    ensures |r| <= |s| && r == s[..|r|]
    ensures forall i :: |r| <= i < |s| ==> InClass(s[i], cls)
    ensures r == [] || !InClass(r[|r| - 1], cls)
  {
    s[..|s| - TrailingCount(s, cls)]
  }

  predicate All(t: string, cls: CharClass) {
    forall i :: 0 <= i < |t| ==> InClass(t[i], cls)
  }

  /** Python `s.strip()`: leading, then trailing whitespace removed. */
  function Strip(s: string): (r: string)
    ensures |r| <= |s|
    ensures r == [] || (!IsSpace(r[0]) && !IsSpace(r[|r| - 1]))
  {
    TrimEnd(TrimStart(s, Whitespace), Whitespace)
  }

  /** `Strip` cuts whitespace and nothing else: `s` is whitespace, then `Strip(s)`, then whitespace. */
  lemma StripRemovesOnlySpace(s: string)
    ensures var r := Strip(s);
      exists k | 0 <= k <= |s| - |r| ::
        s[k..k + |r|] == r && All(s[..k], Whitespace) && All(s[k + |r|..], Whitespace)
  {
    var t := TrimStart(s, Whitespace);
    var r := TrimEnd(t, Whitespace);
    var k := |s| - |t|;
    var lead, trail := s[..k], s[k + |r|..];
    assert t == s[k..];
    assert r == t[..|r|];
    assert s[k..k + |r|] == r;
    assert All(lead, Whitespace) by {
      forall i | 0 <= i < |lead| ensures IsSpace(lead[i]) {
        assert lead[i] == s[i];
      }
    }
    assert All(trail, Whitespace) by {
      forall i | 0 <= i < |trail| ensures IsSpace(trail[i]) {
        assert trail[i] == t[|r| + i];
      }
    }
  }

  /** A sequence that neither starts nor ends with whitespace is its own `strip()`. */
  lemma StripUnspaced(s: string)
    requires s == [] || (!IsSpace(s[0]) && !IsSpace(s[|s| - 1]))
    ensures Strip(s) == s
  {
    assert TrimStart(s, Whitespace) == s;
    assert TrimEnd(s, Whitespace) == s;
  }

  /** Python `s.rstrip(c)` for a single character `c`. */
  function RStrip(s: string, c: char): (r: string)
    ensures |r| <= |s| && r == s[..|r|]
    ensures forall i :: |r| <= i < |s| ==> s[i] == c
    ensures !EndsWith(r, c)
  {
    TrimEnd(s, Exactly(c))
  }

  /**
   * Python `s.replace(p, "")`: scans left to right and drops every
   * non-overlapping occurrence of `p`.
   */
  function RemoveAll(s: string, p: string): (r: string)
    requires |p| > 0
    ensures |r| <= |s|
    decreases |s|
  {
    if |s| < |p| then s
    else if s[..|p|] == p then RemoveAll(s[|p|..], p)
    else [s[0]] + RemoveAll(s[1..], p)
  }

  /** Cutting a sequence in two splits its multiset in two. */
  lemma SplitMultiset(s: string, k: nat)
    requires k <= |s|
    ensures multiset(s) == multiset(s[..k]) + multiset(s[k..])
  {
    assert s == s[..k] + s[k..];
  }

  /** `RemoveAll` only deletes characters: what is left is a sub-multiset of the input. */
  lemma {:induction false} RemoveAllDeletesOnly(s: string, p: string)
    requires |p| > 0
    ensures multiset(RemoveAll(s, p)) <= multiset(s)
    decreases |s|
  {
    if |s| >= |p| {
      if s[..|p|] == p {
        RemoveAllDeletesOnly(s[|p|..], p);
        SplitMultiset(s, |p|);
      } else {
        var rest := RemoveAll(s[1..], p);
        assert RemoveAll(s, p) == [s[0]] + rest;
        RemoveAllDeletesOnly(s[1..], p);
        SplitMultiset(s, 1);
        assert multiset(RemoveAll(s, p)) == multiset([s[0]]) + multiset(rest);
      }
    }
  }

  /** A sequence with no occurrence of `p` is left as it is by `RemoveAll`. */
  lemma {:induction false} RemoveAllAbsent(s: string, p: string)
    requires |p| > 0 && !Occurs(s, p)
    ensures RemoveAll(s, p) == s
    decreases |s|
  {
    if |s| >= |p| {
      assert !OccursAt(s, p, 0);
      assert !Occurs(s[1..], p) by {
        forall i | OccursAt(s[1..], p, i) ensures false {
          assert s[1..][i..i + |p|] == s[i + 1..i + 1 + |p|];
          assert OccursAt(s, p, i + 1);
        }
      }
      RemoveAllAbsent(s[1..], p);
      assert s == [s[0]] + s[1..];
    }
  }

  /** An occurrence of `p` at the front is dropped as a whole; scanning resumes right after it. */
  lemma RemoveAllLeading(p: string, s: string)
    requires |p| > 0
    ensures RemoveAll(p + s, p) == RemoveAll(s, p)
  {
    assert (p + s)[..|p|] == p;
    assert (p + s)[|p|..] == s;
  }

  /**
   * A sequence holding `c` at most as its last character holds no
   * occurrence of a pattern that has `c` before its own last position.
   */
  lemma CharOnlyAtEndExcludes(s: string, p: string, c: char, j: nat)
    requires j + 1 < |p| && p[j] == c
    requires |s| > 0 && c !in s[..|s| - 1]
    ensures !Occurs(s, p)
  {
    forall i | 0 <= i <= |s| - |p| ensures !OccursAt(s, p, i) {
      assert s[..|s| - 1][i + j] == s[i + j];
    }
  }

  /** `rstrip(c)` removes a single trailing `c` from a sequence free of `c`. */
  lemma RStripOneTrailing(h: string, c: char)
    requires c !in h
    ensures RStrip(h + [c], c) == h
  {
    var t := h + [c];
    var r := RStrip(t, c);
    assert t[|t| - 1] == c;
    assert |h| == 0 || t[|h| - 1] == h[|h| - 1] != c;
    assert t[..|h|] == h;
  }

  /** A sequence without a character of `p` holds no occurrence of `p`. */
  lemma AbsentCharExcludes(s: string, p: string, c: char)
    requires c in p && c !in s
    ensures !Occurs(s, p)
  {
    forall i | OccursAt(s, p, i) ensures false {
    }
  }
}
