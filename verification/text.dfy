/**
 * The string rules the workflow relies on: Python's `str.strip()`,
 * `str.lower()` on the commands it compares against, and the cut of the
 * generated story at the first end-of-story sentinel (graph.py:117).
 */
module Text {

  /** The characters for which Python's `str.isspace()` holds. */
  predicate IsSpace(c: char)
  {
    c == ' ' || ('\t' <= c <= '\r') || ('\U{1C}' <= c <= '\U{1F}') ||
    c == '\U{85}' || c == '\U{A0}' || c == '\U{1680}' || ('\U{2000}' <= c <= '\U{200A}') ||
    c == '\U{2028}' || c == '\U{2029}' || c == '\U{202F}' || c == '\U{205F}' || c == '\U{3000}'
  }

  /** Number of whitespace characters at the front of `s`. */
  function LeadingSpace(s: string): (n: nat)
    ensures n <= |s|
    ensures forall k :: 0 <= k < n ==> IsSpace(s[k])
    ensures n < |s| ==> !IsSpace(s[n])
  {
    if |s| > 0 && IsSpace(s[0]) then 1 + LeadingSpace(s[1..]) else 0
  }

  /** Number of whitespace characters at the back of `s`. */
  function TrailingSpace(s: string): (n: nat)
    ensures n <= |s|
    ensures forall k :: |s| - n <= k < |s| ==> IsSpace(s[k])
    ensures n < |s| ==> !IsSpace(s[|s| - 1 - n])
  {
    if |s| > 0 && IsSpace(s[|s| - 1]) then 1 + TrailingSpace(s[..|s| - 1]) else 0
  }

  /**
   * Python's `s.strip()`: the slice of `s` left once all whitespace is
   * removed from both ends. Everything removed is whitespace, and the result
   * neither starts nor ends with whitespace.
   */
  function Strip(s: string): (r: string)
    ensures LeadingSpace(s) + |r| <= |s|
    ensures r == s[LeadingSpace(s)..LeadingSpace(s) + |r|]
    ensures forall k :: 0 <= k < LeadingSpace(s) ==> IsSpace(s[k])
    ensures forall k :: LeadingSpace(s) + |r| <= k < |s| ==> IsSpace(s[k])
    ensures r == [] || (!IsSpace(r[0]) && !IsSpace(r[|r| - 1]))
  {
    var t := s[LeadingSpace(s)..];
    t[..|t| - TrailingSpace(t)]
  }

  /**
   * `Strip` is characterised by its cut points: whitespace before `lo` and
   * from `hi` on, and no whitespace at either end of `s[lo..hi]`.
   */
  lemma StripExactly(s: string, lo: nat, hi: nat)
    requires lo < hi <= |s|
    requires forall k :: 0 <= k < lo ==> IsSpace(s[k])
    requires forall k :: hi <= k < |s| ==> IsSpace(s[k])
    requires !IsSpace(s[lo]) && !IsSpace(s[hi - 1])
    ensures Strip(s) == s[lo..hi]
  {
    var r := Strip(s);
    assert LeadingSpace(s) == lo;
    assert |r| == hi - lo;
  }

  /** ASCII case folding; Python's `str.lower()` restricted to the letters A-Z. */
  function LowerChar(c: char): (d: char)
    ensures 'A' <= c <= 'Z' ==> d as int == c as int + 32
    ensures !('A' <= c <= 'Z') ==> d == c
  {
    if 'A' <= c <= 'Z' then (c as int + 32) as char else c
  }

  function Lower(s: string): (r: string)
    ensures |r| == |s|
    ensures forall k :: 0 <= k < |s| ==> r[k] == LowerChar(s[k])
  {
    seq(|s|, k requires 0 <= k < |s| => LowerChar(s[k]))
  }

  /** `p` occurs in `s` starting at index `i`. */
  predicate OccursAt(s: string, p: string, i: nat)
  {
    i + |p| <= |s| && s[i..i + |p|] == p
  }

  predicate Occurs(s: string, p: string)
  {
    exists i: nat :: i <= |s| && OccursAt(s, p, i)
  }

  /**
   * Python's `s.split(sep)[0]`: the text strictly before the first
   * occurrence of `sep`, or all of `s` when `sep` does not occur.
   */
  function BeforeFirst(s: string, sep: string): (r: string)
    requires sep != []
    ensures |r| <= |s| && r == s[..|r|]
    ensures forall i: nat :: i < |r| ==> !OccursAt(s, sep, i)
    ensures |r| < |s| ==> OccursAt(s, sep, |r|)
    decreases |s|
  {
    if |s| < |sep| then s
    else if s[..|sep|] == sep then []
    else
      var rest := BeforeFirst(s[1..], sep);
      assert forall i: nat :: 0 < i <= |rest| ==> (OccursAt(s, sep, i) <==> OccursAt(s[1..], sep, i - 1)) by {
        forall i: nat | 0 < i <= |rest|
          ensures OccursAt(s, sep, i) <==> OccursAt(s[1..], sep, i - 1)
        {
          if i + |sep| <= |s| {
            var here, there := s[i..i + |sep|], s[1..][i - 1..i - 1 + |sep|];
            forall j | 0 <= j < |sep| ensures here[j] == there[j] {
              assert here[j] == s[i + j];
            }
            assert here == there;
          }
        }
      }
      [s[0]] + rest
  }

  /** A string that `sep` does not start in contains no occurrence of `sep`. */
  lemma NoOccurrenceInPrefix(s: string, sep: string, n: nat)
    requires sep != [] && n <= |s|
    requires forall i: nat :: i < n ==> !OccursAt(s, sep, i)
    ensures !Occurs(s[..n], sep)
  {
    forall i: nat | OccursAt(s[..n], sep, i)
      ensures false
    {
      assert s[..n][i..i + |sep|] == s[i..i + |sep|];
      assert OccursAt(s, sep, i);
    }
  }

  /**
   * When `sep` occurs at `n` and at no earlier index, the text before the
   * first occurrence is `s[..n]`.
   */
  lemma BeforeFirstAt(s: string, sep: string, n: nat)
    requires sep != [] && OccursAt(s, sep, n)
    requires forall i: nat :: i < n ==> !OccursAt(s, sep, i)
    ensures BeforeFirst(s, sep) == s[..n]
  {
    var r := BeforeFirst(s, sep);
    assert |r| <= n;
    assert |r| >= n;
  }
}
