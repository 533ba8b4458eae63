/** The reply cleanup shared by the serverless handler and the local dev
    server: `text.replace(/```json/g, '').replace(/```/g, '').trim()`. */
module Cleanup {

  const Fence: string := "```"
  const JsonFence: string := "```json"

  /** `s` contains `pat` starting at index `i`. */
  predicate OccursAt(s: string, pat: string, i: int) {
    0 <= i && i + |pat| <= |s| && s[i..i + |pat|] == pat
  }

  predicate Contains(s: string, pat: string) {
    exists i :: 0 <= i <= |s| && OccursAt(s, pat, i)
  }

  /** An occurrence begins with the pattern's first character. */
  lemma OccursAtStart(s: string, pat: string, i: int)
    requires |pat| > 0 && 0 <= i < |s|
    ensures OccursAt(s, pat, i) ==> s[i] == pat[0]
  {
    if OccursAt(s, pat, i) {
      assert s[i..i + |pat|][0] == s[i];
    }
  }

  /** `s.replace(/pat/g, '')` for a pattern without regex metacharacters:
      the leftmost occurrence is removed, scanning resumes right after it,
      so matches never overlap. */
  function RemoveAll(s: string, pat: string): (r: string)
    requires |pat| > 0
    ensures |r| <= |s|
    decreases |s|
  {
    if |s| < |pat| then s
    else if s[..|pat|] == pat then
      var r := RemoveAll(s[|pat|..], pat);
      assert s == s[..|pat|] + s[|pat|..];
      r
    else
      var r := [s[0]] + RemoveAll(s[1..], pat);
      assert s == [s[0]] + s[1..];
      r
  }

  /** The characters `String.prototype.trim` strips: the ECMAScript
      WhiteSpace and LineTerminator code points. */
  predicate IsSpace(c: char) {
    var n := c as int;
    n == 0x09 || n == 0x0A || n == 0x0B || n == 0x0C || n == 0x0D || n == 0x20
    || n == 0xA0 || n == 0x1680 || (0x2000 <= n <= 0x200A)
    || n == 0x2028 || n == 0x2029 || n == 0x202F || n == 0x205F
    || n == 0x3000 || n == 0xFEFF
  }

  /** The string neither starts nor ends with a `trim` character. */
  predicate Trimmed(s: string) {
    |s| == 0 || (!IsSpace(s[0]) && !IsSpace(s[|s| - 1]))
  }

  /** Drops the longest all-space prefix. */
  function TrimStart(s: string): (r: string)
    ensures |r| <= |s| && r == s[|s| - |r|..]
    ensures forall k :: 0 <= k < |s| - |r| ==> IsSpace(s[k])
    ensures |r| == 0 || !IsSpace(r[0])
    decreases |s|
  {
    if |s| > 0 && IsSpace(s[0]) then TrimStart(s[1..]) else s
  }

  /** Drops the longest all-space suffix. */
  function TrimEnd(s: string): (r: string)
    ensures |r| <= |s| && r == s[..|r|]
    ensures forall k :: |r| <= k < |s| ==> IsSpace(s[k])
    ensures |r| == 0 || !IsSpace(r[|r| - 1])
    decreases |s|
  {
    if |s| > 0 && IsSpace(s[|s| - 1]) then TrimEnd(s[..|s| - 1]) else s
  }

  /** `String.prototype.trim`. */
  function Trim(s: string): (r: string)
    ensures Trimmed(r)
    ensures TrimOffset(s) + |r| <= |s| && r == s[TrimOffset(s)..TrimOffset(s) + |r|]
  {
    var t := TrimStart(s);
    var r := TrimEnd(t);
    PrefixOfSuffix(s, t, r);
    r
  }

  /** `trim` drops only whitespace: everything before and after the slice it
      keeps is a `trim` character. */
  lemma TrimDropsOnlySpace(s: string)
    ensures forall k :: 0 <= k < TrimOffset(s) ==> IsSpace(s[k])
    ensures forall k :: TrimOffset(s) + |Trim(s)| <= k < |s| ==> IsSpace(s[k])
  {
    var t := TrimStart(s);
    PrefixOfSuffix(s, t, TrimEnd(t));
  }

  /** A prefix `r` of a suffix `t` of `s` is a slice of `s`, and what `t`
      has past `r` is what `s` has past that slice. */
  lemma PrefixOfSuffix(s: string, t: string, r: string)
    requires |t| <= |s| && t == s[|s| - |t|..]
    requires |r| <= |t| && r == t[..|r|]
    requires forall k :: |r| <= k < |t| ==> IsSpace(t[k])
    ensures var i := |s| - |t|;
            && r == s[i..i + |r|]
            && forall k :: i + |r| <= k < |s| ==> IsSpace(s[k])
  {
    var i := |s| - |t|;
    forall k | i + |r| <= k < |s|
      ensures IsSpace(s[k])
    {
      assert s[k] == t[k - i];
    }
  }

  /** Where the trimmed text starts in `s`: past the leading spaces. */
  function TrimOffset(s: string): (i: int)
    ensures 0 <= i <= |s|
  {
    |s| - |TrimStart(s)|
  }

  /** The fence cleanup applied to the model provider's reply text. */
  function Clean(text: string): (r: string)
    ensures !Contains(r, Fence)
    ensures Trimmed(r)
  {
    NoFenceSurvives(text);
    Trim(RemoveAll(RemoveAll(text, JsonFence), Fence))
  }

  lemma NoFenceSurvives(text: string)
    ensures !Contains(Trim(RemoveAll(RemoveAll(text, JsonFence), Fence)), Fence)
  {
    NoFenceAfterRemoval(RemoveAll(text, JsonFence));
    TrimKeepsNoFence(RemoveAll(RemoveAll(text, JsonFence), Fence));
  }

  lemma TrimKeepsNoFence(b: string)
    requires !Contains(b, Fence)
    ensures !Contains(Trim(b), Fence)
  {
    NoFenceInSlice(b, Trim(b), TrimOffset(b));
  }

  // ---------------------------------------------------------------------
  // Why no "```" survives: greedy removal eats each run of backticks three
  // at a time from its left end, so a run of n backticks leaves n % 3 < 3,
  // and the other characters keep the runs apart.

  /** Removal never takes away a leading non-backtick character. */
  lemma {:induction false} KeepsLeadingChar(s: string)
    requires |s| > 0 && s[0] != '`'
    ensures |RemoveAll(s, Fence)| > 0 && RemoveAll(s, Fence)[0] == s[0]
  {
    if |s| >= 3 {
      assert s[..3][0] == s[0];
    }
  }

  /** An unmatched backtick is followed, after removal, by at most one more. */
  lemma NoFenceAtHead(s: string)
    requires |s| >= 3 && s[..3] != Fence && s[0] == '`'
    ensures var rest := RemoveAll(s[1..], Fence);
            !(|rest| >= 2 && rest[0] == '`' && rest[1] == '`')
  {
    var rest := RemoveAll(s[1..], Fence);
    if s[1] != '`' {
      KeepsLeadingChar(s[1..]);
    } else {
      assert s[2] != '`' by { assert s[..3][2] == s[2]; }
      if |s[1..]| < 3 {
        assert rest == s[1..];
      } else {
        assert s[1..][..3][1] == s[2];
        assert rest == [s[1]] + RemoveAll(s[2..], Fence);
        KeepsLeadingChar(s[2..]);
      }
    }
  }

  /** An occurrence past the first character of `[c] + rest` is one of `rest`. */
  lemma OccursShift(c: char, rest: string, pat: string, i: int)
    requires i > 0
    ensures OccursAt([c] + rest, pat, i) ==> OccursAt(rest, pat, i - 1)
  {
    if OccursAt([c] + rest, pat, i) {
      assert ([c] + rest)[i..i + |pat|] == rest[i - 1..i - 1 + |pat|];
    }
  }

  /** An occurrence inside the slice `s[i..j]` is one of `s`. */
  lemma OccursInSlice(s: string, pat: string, i: int, j: int, k: int)
    requires 0 <= i <= j <= |s|
    ensures OccursAt(s[i..j], pat, k) ==> OccursAt(s, pat, i + k)
  {
    if OccursAt(s[i..j], pat, k) {
      var w := s[i..j];
      forall m | 0 <= m < |pat|
        ensures s[i + k..i + k + |pat|][m] == pat[m]
      {
        assert pat[m] == w[k..k + |pat|][m];
      }
      assert s[i..j][k..k + |pat|] == s[i + k..i + k + |pat|];
    }
  }

  /** A string whose first character is not a backtick, or whose second or
      third is not, does not start with "```". */
  lemma NoFenceAtStart(r: string)
    requires |r| < 3 || r[0] != '`' || r[1] != '`' || r[2] != '`'
    ensures !OccursAt(r, Fence, 0)
  {
    if |r| >= 3 {
      assert r[..3][0] == r[0] && r[..3][1] == r[1] && r[..3][2] == r[2];
    }
  }

  lemma {:induction false} NoFenceAfterRemoval(s: string)
    ensures !Contains(RemoveAll(s, Fence), Fence)
    decreases |s|
  {
    var r := RemoveAll(s, Fence);
    if |s| < 3 {
      assert r == s;
      forall i | 0 <= i <= |r|
        ensures !OccursAt(r, Fence, i)
      {
      }
    } else if s[..3] == Fence {
      NoFenceAfterRemoval(s[3..]);
    } else {
      var rest := RemoveAll(s[1..], Fence);
      assert r == [s[0]] + rest;
      NoFenceAfterRemoval(s[1..]);
      if s[0] == '`' {
        NoFenceAtHead(s);
      }
      NoFenceAtStart(r);
      forall i | 0 < i <= |r|
        ensures !OccursAt(r, Fence, i)
      {
        OccursShift(s[0], rest, Fence, i);
      }
    }
  }

  /** A slice of a string without "```" has none either. */
  lemma NoFenceInSlice(s: string, r: string, i: int)
    requires !Contains(s, Fence) && 0 <= i && i + |r| <= |s| && r == s[i..i + |r|]
    ensures !Contains(r, Fence)
  {
    forall k | 0 <= k <= |r|
      ensures !OccursAt(r, Fence, k)
    {
      OccursInSlice(s, Fence, i, i + |r|, k);
    }
  }

  /** Removing a pattern that does not occur changes nothing. */
  lemma {:induction false} RemoveAbsent(s: string, pat: string)
    requires |pat| > 0 && !Contains(s, pat)
    ensures RemoveAll(s, pat) == s
    decreases |s|
  {
    if |s| >= |pat| {
      assert !OccursAt(s, pat, 0);
      forall k | 0 <= k <= |s| - 1
        ensures !OccursAt(s[1..], pat, k)
      {
        OccursInSlice(s, pat, 1, |s|, k);
        assert s[1..] == s[1..|s|];
      }
      RemoveAbsent(s[1..], pat);
      assert s == [s[0]] + s[1..];
    }
  }

  /** Trimming an already trimmed string changes nothing. */
  lemma TrimTrimmed(s: string)
    requires Trimmed(s)
    ensures Trim(s) == s
  {
    TrimStartStops(s);
    TrimEndStops(s);
  }

  lemma TrimStartStops(s: string)
    requires |s| == 0 || !IsSpace(s[0])
    ensures TrimStart(s) == s
  {
  }

  lemma TrimEndStops(s: string)
    requires |s| == 0 || !IsSpace(s[|s| - 1])
    ensures TrimEnd(s) == s
  {
  }

  /** A string without "```" has no "```json" either. */
  lemma NoJsonFence(t: string)
    requires !Contains(t, Fence)
    ensures !Contains(t, JsonFence)
  {
    forall k | 0 <= k <= |t|
      ensures !OccursAt(t, JsonFence, k)
    {
      JsonFenceStartsFence(t, k);
    }
  }

  lemma JsonFenceStartsFence(t: string, k: int)
    ensures OccursAt(t, JsonFence, k) ==> OccursAt(t, Fence, k)
  {
    if OccursAt(t, JsonFence, k) {
      assert t[k..k + 3] == t[k..k + 7][..3];
    }
  }

  /** Cleaning is idempotent: a cleaned reply is its own cleanup. */
  lemma CleanIdempotent(text: string)
    ensures Clean(Clean(text)) == Clean(text)
  {
    var t := Clean(text);
    NoJsonFence(t);
    RemoveAbsent(t, JsonFence);
    RemoveAbsent(t, Fence);
    TrimTrimmed(t);
  }

  predicate NoTicks(s: string) {
    forall i :: 0 <= i < |s| ==> s[i] != '`'
  }

  predicate AllSpace(s: string) {
    forall i :: 0 <= i < |s| ==> IsSpace(s[i])
  }

  /** Removal passes a backtick-free prefix through unchanged. */
  lemma {:induction false} RemoveAfterTickFree(q: string, x: string)
    requires NoTicks(q)
    ensures RemoveAll(q + x, Fence) == q + RemoveAll(x, Fence)
    decreases |q|
  {
    var s := q + x;
    if |q| == 0 {
      assert s == x;
    } else if |s| < 3 {
      assert RemoveAll(x, Fence) == x;
    } else {
      assert s[..3][0] == q[0];
      assert s[1..] == q[1..] + x;
      assert RemoveAll(s, Fence) == [q[0]] + RemoveAll(q[1..] + x, Fence);
      RemoveAfterTickFree(q[1..], x);
      assert q == [q[0]] + q[1..];
    }
  }

  lemma {:induction false} TrimStartSpaces(lead: string, t: string)
    requires AllSpace(lead) && (|t| == 0 || !IsSpace(t[0]))
    ensures TrimStart(lead + t) == t
    decreases |lead|
  {
    if |lead| > 0 {
      assert (lead + t)[1..] == lead[1..] + t;
      TrimStartSpaces(lead[1..], t);
    } else {
      assert lead + t == t;
    }
  }

  lemma {:induction false} TrimEndSpaces(t: string, trail: string)
    requires AllSpace(trail) && (|t| == 0 || !IsSpace(t[|t| - 1]))
    ensures TrimEnd(t + trail) == t
    decreases |trail|
  {
    if |trail| > 0 {
      var s := t + trail;
      assert s[..|s| - 1] == t + trail[..|trail| - 1];
      TrimEndSpaces(t, trail[..|trail| - 1]);
    } else {
      assert t + trail == t;
    }
  }

  /** The two removals strip a "```json" ... "```" wrapper from text
      without backticks. */
  lemma FencedRemoval(q: string)
    requires NoTicks(q)
    ensures RemoveAll(RemoveAll(JsonFence + q + Fence, JsonFence), Fence) == q
  {
    var m := q + Fence;
    var text := JsonFence + q + Fence;
    assert text == JsonFence + m;
    assert text[..7] == JsonFence && text[7..] == m;
    forall i | 0 <= i <= |m|
      ensures !OccursAt(m, JsonFence, i)
    {
      if i < |q| {
        assert m[i] == q[i];
        OccursAtStart(m, JsonFence, i);
      }
    }
    RemoveAbsent(m, JsonFence);
    RemoveAfterTickFree(q, Fence);
    assert Fence[..3] == Fence && Fence[3..] == [];
    assert RemoveAll(text, JsonFence) == m;
  }

  /** Trimming removes exactly the spaces around a trimmed payload. */
  lemma PaddedTrim(lead: string, payload: string, trail: string)
    requires AllSpace(lead) && AllSpace(trail) && Trimmed(payload) && |payload| > 0
    ensures Trim(lead + payload + trail) == payload
  {
    assert lead + payload + trail == lead + (payload + trail);
    TrimStartSpaces(lead, payload + trail);
    TrimEndSpaces(payload, trail);
  }

  /** A payload wrapped in a "```json" fence, with line breaks or other
      spaces around it, comes out of the cleanup exactly as the payload. */
  lemma FencedPayload(lead: string, payload: string, trail: string)
    requires AllSpace(lead) && AllSpace(trail)
    requires NoTicks(payload) && Trimmed(payload) && |payload| > 0
    ensures Clean(JsonFence + lead + payload + trail + Fence) == payload
  {
    var q := lead + payload + trail;
    assert NoTicks(q) by {
      assert forall i :: 0 <= i < |lead| ==> IsSpace(lead[i]);
      assert forall i :: 0 <= i < |trail| ==> IsSpace(trail[i]);
    }
    assert JsonFence + lead + payload + trail + Fence == JsonFence + q + Fence;
    FencedRemoval(q);
    PaddedTrim(lead, payload, trail);
  }

  lemma FencedArrayParts()
    ensures AllSpace("\n") && NoTicks("[]") && Trimmed("[]")
    ensures "```json\n[]\n```" == JsonFence + "\n" + "[]" + "\n" + Fence
  {
    assert IsSpace('\n') && !IsSpace('[') && !IsSpace(']');
  }

  /** A fenced empty array reduces to "[]". */
  lemma CleanFencedArray()
    ensures Clean("```json\n[]\n```") == "[]"
  {
    FencedArrayParts();
    FencedPayload("\n", "[]", "\n");
  }
}
