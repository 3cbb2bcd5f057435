/** The handful of Python `str` built-ins the reply pipeline relies on, written out over
    `seq<char>`: `strip()`, `replace(p, "")`, `split(sep)[0]` and `split(sep)[1]`,
    `re.sub(r'[_\*]{2,}', '', s)`, `lower()` (ASCII letters) and `str(n)` for a status code.
    Each comes with an independent characterisation and the lemmas connecting the two. */
module Strings {

  // ---------------------------------------------------------------------------
  // Substring occurrence
  // ---------------------------------------------------------------------------

  /** `p` occurs in `s` starting at index `i`. */
  predicate OccursAt(s: string, p: string, i: int) {
    0 <= i && i + |p| <= |s| && s[i..i + |p|] == p
  }

  /** Python's `p in s`: `p` occurs somewhere in `s`. */
  predicate Contains(s: string, p: string) {
    exists i | 0 <= i <= |s| - |p| :: OccursAt(s, p, i)
  }

  /** An occurrence in the tail of `s` is an occurrence in `s`, one place later. */
  lemma OccursShift(s: string, p: string, i: int)
    requires |s| > 0 && 0 <= i
    ensures OccursAt(s[1..], p, i) <==> OccursAt(s, p, i + 1)
  {
    if i + 1 + |p| <= |s| {
      assert s[1..][i..i + |p|] == s[i + 1..i + 1 + |p|];
    }
  }

  /** The left-to-right scan: when `p` does not start at the first character, `p` occurs
      in `s` exactly when it occurs in the rest of `s`. */
  lemma ContainsStep(s: string, p: string)
    requires |s| > 0 && |s| >= |p| && s[..|p|] != p
    ensures Contains(s, p) <==> Contains(s[1..], p)
  {
    if Contains(s, p) {
      var i :| 0 <= i <= |s| - |p| && OccursAt(s, p, i);
      assert s[..|p|] == s[0..0 + |p|];
      OccursShift(s, p, i - 1);
    }
    if Contains(s[1..], p) {
      var i :| 0 <= i <= |s| - 1 - |p| && OccursAt(s[1..], p, i);
      OccursShift(s, p, i);
    }
  }

  /** A string contains every piece it was glued from. */
  lemma ContainsMiddle(a: string, p: string, b: string)
    ensures Contains(a + p + b, p)
  {
    var s := a + p + b;
    assert s[|a|..|a| + |p|] == p;
    assert OccursAt(s, p, |a|);
  }

  lemma ContainsFront(a: string, b: string, p: string)
    requires Contains(a, p)
    ensures Contains(a + b, p)
  {
    var i :| 0 <= i <= |a| - |p| && OccursAt(a, p, i);
    assert (a + b)[i..i + |p|] == a[i..i + |p|];
    assert OccursAt(a + b, p, i);
  }

  lemma ContainsBack(a: string, b: string, p: string)
    requires Contains(b, p)
    ensures Contains(a + b, p)
  {
    var i :| 0 <= i <= |b| - |p| && OccursAt(b, p, i);
    assert (a + b)[|a| + i..|a| + i + |p|] == b[i..i + |p|];
    assert OccursAt(a + b, p, |a| + i);
  }

  lemma ContainsHead(p: string, b: string)
    ensures Contains(p + b, p)
  {
    assert (p + b)[0..|p|] == p;
    assert OccursAt(p + b, p, 0);
  }

  /** Containment is transitive. */
  lemma ContainsWithin(s: string, m: string, p: string)
    requires Contains(s, m) && Contains(m, p)
    ensures Contains(s, p)
  {
    var i :| 0 <= i <= |s| - |m| && OccursAt(s, m, i);
    var j :| 0 <= j <= |m| - |p| && OccursAt(m, p, j);
    forall k | 0 <= k < |p| ensures s[i + j + k] == p[k] {
      assert m[j..j + |p|][k] == m[j + k];
      assert s[i..i + |m|][j + k] == s[i + j + k];
    }
    assert s[i + j..i + j + |p|] == p;
    assert OccursAt(s, p, i + j);
  }

  /** Python's `s.endswith(suffix)`. */
  predicate EndsWith(s: string, suffix: string) {
    |suffix| <= |s| && s[|s| - |suffix|..] == suffix
  }

  /** Prepending keeps a suffix. */
  lemma EndsWithBack(a: string, b: string, suffix: string)
    requires EndsWith(b, suffix)
    ensures EndsWith(a + b, suffix)
  {
    assert (a + b)[|a + b| - |suffix|..] == b[|b| - |suffix|..];
  }

  // ---------------------------------------------------------------------------
  // str.replace(p, "")
  // ---------------------------------------------------------------------------

  /** Python's `s.replace(p, "")`: delete the occurrences of `p` found by a left-to-right,
      non-overlapping scan. An empty `p` leaves `s` as it is. `RemoveAllCutsFirst` pins the
      scan down in terms of `Before` and `AfterFirst`. */
  function RemoveAll(s: string, p: string): (r: string)
    ensures |r| <= |s|
    ensures !Contains(s, p) ==> r == s
    decreases |s|
  {
    if p == [] || |s| < |p| then s
    else if s[..|p|] == p then
      assert OccursAt(s, p, 0);
      RemoveAll(s[|p|..], p)
    else
      ContainsStep(s, p);
      [s[0]] + RemoveAll(s[1..], p)
  }

  /** `replace` is characterised by the first occurrence: the text before it is kept, the
      occurrence is deleted, and the scan resumes right after it. */
  lemma {:induction false} RemoveAllCutsFirst(s: string, p: string)
    requires p != [] && Contains(s, p)
    ensures RemoveAll(s, p) == Before(s, p) + RemoveAll(AfterFirst(s, p), p)
    decreases |s|
  {
    var i :| 0 <= i <= |s| - |p| && OccursAt(s, p, i);
    if s[..|p|] != p {
      ContainsStep(s, p);
      RemoveAllCutsFirst(s[1..], p);
      assert AfterFirst(s, p) == AfterFirst(s[1..], p);
    }
  }

  /** A text that begins with an echo of `p` loses that echo. */
  lemma RemoveEcho(p: string, t: string)
    requires p != []
    ensures RemoveAll(p + t, p) == RemoveAll(t, p)
  {
    assert (p + t)[..|p|] == p;
    assert (p + t)[|p|..] == t;
  }

  // ---------------------------------------------------------------------------
  // str.split(sep)[0] and str.split(sep)[1]
  // ---------------------------------------------------------------------------

  /** Python's `s.split(sep)[0]`: the text before the first occurrence of `sep`, or all of
      `s` when `sep` does not occur. (Python refuses an empty separator.) */
  function Before(s: string, sep: string): (r: string)
    requires sep != []
    ensures r <= s
    ensures !Contains(r, sep)
    ensures Contains(s, sep) ==> OccursAt(s, sep, |r|)
    ensures !Contains(s, sep) ==> r == s
    ensures forall i | 0 <= i < |r| :: !OccursAt(s, sep, i)
    decreases |s|
  {
    if |s| < |sep| then s
    else if s[..|sep|] == sep then
      assert OccursAt(s, sep, 0);
      []
    else
      var rest := Before(s[1..], sep);
      StepKeepsSepOut(s, sep, rest);
      StepFindsSep(s, sep, rest);
      StepKeepsAll(s, sep, rest);
      StepFindsNoEarlier(s, sep, rest);
      [s[0]] + rest
  }

  /** The steps of `Before` past a first character at which `sep` does not start: the
      prefix found so far still holds no `sep`, ... */
  lemma StepKeepsSepOut(s: string, sep: string, rest: string)
    requires sep != [] && |s| >= |sep| && s[..|sep|] != sep
    requires rest <= s[1..] && !Contains(rest, sep)
    ensures !Contains([s[0]] + rest, sep)
  {
    var q := [s[0]] + rest;
    assert q[1..] == rest;
    if |q| >= |sep| {
      assert q[..|sep|] == s[..|sep|];
      ContainsStep(q, sep);
    }
  }

  /** ... the first occurrence in the tail is the first occurrence in `s`, ... */
  lemma StepFindsSep(s: string, sep: string, rest: string)
    requires sep != [] && |s| >= |sep| && s[..|sep|] != sep
    requires Contains(s[1..], sep) ==> OccursAt(s[1..], sep, |rest|)
    ensures Contains(s, sep) ==> OccursAt(s, sep, |rest| + 1)
  {
    var tail := s[1..];
    ContainsStep(s, sep);
    if Contains(tail, sep) {
      OccursShift(s, sep, |rest|);
    }
  }

  /** ... and without any occurrence the whole text is kept. */
  lemma StepKeepsAll(s: string, sep: string, rest: string)
    requires sep != [] && |s| >= |sep| && s[..|sep|] != sep
    requires !Contains(s[1..], sep) ==> rest == s[1..]
    ensures !Contains(s, sep) ==> [s[0]] + rest == s
  {
    ContainsStep(s, sep);
  }

  /** ... and no occurrence starts earlier. */
  lemma StepFindsNoEarlier(s: string, sep: string, rest: string)
    requires sep != [] && |s| >= |sep| && s[..|sep|] != sep
    requires forall i | 0 <= i < |rest| :: !OccursAt(s[1..], sep, i)
    ensures forall i | 0 <= i < |rest| + 1 :: !OccursAt(s, sep, i)
  {
    forall i | 0 < i < |rest| + 1 ensures !OccursAt(s, sep, i) {
      OccursShift(s, sep, i - 1);
    }
  }

  /** The text after the first occurrence of `sep` (which `s` must contain). */
  function AfterFirst(s: string, sep: string): (t: string)
    requires sep != [] && Contains(s, sep)
    ensures s == Before(s, sep) + sep + t
  {
    var k := |Before(s, sep)|;
    assert s == s[..k] + s[k..k + |sep|] + s[k + |sep|..];
    s[k + |sep|..]
  }

  /** Python's `s.split(sep)[1]` when `sep` occurs: the text after the first occurrence of
      `sep`, up to its second occurrence or the end. */
  function SecondField(s: string, sep: string): (r: string)
    requires sep != [] && Contains(s, sep)
    ensures r <= AfterFirst(s, sep)
    ensures |r| == |AfterFirst(s, sep)| || OccursAt(AfterFirst(s, sep), sep, |r|)
    ensures !Contains(r, sep)
  {
    Before(AfterFirst(s, sep), sep)
  }

  // ---------------------------------------------------------------------------
  // str.strip()
  // ---------------------------------------------------------------------------

  /** The characters Python's `str.isspace()` accepts, which `strip()` removes. */
  predicate IsSpace(c: char) {
    c == ' ' || ('\t' <= c <= '\r') || ('\U{1C}' <= c <= '\U{1F}') ||
    c == '\U{85}' || c == '\U{A0}' || c == '\U{1680}' || ('\U{2000}' <= c <= '\U{200A}') ||
    c == '\U{2028}' || c == '\U{2029}' || c == '\U{202F}' || c == '\U{205F}' || c == '\U{3000}'
  }

  predicate AllSpace(s: string) {
    forall k | 0 <= k < |s| :: IsSpace(s[k])
  }

  /** Neither the first nor the last character is whitespace. */
  predicate Trimmed(s: string) {
    s == [] || (!IsSpace(s[0]) && !IsSpace(s[|s| - 1]))
  }

  /** Number of whitespace characters at the front of `s`. */
  function LeadingSpaces(s: string): (n: nat)
    ensures n <= |s| && AllSpace(s[..n])
    ensures n < |s| ==> !IsSpace(s[n])
    decreases |s|
  {
    if |s| > 0 && IsSpace(s[0]) then
      var m := LeadingSpaces(s[1..]);
      assert s[..1 + m] == [s[0]] + s[1..][..m];
      AllSpaceConcat([s[0]], s[1..][..m]);
      assert 1 + m < |s| ==> s[1 + m] == s[1..][m];
      1 + m
    else 0
  }

  /** Number of whitespace characters at the back of `s`. */
  function TrailingSpaces(s: string): (n: nat)
    ensures n <= |s| && AllSpace(s[|s| - n..])
    ensures n < |s| ==> !IsSpace(s[|s| - 1 - n])
    decreases |s|
  {
    if |s| > 0 && IsSpace(s[|s| - 1]) then
      var init := s[..|s| - 1];
      var m := TrailingSpaces(init);
      assert init == s[..|s| - 1];
      assert s[|s| - 1 - m..] == init[|init| - m..] + [s[|s| - 1]];
      AllSpaceConcat(init[|init| - m..], [s[|s| - 1]]);
      assert 1 + m < |s| ==> s[|s| - 2 - m] == init[|init| - 1 - m];
      1 + m
    else 0
  }

  lemma AllSpaceConcat(a: string, b: string)
    ensures AllSpace(a + b) <==> AllSpace(a) && AllSpace(b)
  {
    if AllSpace(a) && AllSpace(b) {
      forall k | 0 <= k < |a + b| ensures IsSpace((a + b)[k]) {
        if k < |a| { assert (a + b)[k] == a[k]; } else { assert (a + b)[k] == b[k - |a|]; }
      }
    }
    if AllSpace(a + b) {
      forall k | 0 <= k < |a| ensures IsSpace(a[k]) { assert (a + b)[k] == a[k]; }
      forall k | 0 <= k < |b| ensures IsSpace(b[k]) { assert (a + b)[|a| + k] == b[k]; }
    }
  }

  /** `s` is `r` with some whitespace in front, starting at index `i`, and some behind. */
  predicate PaddedAt(s: string, r: string, i: int) {
    0 <= i && i + |r| <= |s| && s[i..i + |r|] == r && AllSpace(s[..i]) && AllSpace(s[i + |r|..])
  }

  /** Python's `s.strip()`. */
  function Strip(s: string): (r: string)
    ensures Trimmed(r)
    ensures PaddedAt(s, r, LeadingSpaces(s))
  {
    var i := LeadingSpaces(s);
    if i == |s| then []
    else
      var j := |s| - TrailingSpaces(s);
      SpacesDoNotMeet(s);
      s[i..j]
  }

  /** When `s` is not all whitespace, its leading and trailing whitespace are apart. */
  lemma SpacesDoNotMeet(s: string)
    requires LeadingSpaces(s) < |s|
    ensures LeadingSpaces(s) < |s| - TrailingSpaces(s)
  {
    var i := LeadingSpaces(s);
    var j := |s| - TrailingSpaces(s);
    if j <= i {
      SpaceInSuffix(s, j, i);
    }
  }

  /** A character inside an all-whitespace suffix is whitespace. */
  lemma SpaceInSuffix(s: string, j: int, k: int)
    requires 0 <= j <= k < |s| && AllSpace(s[j..])
    ensures IsSpace(s[k])
  {
    assert s[j..][k - j] == s[k];
  }

  /** A character inside an all-whitespace prefix is whitespace. */
  lemma SpaceInPrefix(s: string, j: int, k: int)
    requires 0 <= k < j <= |s| && AllSpace(s[..j])
    ensures IsSpace(s[k])
  {
    assert s[..j][k] == s[k];
  }

  /** `Strip` is the only way to peel whitespace off both ends so that none is left at
      either end: whatever `r` does that equals `Strip(s)`. */
  lemma StripUnique(s: string, r: string, i: int)
    requires PaddedAt(s, r, i) && Trimmed(r)
    ensures r == Strip(s)
  {
    var st := Strip(s);
    var l := LeadingSpaces(s);
    if r == [] {
      if l < |s| {
        if l < i { SpaceInPrefix(s, i, l); } else { SpaceInSuffix(s, i, l); }
      }
    } else {
      var e := i + |r|;
      assert s[i] == r[0] && s[e - 1] == r[|r| - 1];
      if l > i { SpaceInPrefix(s, l, i); }
      if l < i { SpaceInPrefix(s, i, l); }
      assert |st| > 0 ==> st[|st| - 1] == s[l + |st| - 1];
      if |st| < |r| { SpaceInSuffix(s, l + |st|, e - 1); }
      if |st| > |r| { SpaceInSuffix(s, e, l + |st| - 1); }
    }
  }

  /** Stripping twice is stripping once. */
  lemma StripIdempotent(s: string)
    ensures Strip(Strip(s)) == Strip(s)
  {
    var r := Strip(s);
    assert r[..0] == [] && r[0 + |r|..] == [] && r[0..0 + |r|] == r;
    assert PaddedAt(r, r, 0);
    StripUnique(r, r, 0);
  }

  // ---------------------------------------------------------------------------
  // re.sub(r'[_\*]{2,}', '', s)
  // ---------------------------------------------------------------------------

  /** The decorative filler characters of the regular expression `[_\*]`. */
  predicate IsFiller(c: char) {
    c == '_' || c == '*'
  }

  /** No two adjacent characters are both filler. */
  predicate NoFillerPairs(s: string) {
    forall k | 0 <= k < |s| - 1 :: !(IsFiller(s[k]) && IsFiller(s[k + 1]))
  }

  /** The non-filler characters of `s`, in order. */
  function Unfilled(s: string): string
    decreases |s|
  {
    if s == [] then []
    else if IsFiller(s[0]) then Unfilled(s[1..])
    else [s[0]] + Unfilled(s[1..])
  }

  /** Length of the run of filler characters at the front of `s`. */
  function FillerRun(s: string): (n: nat)
    ensures n <= |s|
    ensures forall k | 0 <= k < n :: IsFiller(s[k])
    ensures n < |s| ==> !IsFiller(s[n])
    decreases |s|
  {
    if |s| > 0 && IsFiller(s[0]) then 1 + FillerRun(s[1..]) else 0
  }

  /** Dropping an all-filler prefix does not change the non-filler characters. */
  lemma {:induction false} UnfilledSkipsRun(s: string, n: nat)
    requires n <= |s|
    requires forall k | 0 <= k < n :: IsFiller(s[k])
    ensures Unfilled(s) == Unfilled(s[n..])
    decreases n
  {
    if n > 0 {
      assert s[1..][n - 1..] == s[n..];
      UnfilledSkipsRun(s[1..], n - 1);
    }
  }

  /** Python's `re.sub(r'[_\*]{2,}', '', s)`: the leftmost, greedy matches of the pattern
      are the maximal runs of two or more filler characters, and each is deleted; a lone
      filler character stays. */
  function DeleteFillerRuns(s: string): (r: string)
    ensures NoFillerPairs(r)
    ensures Unfilled(r) == Unfilled(s)
    ensures |r| <= |s|
    ensures |s| > 0 && !IsFiller(s[0]) ==> |r| > 0 && r[0] == s[0]
    decreases |s|
  {
    if s == [] then []
    else
      var n := FillerRun(s);
      if n >= 2 then
        UnfilledSkipsRun(s, n);
        DeleteFillerRuns(s[n..])
      else
        var rest := DeleteFillerRuns(s[1..]);
        assert n == 1 ==> |s| == 1 || !IsFiller(s[1]);
        [s[0]] + rest
  }

  /** Whether the character at `i` outlives the deletion: it is not filler, or neither of
      its neighbours is. */
  predicate Survives(s: string, i: int)
    requires 0 <= i < |s|
  {
    !IsFiller(s[i]) || ((i == 0 || !IsFiller(s[i - 1])) && (i == |s| - 1 || !IsFiller(s[i + 1])))
  }

  /** The surviving characters of `s` from index `i` on, in order. */
  function SurvivorsFrom(s: string, i: nat): string
    requires i <= |s|
    decreases |s| - i
  {
    if i == |s| then [] else (if Survives(s, i) then [s[i]] else []) + SurvivorsFrom(s, i + 1)
  }

  /** Cutting `s` at `k` keeps the survivors from `k` on, unless the cut separates two
      filler characters. */
  lemma {:induction false} SurvivorsAfterCut(s: string, k: nat, i: nat)
    requires k <= i <= |s|
    requires i == k ==> k == 0 || k == |s| || !IsFiller(s[k - 1]) || !IsFiller(s[k])
    ensures SurvivorsFrom(s, i) == SurvivorsFrom(s[k..], i - k)
    decreases |s| - i
  {
    if i < |s| {
      var t := s[k..];
      assert |t| == |s| - k && t[i - k] == s[i];
      assert i > k ==> t[i - k - 1] == s[i - 1];
      assert i + 1 < |s| ==> t[i - k + 1] == s[i + 1];
      assert Survives(s, i) == Survives(t, i - k);
      SurvivorsAfterCut(s, k, i + 1);
    }
  }

  /** No character of a leading run of two or more filler characters survives. */
  lemma {:induction false} RunDoesNotSurvive(s: string, j: nat, n: nat)
    requires 2 <= n <= |s| && j <= n
    requires forall k | 0 <= k < n :: IsFiller(s[k])
    ensures SurvivorsFrom(s, j) == SurvivorsFrom(s, n)
    decreases n - j
  {
    if j < n {
      assert !Survives(s, j) by {
        if j == 0 { assert IsFiller(s[1]); } else { assert IsFiller(s[j - 1]); }
      }
      RunDoesNotSurvive(s, j + 1, n);
    }
  }

  /** The deletion keeps exactly the surviving characters: every filler character next to
      another filler character goes, every other character stays, in order. */
  lemma {:induction false} DeleteFillerRunsKeepsSurvivors(s: string)
    ensures DeleteFillerRuns(s) == SurvivorsFrom(s, 0)
    decreases |s|
  {
    if s != [] {
      var n := FillerRun(s);
      if n >= 2 {
        DeleteFillerRunsKeepsSurvivors(s[n..]);
        RunDoesNotSurvive(s, 0, n);
        SurvivorsAfterCut(s, n, n);
      } else {
        DeleteFillerRunsKeepsSurvivors(s[1..]);
        assert Survives(s, 0) by {
          assert n == 1 ==> |s| == 1 || !IsFiller(s[1]);
        }
        SurvivorsAfterCut(s, 1, 1);
      }
    }
  }

  /** A text without adjacent filler characters is left as it is; so the deletion is
      idempotent. */
  lemma {:induction false} DeleteFillerRunsFixes(s: string)
    requires NoFillerPairs(s)
    ensures DeleteFillerRuns(s) == s
    decreases |s|
  {
    if s != [] {
      assert FillerRun(s) <= 1 by {
        if |s| > 1 && IsFiller(s[0]) { assert !IsFiller(s[1]); }
      }
      DeleteFillerRunsFixes(s[1..]);
    }
  }

  lemma DeleteFillerRunsIdempotent(s: string)
    ensures DeleteFillerRuns(DeleteFillerRuns(s)) == DeleteFillerRuns(s)
  {
    DeleteFillerRunsFixes(DeleteFillerRuns(s));
  }

  /** The properties survive taking a contiguous piece, which is what `strip()` keeps. */
  lemma NoFillerPairsSlice(s: string, i: int, j: int)
    requires NoFillerPairs(s) && 0 <= i <= j <= |s|
    ensures NoFillerPairs(s[i..j])
  {
    assert forall k | 0 <= k < j - i :: s[i..j][k] == s[i + k];
  }

  // ---------------------------------------------------------------------------
  // str.lower() on ASCII letters
  // ---------------------------------------------------------------------------

  function LowerChar(c: char): (d: char)
    ensures ('A' <= c <= 'Z') ==> 'a' <= d <= 'z'
    ensures !('A' <= c <= 'Z') ==> d == c
  {
    if 'A' <= c <= 'Z' then (c as int - 'A' as int + 'a' as int) as char else c
  }

  /** `s.lower()` for the ASCII letters. */
  function Lower(s: string): (r: string)
    ensures |r| == |s|
    ensures forall k | 0 <= k < |s| :: r[k] == LowerChar(s[k])
    decreases |s|
  {
    if s == [] then [] else [LowerChar(s[0])] + Lower(s[1..])
  }

  // ---------------------------------------------------------------------------
  // str(n) for a natural number
  // ---------------------------------------------------------------------------

  predicate IsDigit(c: char) {
    '0' <= c <= '9'
  }

  function DigitChar(d: nat): (c: char)
    requires d < 10
    ensures IsDigit(c)
  {
    ('0' as int + d) as char
  }

  /** The value of a string of decimal digits. */
  function DecimalValue(s: string): nat
    requires forall k | 0 <= k < |s| :: IsDigit(s[k])
    decreases |s|
  {
    if s == [] then 0
    else
      assert IsDigit(s[|s| - 1]);
      10 * DecimalValue(s[..|s| - 1]) + (s[|s| - 1] as int - '0' as int)
  }

  /** Python's `str(n)` for `n >= 0`: decimal digits, no leading zero. */
  function DecimalString(n: nat): (r: string)
    ensures |r| > 0
    ensures forall k | 0 <= k < |r| :: IsDigit(r[k])
    ensures r[0] == '0' ==> n == 0
    decreases n
  {
    if n < 10 then [DigitChar(n)] else DecimalString(n / 10) + [DigitChar(n % 10)]
  }

  /** Reading the digits back gives the number. */
  lemma {:induction false} DecimalRoundTrip(n: nat)
    ensures DecimalValue(DecimalString(n)) == n
    decreases n
  {
    if n >= 10 {
      var s := DecimalString(n);
      assert s[..|s| - 1] == DecimalString(n / 10);
      DecimalRoundTrip(n / 10);
    }
  }

}
