/** The JavaScript string operations the services rely on, stated over
    `seq<char>`: the first-occurrence search behind the tag `match` and
    behind `split`, `split` and `join` with a string separator,
    `substring(0, n)`, `trim` and `replace(/\n/g, " ")`. */
module Strings {
  import opened Common

  function Min(a: nat, b: nat): nat {
    if a <= b then a else b
  }

  /** `pat` occurs in `s` starting at position `i`. */
  predicate OccursAt(s: string, pat: string, i: nat) {
    i + |pat| <= |s| && s[i..i + |pat|] == pat
  }

  /** `x` is a contiguous part of `s`. */
  ghost predicate IsInfix(x: string, s: string) {
    exists i: nat :: OccursAt(s, x, i)
  }

  /** The first position at or after `from` where `pat` occurs, if any:
      the search a lazy tag `match` and a string `split` perform. */
  function Find(s: string, pat: string, from: nat): (r: Option<nat>)
    decreases |s| - from
    ensures r.Some? ==> from <= r.value && OccursAt(s, pat, r.value)
    ensures r.Some? ==> forall j :: from <= j < r.value ==> !OccursAt(s, pat, j)
    ensures r.None? ==> forall j :: from <= j ==> !OccursAt(s, pat, j)
  {
    if from + |pat| > |s| then None
    else if s[from..from + |pat|] == pat then Some(from)
    else Find(s, pat, from + 1)
  }

  /** The pieces of `s[from..]` between successive non-overlapping
      occurrences of `sep`, found left to right. */
  function SplitFrom(s: string, sep: string, from: nat): (r: seq<string>)
    requires sep != "" && from <= |s|
    decreases |s| - from
    ensures |r| >= 1
  {
    match Find(s, sep, from)
    case None => [s[from..]]
    case Some(i) => [s[from..i]] + SplitFrom(s, sep, i + |sep|)
  }

  /** `s.split(sep)` for a non-empty string separator. */
  function Split(s: string, sep: string): (r: seq<string>)
    requires sep != ""
    ensures |r| >= 1
    ensures (forall j :: !OccursAt(s, sep, j)) ==> r == [s]
  {
    SplitFrom(s, sep, 0)
  }

  /** `xs.join(sep)`. */
  function Join(xs: seq<string>, sep: string): string {
    if |xs| == 0 then ""
    else if |xs| == 1 then xs[0]
    else xs[0] + sep + Join(xs[1..], sep)
  }

  /** Number of positions at or after `from` where `pat` occurs. */
  function CountFrom(s: string, pat: string, from: nat): nat
    decreases |s| - from
  {
    if from + |pat| > |s| then 0
    else (if OccursAt(s, pat, from) then 1 else 0) + CountFrom(s, pat, from + 1)
  }

  /** Number of occurrences of `pat` in `s`. */
  function Count(s: string, pat: string): nat {
    CountFrom(s, pat, 0)
  }

  /** The first character of `sep` does not recur in it, so two
      occurrences of `sep` never overlap (true of "<entry>"). */
  predicate NoSelfOverlap(sep: string) {
    sep != "" && forall k :: 0 < k < |sep| ==> sep[k] != sep[0]
  }

  /** Joining the pieces with the separator gives back the split text. */
  lemma {:induction false} SplitFromJoin(s: string, sep: string, from: nat)
    requires sep != "" && from <= |s|
    ensures Join(SplitFrom(s, sep, from), sep) == s[from..]
    decreases |s| - from
  {
    match Find(s, sep, from)
    case None =>
    case Some(i) =>
      var rest := SplitFrom(s, sep, i + |sep|);
      SplitFromJoin(s, sep, i + |sep|);
      assert ([s[from..i]] + rest)[1..] == rest;
      assert s[from..] == s[from..i] + s[i..i + |sep|] + s[i + |sep|..];
  }

  lemma SplitJoin(s: string, sep: string)
    requires sep != ""
    ensures Join(Split(s, sep), sep) == s
  {
    SplitFromJoin(s, sep, 0);
  }

  lemma {:induction false} CountFromNone(s: string, pat: string, from: nat)
    requires forall j :: from <= j ==> !OccursAt(s, pat, j)
    ensures CountFrom(s, pat, from) == 0
    decreases |s| - from
  {
    if from + |pat| <= |s| {
      CountFromNone(s, pat, from + 1);
    }
  }

  lemma {:induction false} CountFromSkip(s: string, pat: string, from: nat, to: nat)
    requires from <= to
    requires forall j :: from <= j < to ==> !OccursAt(s, pat, j)
    ensures CountFrom(s, pat, from) == CountFrom(s, pat, to)
    decreases (to as int) - (from as int)
  {
    if from < to {
      CountFromSkip(s, pat, from + 1, to);
      if from + |pat| > |s| {
        assert to + |pat| > |s|;
      }
    }
  }

  /** An occurrence of a non-self-overlapping separator rules out every
      occurrence that starts inside it. */
  lemma NoOccurrenceInside(s: string, sep: string, i: nat, j: nat)
    requires NoSelfOverlap(sep) && OccursAt(s, sep, i)
    requires i < j < i + |sep|
    ensures !OccursAt(s, sep, j)
  {
    assert s[j] == s[i..i + |sep|][j - i] == sep[j - i];
    if j + |sep| <= |s| {
      assert s[j..j + |sep|][0] == s[j];
    }
  }

  /** An occurrence of a non-self-overlapping separator counts once, and
      counting resumes right after it. */
  lemma CountAtOccurrence(s: string, sep: string, i: nat)
    requires NoSelfOverlap(sep) && OccursAt(s, sep, i)
    ensures CountFrom(s, sep, i) == 1 + CountFrom(s, sep, i + |sep|)
  {
    forall j | i + 1 <= j < i + |sep| ensures !OccursAt(s, sep, j) {
      NoOccurrenceInside(s, sep, i, j);
    }
    CountFromSkip(s, sep, i + 1, i + |sep|);
  }

  /** Splitting yields one more piece than there are occurrences of the
      separator. */
  lemma {:induction false} SplitFromLength(s: string, sep: string, from: nat)
    requires NoSelfOverlap(sep) && from <= |s|
    ensures |SplitFrom(s, sep, from)| == CountFrom(s, sep, from) + 1
    decreases |s| - from
  {
    match Find(s, sep, from)
    case None =>
      CountFromNone(s, sep, from);
    case Some(i) =>
      var rest := SplitFrom(s, sep, i + |sep|);
      assert SplitFrom(s, sep, from) == [s[from..i]] + rest;
      CountFromSkip(s, sep, from, i);
      CountAtOccurrence(s, sep, i);
      SplitFromLength(s, sep, i + |sep|);
      assert |SplitFrom(s, sep, from)| == 1 + |rest|;
  }

  lemma SplitLength(s: string, sep: string)
    requires NoSelfOverlap(sep)
    ensures |Split(s, sep)| == Count(s, sep) + 1
  {
    SplitFromLength(s, sep, 0);
  }

  /** `s.substring(0, n)`. */
  function Prefix(s: string, n: nat): (r: string)
    ensures |r| == Min(|s|, n) && r == s[..|r|]
  {
    if |s| <= n then s else s[..n]
  }

  /** The characters `String.prototype.trim` removes: the WhiteSpace and
      LineTerminator code points of ECMAScript (section 12.2 and 12.3 of
      ECMA-262). */
  predicate IsSpace(c: char) {
    || c == '\t' || c == '\n' || c == '\U{B}' || c == '\U{C}' || c == '\r'
    || c == ' ' || c == '\U{A0}' || c == '\U{1680}'
    || ('\U{2000}' <= c <= '\U{200A}')
    || c == '\U{2028}' || c == '\U{2029}' || c == '\U{202F}' || c == '\U{205F}'
    || c == '\U{3000}' || c == '\U{FEFF}'
  }

  /** Number of white-space characters at the start of `s`. */
  function LeadingSpace(s: string): (n: nat)
    ensures n <= |s|
    ensures forall k :: 0 <= k < n ==> IsSpace(s[k])
    ensures n < |s| ==> !IsSpace(s[n])
  {
    if |s| > 0 && IsSpace(s[0]) then 1 + LeadingSpace(s[1..]) else 0
  }

  /** Number of white-space characters at the end of `s`. */
  function TrailingSpace(s: string): (n: nat)
    ensures n <= |s|
    ensures forall k :: |s| - n <= k < |s| ==> IsSpace(s[k])
    ensures n < |s| ==> !IsSpace(s[|s| - n - 1])
  {
    if |s| > 0 && IsSpace(s[|s| - 1]) then 1 + TrailingSpace(s[..|s| - 1]) else 0
  }

  /** `s.trim()`: the part of `s` left after removing white space at both
      ends. The result starts at the first non-space character of `s`, and
      every character after it in `s` is white space. */
  function Trim(s: string): (r: string)
    ensures LeadingSpace(s) + |r| <= |s|
    ensures r == s[LeadingSpace(s)..LeadingSpace(s) + |r|]
    ensures forall k :: LeadingSpace(s) + |r| <= k < |s| ==> IsSpace(s[k])
  {
    var start := s[LeadingSpace(s)..];
    var r := start[..|start| - TrailingSpace(start)];
    assert forall k :: LeadingSpace(s) <= k < |s| ==> s[k] == start[k - LeadingSpace(s)];
    r
  }

  /** A trimmed string neither starts nor ends with white space. */
  lemma TrimEnds(s: string)
    ensures var r := Trim(s);
      r != "" ==> !IsSpace(r[0]) && !IsSpace(r[|r| - 1])
  {
    var lead := LeadingSpace(s);
    var start := s[lead..];
    var trail := TrailingSpace(start);
    var r := Trim(s);
    if r != "" {
      assert r[0] == s[lead];
      assert r == start[..|start| - trail];
      assert r[|r| - 1] == start[|start| - trail - 1];
    }
  }

  /** Trimming leaves nothing exactly when the string is all white space. */
  lemma TrimEmpty(s: string)
    ensures Trim(s) == "" <==> forall k :: 0 <= k < |s| ==> IsSpace(s[k])
  {
    var lead := LeadingSpace(s);
    if Trim(s) != "" {
      assert !IsSpace(s[lead]);
    }
  }

  /** `s.replace(/\n/g, " ")`: every line feed becomes a space. */
  function ReplaceNewlines(s: string): (r: string)
    ensures |r| == |s|
    ensures forall k :: 0 <= k < |s| ==> r[k] == (if s[k] == '\n' then ' ' else s[k])
    ensures forall k :: 0 <= k < |r| ==> r[k] != '\n'
  {
    if s == "" then "" else [if s[0] == '\n' then ' ' else s[0]] + ReplaceNewlines(s[1..])
  }

  /** Decimal rendering of a non-negative number, as template literals
      print one. */
  function NatToString(n: nat): (r: string)
    ensures |r| >= 1
    ensures forall k :: 0 <= k < |r| ==> '0' <= r[k] <= '9'
  {
    if n < 10 then ["0123456789"[n]] else NatToString(n / 10) + ["0123456789"[n % 10]]
  }

  lemma InfixSelf(x: string)
    ensures IsInfix(x, x)
  {
    assert OccursAt(x, x, 0);
  }

  /** A part of the left operand of a concatenation is part of the whole. */
  lemma InfixLeft(x: string, l: string, r: string)
    requires IsInfix(x, l)
    ensures IsInfix(x, l + r)
  {
    var i: nat :| OccursAt(l, x, i);
    assert (l + r)[i..i + |x|] == l[i..i + |x|];
    assert OccursAt(l + r, x, i);
  }

  /** A part of the right operand of a concatenation is part of the whole. */
  lemma InfixRight(x: string, l: string, r: string)
    requires IsInfix(x, r)
    ensures IsInfix(x, l + r)
  {
    var i: nat :| OccursAt(r, x, i);
    assert (l + r)[|l| + i..|l| + i + |x|] == r[i..i + |x|];
    assert OccursAt(l + r, x, |l| + i);
  }
}
