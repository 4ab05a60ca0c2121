/** Substring search and splitting over arbitrary sequences, as Go's
    `strings.Contains`, `strings.Index` and `strings.Split` (and their
    byte-slice counterparts) behave for a non-empty separator. */
module Text {
  import opened Results

  /** `pat` occurs in `s` starting at position `i`. */
  predicate OccursAt<T(==)>(s: seq<T>, pat: seq<T>, i: nat) {
    i + |pat| <= |s| && s[i..i + |pat|] == pat
  }

  /** `strings.Contains(s, pat)`. */
  predicate Contains<T(==)>(s: seq<T>, pat: seq<T>) {
    exists i: nat :: i <= |s| && OccursAt(s, pat, i)
  }

  /** The first occurrence of `pat` in `s` at or after `k`. */
  function FindFrom<T(==)>(s: seq<T>, pat: seq<T>, k: nat): (r: Option<nat>)
    requires k <= |s|
    ensures r.Some? ==> k <= r.value && OccursAt(s, pat, r.value)
    ensures r.Some? ==> forall j: nat :: k <= j < r.value ==> !OccursAt(s, pat, j)
    ensures r.None? ==> forall j: nat :: k <= j ==> !OccursAt(s, pat, j)
    decreases |s| - k
  {
    if OccursAt(s, pat, k) then Some(k)
    else if k == |s| then None
    else FindFrom(s, pat, k + 1)
  }

  /** `strings.Index(s, pat)`, with -1 rendered as None. */
  function Index<T(==)>(s: seq<T>, pat: seq<T>): (r: Option<nat>)
    ensures r.Some? <==> Contains(s, pat)
    ensures r.Some? ==> OccursAt(s, pat, r.value)
    ensures r.Some? ==> forall j: nat :: j < r.value ==> !OccursAt(s, pat, j)
  {
    FindFrom(s, pat, 0)
  }

  /** The parts of `s` between the occurrences of `sep`, as `strings.Split`. */
  function Split<T(==)>(s: seq<T>, sep: seq<T>): (parts: seq<seq<T>>)
    requires |sep| > 0
    ensures |parts| >= 1
    decreases |s|
  {
    match Index(s, sep)
    case None => [s]
    case Some(i) => [s[..i]] + Split(s[i + |sep|..], sep)
  }

  /** `strings.Join(parts, sep)`. */
  function Join<T>(parts: seq<seq<T>>, sep: seq<T>): seq<T> {
    if |parts| == 0 then []
    else if |parts| == 1 then parts[0]
    else parts[0] + sep + Join(parts[1..], sep)
  }

  lemma Assoc<T>(a: seq<T>, b: seq<T>, c: seq<T>)
    ensures a + (b + c) == (a + b) + c
  {
  }

  /** A prefix of a sequence that does not contain `pat` does not contain it either. */
  lemma PrefixNotContains<T>(s: seq<T>, pat: seq<T>, n: nat)
    requires n <= |s|
    requires !Contains(s, pat)
    ensures !Contains(s[..n], pat)
  {
    forall i: nat | OccursAt(s[..n], pat, i)
      ensures OccursAt(s, pat, i)
    {
      assert s[..n][i..i + |pat|] == s[i..i + |pat|];
    }
  }

  /** The text in front of the first occurrence does not contain the separator. */
  lemma BeforeFirstNotContains<T>(s: seq<T>, pat: seq<T>, i: nat)
    requires |pat| > 0
    requires Index(s, pat) == Some(i)
    ensures !Contains(s[..i], pat)
  {
    forall j: nat | OccursAt(s[..i], pat, j)
      ensures false
    {
      assert s[..i][j..j + |pat|] == s[j..j + |pat|];
      assert OccursAt(s, pat, j);
    }
  }

  /** No part produced by `Split` contains the separator. */
  lemma {:induction false} SplitPartsFree<T>(s: seq<T>, sep: seq<T>)
    requires |sep| > 0
    ensures forall k :: 0 <= k < |Split(s, sep)| ==> !Contains(Split(s, sep)[k], sep)
    decreases |s|
  {
    match Index(s, sep)
    case None =>
    case Some(i) =>
      BeforeFirstNotContains(s, sep, i);
      SplitPartsFree(s[i + |sep|..], sep);
  }

  /** Joining the parts of `Split` with the separator gives the input back. */
  lemma {:induction false} SplitJoin<T>(s: seq<T>, sep: seq<T>)
    requires |sep| > 0
    ensures Join(Split(s, sep), sep) == s
    decreases |s|
  {
    var r := Index(s, sep);
    if r.Some? {
      var i := r.value;
      var rest := s[i + |sep|..];
      var parts := Split(rest, sep);
      SplitJoin(rest, sep);
      assert Split(s, sep) == [s[..i]] + parts;
      JoinCons(s[..i], parts, sep);
      assert s[i..i + |sep|] == sep;
      assert s == s[..i] + s[i..i + |sep|] + rest;
    }
  }

  lemma JoinCons<T>(a: seq<T>, parts: seq<seq<T>>, sep: seq<T>)
    requires |parts| >= 1
    ensures Join([a] + parts, sep) == a + sep + Join(parts, sep)
  {
    assert ([a] + parts)[1..] == parts;
  }

  /** `Split` yields a single part exactly when the separator does not occur. */
  lemma SplitSingleIff<T>(s: seq<T>, sep: seq<T>)
    requires |sep| > 0
    ensures |Split(s, sep)| == 1 <==> !Contains(s, sep)
  {
    match Index(s, sep)
    case None =>
    case Some(i) =>
      assert Split(s, sep) == [s[..i]] + Split(s[i + |sep|..], sep);
  }

  /** The first element of `Split` is the text before the first separator,
      or the whole input when there is none. */
  lemma SplitHead<T>(s: seq<T>, sep: seq<T>)
    requires |sep| > 0
    ensures Index(s, sep).None? ==> Split(s, sep) == [s]
    ensures Index(s, sep).Some? ==>
      Split(s, sep)[0] == s[..Index(s, sep).value]
      && Split(s, sep)[1..] == Split(s[Index(s, sep).value + |sep|..], sep)
  {
  }

  /** Locating the first occurrence of a separator placed after text that
      cannot host it. */
  lemma IndexAfterFree<T>(a: seq<T>, sep: seq<T>, b: seq<T>)
    requires |sep| > 0
    requires forall j: nat :: j < |a| ==> !OccursAt(a + sep + b, sep, j)
    ensures Index(a + sep + b, sep) == Some(|a|)
  {
    var s := a + sep + b;
    assert s[|a|..|a| + |sep|] == sep;
    assert OccursAt(s, sep, |a|);
  }

  /** An occurrence inside a prefix is an occurrence in the whole. */
  lemma OccursInPrefix<T>(p: seq<T>, s: seq<T>, pat: seq<T>, j: nat)
    requires p <= s && OccursAt(p, pat, j)
    ensures OccursAt(s, pat, j)
  {
    assert p[j..j + |pat|] == s[j..j + |pat|];
  }

  /** The first part of `Split` is a prefix free of the separator, ending at
      the end of the input or right before a separator. */
  lemma SplitHeadShape<T>(s: seq<T>, sep: seq<T>)
    requires |sep| > 0
    ensures Split(s, sep)[0] <= s
    ensures !Contains(Split(s, sep)[0], sep)
    ensures Split(s, sep)[0] == s || OccursAt(s, sep, |Split(s, sep)[0]|)
  {
    SplitHead(s, sep);
    SplitPartsFree(s, sep);
  }

  /** A sequence that lacks the separator's first element does not contain it. */
  lemma NoLeadNotContains<T>(s: seq<T>, pat: seq<T>)
    requires |pat| > 0 && pat[0] !in s
    ensures !Contains(s, pat)
  {
    forall i: nat ensures !OccursAt(s, pat, i) {
      if i + |pat| <= |s| {
        assert s[i..i + |pat|][0] == s[i];
      }
    }
  }

  /** Splitting a sequence that lacks the separator's first element. */
  lemma SplitNoLead<T>(s: seq<T>, sep: seq<T>)
    requires |sep| > 0 && sep[0] !in s
    ensures Split(s, sep) == [s]
  {
    NoLeadNotContains(s, sep);
    SplitSingleIff(s, sep);
    SplitHead(s, sep);
  }

  /** The first occurrence follows text that lacks the separator's first element. */
  lemma IndexAfterNoLead<T>(a: seq<T>, sep: seq<T>, b: seq<T>)
    requires |sep| > 0 && sep[0] !in a
    ensures Index(a + sep + b, sep) == Some(|a|)
    ensures Split(a + sep + b, sep) == [a] + Split(b, sep)
  {
    var s := a + sep + b;
    forall j: nat | j < |a| ensures !OccursAt(s, sep, j) {
      assert s[j..j + |sep|][0] == a[j];
    }
    IndexAfterFree(a, sep, b);
    assert s[..|a|] == a;
    assert s[|a| + |sep|..] == b;
  }
}
