/** Sequence helpers shared by the tag normalisations of the web page and
    of the API handler. */
module Seqs {
  import opened Strings

  /** No element occurs twice. */
  predicate Distinct(s: seq<string>) {
    forall i, j :: 0 <= i < j < |s| ==> s[i] != s[j]
  }

  /** The elements of `s` in the order of their first occurrence, each once:
      what `Array.from(new Set(s))` returns, and what a loop that skips
      values already recorded in a "seen" map appends. */
  function FirstOccurrences(s: seq<string>): (r: seq<string>)
    ensures Distinct(r)
    ensures forall x :: x in r <==> x in s
    ensures |r| <= |s|
  {
    if |s| == 0 then []
    else
      var init := s[..|s| - 1];
      var last := s[|s| - 1];
      assert s == init + [last];
      if last in init then FirstOccurrences(init) else FirstOccurrences(init) + [last]
  }

  /** A sequence without repetitions is kept as it is. */
  lemma {:induction false} FirstOccurrencesOfDistinct(s: seq<string>)
    requires Distinct(s)
    ensures FirstOccurrences(s) == s
  {
    if |s| > 0 {
      var init := s[..|s| - 1];
      assert Distinct(init);
      FirstOccurrencesOfDistinct(init);
      assert s[|s| - 1] !in init;
      assert s == init + [s[|s| - 1]];
    }
  }

  /** Deduplicating twice is deduplicating once. */
  lemma FirstOccurrencesIdempotent(s: seq<string>)
    ensures FirstOccurrences(FirstOccurrences(s)) == FirstOccurrences(s)
  {
    FirstOccurrencesOfDistinct(FirstOccurrences(s));
  }

  /** Each element trimmed, the empty results dropped, order kept:
      `.map((t) => t.trim()).filter(Boolean)` and the `TrimSpace`/`continue`
      steps of a Go loop. */
  function TrimmedNonEmpty(xs: seq<string>): (r: seq<string>)
    ensures |r| <= |xs|
    ensures forall i :: 0 <= i < |r| ==> r[i] != "" && Trim(r[i]) == r[i]
  {
    if |xs| == 0 then []
    else
      var init := xs[..|xs| - 1];
      var t := Trim(xs[|xs| - 1]);
      var r0 := TrimmedNonEmpty(init);
      if t == "" then r0
      else
        TrimIdempotent(xs[|xs| - 1]);
        var r := r0 + [t];
        assert r[|r0|] == t;
        r
  }

  /** Every element with a non-empty trim survives, trimmed. */
  lemma {:induction false} TrimmedNonEmptyKeeps(xs: seq<string>, x: string)
    requires x in xs && Trim(x) != ""
    ensures Trim(x) in TrimmedNonEmpty(xs)
  {
    var init := xs[..|xs| - 1];
    assert xs == init + [xs[|xs| - 1]];
    if x != xs[|xs| - 1] {
      TrimmedNonEmptyKeeps(init, x);
    }
  }

  /** A sequence of trimmed non-empty strings passes through unchanged. */
  lemma {:induction false} TrimmedNonEmptyOfTrimmed(xs: seq<string>)
    requires forall i :: 0 <= i < |xs| ==> xs[i] != "" && Trim(xs[i]) == xs[i]
    ensures TrimmedNonEmpty(xs) == xs
  {
    if |xs| > 0 {
      var init := xs[..|xs| - 1];
      TrimmedNonEmptyOfTrimmed(init);
      assert xs == init + [xs[|xs| - 1]];
    }
  }

  /** Position of the first occurrence of `x` in `s`. */
  function IndexOf(s: seq<string>, x: string): (k: nat)
    requires x in s
    ensures k < |s| && s[k] == x
    ensures forall i :: 0 <= i < k ==> s[i] != x
  {
    if s[0] == x then 0 else 1 + IndexOf(s[1..], x)
  }

  /** Appending an element does not move first occurrences already present. */
  lemma {:induction false} IndexOfAppend(init: seq<string>, y: string, x: string)
    requires x in init + [y]
    ensures x in init ==> IndexOf(init + [y], x) == IndexOf(init, x)
    ensures x !in init ==> IndexOf(init + [y], x) == |init|
  {
    if |init| > 0 && init[0] != x {
      assert (init + [y])[1..] == init[1..] + [y];
      IndexOfAppend(init[1..], y, x);
    }
  }

  /** `FirstOccurrences` lists its elements in the order in which they first
      occur in the input. */
  lemma {:induction false} FirstOccurrencesOrder(s: seq<string>, i: nat, j: nat)
    requires i < j < |FirstOccurrences(s)|
    ensures IndexOf(s, FirstOccurrences(s)[i]) < IndexOf(s, FirstOccurrences(s)[j])
  {
    var r := FirstOccurrences(s);
    var init := s[..|s| - 1];
    var last := s[|s| - 1];
    assert s == init + [last];
    var r0 := FirstOccurrences(init);
    assert r[i] in r0 by {
      if last !in init {
        assert r == r0 + [last];
        assert r[i] == r0[i];
      }
    }
    IndexOfAppend(init, last, r[i]);
    IndexOfAppend(init, last, r[j]);
    if last in init || j < |r| - 1 {
      assert r[i] == r0[i] && r[j] == r0[j];
      FirstOccurrencesOrder(init, i, j);
    }
  }
}
