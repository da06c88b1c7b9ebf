/**
 * The matching rule both chat assistants use: the question is lower-cased
 * and the first knowledge-base entry having a keyword that occurs in it
 * wins. Also the longest-keyword rule that the corrected chat bot uses.
 */
module KeywordMatch {
  import opened Common

  /** `keywords.some(kw => q.includes(kw))`. */
  predicate MatchesSome(q: string, keywords: seq<string>)
  {
    exists k :: 0 <= k < |keywords| && Contains(q, keywords[k])
  }

  /** The index of the first entry, from `start` on, whose keywords match `q`. */
  function FirstMatchFrom<E>(entries: seq<E>, keywordsOf: E -> seq<string>, q: string, start: nat): (r: Option<nat>)
    requires start <= |entries|
    ensures r.Some? ==> start <= r.value < |entries| && MatchesSome(q, keywordsOf(entries[r.value]))
    ensures r.Some? ==> forall j :: start <= j < r.value ==> !MatchesSome(q, keywordsOf(entries[j]))
    ensures r.None? ==> forall j :: start <= j < |entries| ==> !MatchesSome(q, keywordsOf(entries[j]))
    decreases |entries| - start
  {
    if start == |entries| then None
    else if MatchesSome(q, keywordsOf(entries[start])) then Some(start)
    else FirstMatchFrom(entries, keywordsOf, q, start + 1)
  }

  /** The `for (const item of ...)` loop with its early `return`. */
  function FirstMatch<E>(entries: seq<E>, keywordsOf: E -> seq<string>, q: string): (r: Option<nat>)
    ensures r.Some? ==> r.value < |entries| && MatchesSome(q, keywordsOf(entries[r.value]))
    ensures r.Some? ==> forall j :: 0 <= j < r.value ==> !MatchesSome(q, keywordsOf(entries[j]))
    ensures r.None? <==> forall j :: 0 <= j < |entries| ==> !MatchesSome(q, keywordsOf(entries[j]))
  {
    FirstMatchFrom(entries, keywordsOf, q, 0)
  }

  /** Entry `i` matches `q` and no earlier entry does. */
  predicate IsFirstMatch<E>(entries: seq<E>, keywordsOf: E -> seq<string>, q: string, i: int)
  {
    0 <= i < |entries| && MatchesSome(q, keywordsOf(entries[i]))
    && forall j :: 0 <= j < i ==> !MatchesSome(q, keywordsOf(entries[j]))
  }

  /** The first match is determined by its two defining facts. */
  lemma FirstMatchIs<E>(entries: seq<E>, keywordsOf: E -> seq<string>, q: string, i: nat)
    requires IsFirstMatch(entries, keywordsOf, q, i)
    ensures FirstMatch(entries, keywordsOf, q) == Some(i)
  {
    var r := FirstMatch(entries, keywordsOf, q);
    assert r.Some?;
  }

  lemma FirstMatchSelects<E>(entries: seq<E>, keywordsOf: E -> seq<string>, q: string)
    ensures forall i :: IsFirstMatch(entries, keywordsOf, q, i) ==> FirstMatch(entries, keywordsOf, q) == Some(i)
  {
    forall i | IsFirstMatch(entries, keywordsOf, q, i)
      ensures FirstMatch(entries, keywordsOf, q) == Some(i)
    {
      FirstMatchIs(entries, keywordsOf, q, i);
    }
  }

  /** A substring of a substring is a substring. */
  lemma ContainsTrans(q: string, big: string, small: string)
    requires Contains(q, big) && Contains(big, small)
    ensures Contains(q, small)
  {
    ContainsIff(q, big);
    ContainsIff(big, small);
    ContainsIff(q, small);
    var i :| OccursAt(q, big, i);
    var j :| OccursAt(big, small, j);
    assert q[i..i + |big|] == big && big[j..j + |small|] == small;
    forall t | 0 <= t < |small|
      ensures q[i + j + t] == small[t]
    {
      assert q[i + j + t] == q[i..i + |big|][j + t];
      assert small[t] == big[j..j + |small|][t];
    }
    assert q[i + j..i + j + |small|] == small;
    assert OccursAt(q, small, i + j);
  }

  /**
   * A keyword that contains a keyword of an earlier entry can never select
   * its own entry: any question containing it is answered by that earlier
   * entry or one before it.
   */
  lemma Shadowed<E>(entries: seq<E>, keywordsOf: E -> seq<string>, q: string, kw: string, j: nat, k: nat)
    requires j < |entries| && k < |keywordsOf(entries[j])|
    requires Contains(q, kw) && Contains(kw, keywordsOf(entries[j])[k])
    ensures FirstMatch(entries, keywordsOf, q).Some?
    ensures FirstMatch(entries, keywordsOf, q).value <= j
  {
    ContainsTrans(q, kw, keywordsOf(entries[j])[k]);
    assert MatchesSome(q, keywordsOf(entries[j]));
  }

  // ---------------------------------------------------------------------
  // Longest keyword wins
  // ---------------------------------------------------------------------

  /** The length of the longest keyword occurring in `q`, or -1 when none does. */
  function Score(q: string, keywords: seq<string>): (n: int)
    ensures n >= -1
    ensures n >= 0 <==> MatchesSome(q, keywords)
    ensures forall k :: 0 <= k < |keywords| && Contains(q, keywords[k]) ==> |keywords[k]| <= n
    ensures n >= 0 ==> exists k :: 0 <= k < |keywords| && Contains(q, keywords[k]) && |keywords[k]| == n
  {
    if |keywords| == 0 then -1
    else
      var rest := Score(q, keywords[..|keywords| - 1]);
      var last := keywords[|keywords| - 1];
      assert forall k :: 0 <= k < |keywords| - 1 ==> keywords[..|keywords| - 1][k] == keywords[k];
      if Contains(q, last) && |last| > rest then |last| else rest
  }

  /** No score exceeds the length of the entry's longest keyword. */
  lemma ScoreAtMost(q: string, keywords: seq<string>, bound: int)
    requires forall k :: 0 <= k < |keywords| ==> |keywords[k]| <= bound
    requires bound >= -1
    ensures Score(q, keywords) <= bound
  {
  }

  /** When no keyword of any entry is longer than `bound`, no entry scores above it. */
  lemma ScoresAtMost<E>(entries: seq<E>, keywordsOf: E -> seq<string>, q: string, bound: int)
    requires bound >= -1
    requires forall j, k :: 0 <= j < |entries| && 0 <= k < |keywordsOf(entries[j])| ==> |keywordsOf(entries[j])[k]| <= bound
    ensures forall j :: 0 <= j < |entries| ==> Score(q, keywordsOf(entries[j])) <= bound
  {
    forall j | 0 <= j < |entries|
      ensures Score(q, keywordsOf(entries[j])) <= bound
    {
      ScoreAtMost(q, keywordsOf(entries[j]), bound);
    }
  }

  /** The entry from `start` on with the highest score, the earliest on ties, or none when nothing matches. */
  function BestMatchFrom<E>(entries: seq<E>, keywordsOf: E -> seq<string>, q: string, start: nat): (r: Option<nat>)
    requires start <= |entries|
    ensures r.Some? ==> start <= r.value < |entries| && Score(q, keywordsOf(entries[r.value])) >= 0
    ensures r.Some? ==> forall j :: start <= j < |entries| ==> Score(q, keywordsOf(entries[j])) <= Score(q, keywordsOf(entries[r.value]))
    ensures r.Some? ==> forall j :: start <= j < r.value ==> Score(q, keywordsOf(entries[j])) < Score(q, keywordsOf(entries[r.value]))
    ensures r.None? ==> forall j :: start <= j < |entries| ==> Score(q, keywordsOf(entries[j])) == -1
    decreases |entries| - start
  {
    if start == |entries| then None
    else
      var here := Score(q, keywordsOf(entries[start]));
      var later := BestMatchFrom(entries, keywordsOf, q, start + 1);
      if later.Some? && Score(q, keywordsOf(entries[later.value])) > here then later
      else if here >= 0 then Some(start)
      else later
  }

  /** Entry `i` matches `q` with a keyword at least as long as any other entry's, and longer than any earlier entry's. */
  predicate IsBestMatch<E>(entries: seq<E>, keywordsOf: E -> seq<string>, q: string, i: int)
  {
    0 <= i < |entries| && MatchesSome(q, keywordsOf(entries[i]))
    && (forall j :: 0 <= j < |entries| ==> Score(q, keywordsOf(entries[j])) <= Score(q, keywordsOf(entries[i])))
    && forall j :: 0 <= j < i ==> Score(q, keywordsOf(entries[j])) < Score(q, keywordsOf(entries[i]))
  }

  function BestMatch<E>(entries: seq<E>, keywordsOf: E -> seq<string>, q: string): (r: Option<nat>)
    ensures r.Some? ==> IsBestMatch(entries, keywordsOf, q, r.value)
    ensures r.None? <==> forall j :: 0 <= j < |entries| ==> !MatchesSome(q, keywordsOf(entries[j]))
  {
    BestMatchFrom(entries, keywordsOf, q, 0)
  }

  /** Both rules fall back exactly when no entry matches, and agree when a single entry does. */
  lemma BestIsFirstWhenOneMatches<E>(entries: seq<E>, keywordsOf: E -> seq<string>, q: string, i: nat)
    requires i < |entries| && MatchesSome(q, keywordsOf(entries[i]))
    requires forall j :: 0 <= j < |entries| && j != i ==> !MatchesSome(q, keywordsOf(entries[j]))
    ensures BestMatch(entries, keywordsOf, q) == FirstMatch(entries, keywordsOf, q) == Some(i)
  {
    FirstMatchIs(entries, keywordsOf, q, i);
    var b := BestMatch(entries, keywordsOf, q);
    assert b.Some?;
    assert MatchesSome(q, keywordsOf(entries[b.value]));
  }

  /** A keyword found in `q` is no longer than `q`, and one as long as `q` is `q` itself. */
  lemma ContainedLength(q: string, kw: string)
    requires Contains(q, kw)
    ensures |kw| <= |q|
    ensures |kw| == |q| ==> kw == q
  {
    ContainsIff(q, kw);
    var i :| OccursAt(q, kw, i);
    if |kw| == |q| {
      assert q[0..|q|] == q;
    }
  }

  /** A question scores at most its own length, and reaches it only when it is one of the keywords. */
  lemma ScoreAtMostQuestion(q: string, keywords: seq<string>)
    ensures Score(q, keywords) <= |q|
    ensures Score(q, keywords) == |q| ==> q in keywords
  {
    forall k | 0 <= k < |keywords| && Contains(q, keywords[k])
      ensures |keywords[k]| <= |q| && (|keywords[k]| == |q| ==> keywords[k] == q)
    {
      ContainedLength(q, keywords[k]);
    }
  }

  /**
   * Asking exactly a keyword of entry `i` selects entry `i` under the
   * longest-keyword rule, provided no earlier entry lists the same keyword.
   */
  lemma VerbatimKeywordWins<E>(entries: seq<E>, keywordsOf: E -> seq<string>, i: nat, k: nat)
    requires i < |entries| && k < |keywordsOf(entries[i])|
    requires forall j :: 0 <= j < i ==> keywordsOf(entries[i])[k] !in keywordsOf(entries[j])
    ensures BestMatch(entries, keywordsOf, keywordsOf(entries[i])[k]) == Some(i)
  {
    var q := keywordsOf(entries[i])[k];
    assert q[0..|q|] == q;
    assert OccursAt(q, q, 0);
    ContainsIff(q, q);
    ScoreAtMostQuestion(q, keywordsOf(entries[i]));
    assert Score(q, keywordsOf(entries[i])) == |q|;
    forall j | 0 <= j < |entries|
      ensures Score(q, keywordsOf(entries[j])) <= |q|
      ensures j < i ==> Score(q, keywordsOf(entries[j])) < |q|
    {
      ScoreAtMostQuestion(q, keywordsOf(entries[j]));
    }
    var b := BestMatch(entries, keywordsOf, q);
    assert b.Some?;
  }

  /**
   * An entry with a matching keyword of length `bound`, where no keyword of
   * any entry is longer and no keyword of an earlier entry is as long, is
   * the one the longest-keyword rule selects.
   */
  lemma LongestKeywordWins<E>(entries: seq<E>, keywordsOf: E -> seq<string>, q: string, i: nat, k: nat, bound: int)
    requires i < |entries| && k < |keywordsOf(entries[i])|
    requires Contains(q, keywordsOf(entries[i])[k]) && |keywordsOf(entries[i])[k]| == bound
    requires forall j :: 0 <= j < |entries| ==> Score(q, keywordsOf(entries[j])) <= bound
    requires forall j :: 0 <= j < i ==> Score(q, keywordsOf(entries[j])) < bound
    ensures BestMatch(entries, keywordsOf, q) == Some(i)
  {
    assert Score(q, keywordsOf(entries[i])) == bound;
    var b := BestMatch(entries, keywordsOf, q);
    assert MatchesSome(q, keywordsOf(entries[i]));
    assert b.Some?;
  }
}
