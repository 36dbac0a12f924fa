/** The append merge of a load-more fetch: candidates whose title is already
    on display are dropped, the rest go to the end in provider order. Only
    titles present BEFORE the merge are checked, so two candidates of one
    batch that share a new title are both kept. */
module Merge {
  import opened News

  /** The titles on display: the `existingTitles` set of the service. */
  function Titles(items: seq<NewsItem>): (r: set<string>)
    ensures forall x :: x in items ==> x.title in r
    ensures forall t :: t in r ==> exists x :: x in items && x.title == t
  {
    set x | x in items :: x.title
  }

  /** The candidates whose title is not in `existing`, in their order. */
  function FreshCandidates(candidates: seq<NewsItem>, existing: set<string>): (r: seq<NewsItem>)
    ensures |r| <= |candidates|
    ensures forall x :: x in r ==> x in candidates && x.title !in existing
  {
    if candidates == [] then []
    else
      var rest := FreshCandidates(candidates[1..], existing);
      if candidates[0].title in existing then rest else [candidates[0]] + rest
  }

  /** The displayed list after an append merge of `candidates`. */
  function AppendUnique(current: seq<NewsItem>, candidates: seq<NewsItem>): (r: seq<NewsItem>)
    ensures current <= r && |r| <= |current| + |candidates|
    ensures forall x :: x in r[|current|..] ==> x in candidates && x.title !in Titles(current)
  {
    current + FreshCandidates(candidates, Titles(current))
  }

  /** `a` is `b` with some elements left out, the rest in the same order. */
  predicate IsSubsequence(a: seq<NewsItem>, b: seq<NewsItem>)
    decreases |b|
  {
    a == [] ||
    (b != [] && (IsSubsequence(a, b[1..]) || (a[0] == b[0] && IsSubsequence(a[1..], b[1..]))))
  }

  /** The kept candidates appear in provider order. */
  lemma {:induction false} FreshKeepsOrder(candidates: seq<NewsItem>, existing: set<string>)
    ensures IsSubsequence(FreshCandidates(candidates, existing), candidates)
  {
    if candidates != [] {
      FreshKeepsOrder(candidates[1..], existing);
      var rest := FreshCandidates(candidates[1..], existing);
      if candidates[0].title !in existing {
        assert ([candidates[0]] + rest)[1..] == rest;
      }
    }
  }

  /** Every candidate with a new title is kept, as often as it occurs;
      every candidate with a known title is dropped. */
  lemma {:induction false} FreshMultiplicity(candidates: seq<NewsItem>, existing: set<string>, x: NewsItem)
    ensures multiset(FreshCandidates(candidates, existing))[x]
            == if x.title in existing then 0 else multiset(candidates)[x]
  {
    if candidates != [] {
      FreshMultiplicity(candidates[1..], existing, x);
      assert candidates == [candidates[0]] + candidates[1..];
    }
  }

  /** A batch whose titles are all on display adds nothing. */
  lemma {:induction false} FreshAllKnown(candidates: seq<NewsItem>, existing: set<string>)
    requires forall x :: x in candidates ==> x.title in existing
    ensures FreshCandidates(candidates, existing) == []
  {
    if candidates != [] {
      FreshAllKnown(candidates[1..], existing);
    }
  }

  /** A batch with no title on display is kept whole, duplicates included. */
  lemma {:induction false} FreshAllNew(candidates: seq<NewsItem>, existing: set<string>)
    requires forall x :: x in candidates ==> x.title !in existing
    ensures FreshCandidates(candidates, existing) == candidates
  {
    if candidates != [] {
      FreshAllNew(candidates[1..], existing);
      assert candidates == [candidates[0]] + candidates[1..];
    }
  }

  /** The merge keeps the old list as a prefix, and appends exactly the
      candidates with new titles, in provider order and with multiplicity. */
  lemma AppendUniqueSpec(current: seq<NewsItem>, candidates: seq<NewsItem>)
    ensures current <= AppendUnique(current, candidates)
    ensures IsSubsequence(AppendUnique(current, candidates)[|current|..], candidates)
    ensures forall x :: multiset(AppendUnique(current, candidates)[|current|..])[x]
                        == if x.title in Titles(current) then 0 else multiset(candidates)[x]
  {
    var added := FreshCandidates(candidates, Titles(current));
    assert AppendUnique(current, candidates)[|current|..] == added;
    FreshKeepsOrder(candidates, Titles(current));
    forall x: NewsItem ensures multiset(added)[x] == if x.title in Titles(current) then 0 else multiset(candidates)[x] {
      FreshMultiplicity(candidates, Titles(current), x);
    }
  }

  /** Appending a batch whose titles are all on display changes nothing. */
  lemma AppendKnownIsIdentity(current: seq<NewsItem>, candidates: seq<NewsItem>)
    requires forall x :: x in candidates ==> x.title in Titles(current)
    ensures AppendUnique(current, candidates) == current
  {
    FreshAllKnown(candidates, Titles(current));
  }

  /** Merging the same batch a second time changes nothing. */
  lemma AppendUniqueIdempotent(current: seq<NewsItem>, candidates: seq<NewsItem>)
    ensures AppendUnique(AppendUnique(current, candidates), candidates) == AppendUnique(current, candidates)
  {
    var once := AppendUnique(current, candidates);
    var added := FreshCandidates(candidates, Titles(current));
    forall x | x in candidates ensures x.title in Titles(once) {
      if x.title !in Titles(current) {
        FreshMultiplicity(candidates, Titles(current), x);
        assert multiset(added)[x] > 0;
        assert x in once;
      } else {
        var y :| y in current && y.title == x.title;
        assert y in once;
      }
    }
    AppendKnownIsIdentity(once, candidates);
  }

  /** Title-only stand-in for building examples. */
  function Headline(title: string): NewsItem
  {
    NewsItem(title, "", "World", "", None, None)
  }

  /** Display `[A, B]`, candidates `[B, C]`: the result is `[A, B, C]`. */
  lemma MergeExample()
    ensures AppendUnique([Headline("A"), Headline("B")], [Headline("B"), Headline("C")])
            == [Headline("A"), Headline("B"), Headline("C")]
  {
  }

  /** Two candidates sharing a title not on display are both appended. */
  lemma MergeKeepsBatchDuplicates(current: seq<NewsItem>, x: NewsItem, y: NewsItem)
    requires x.title == y.title && x.title !in Titles(current)
    ensures AppendUnique(current, [x, y]) == current + [x, y]
  {
    FreshAllNew([x, y], Titles(current));
  }
}
