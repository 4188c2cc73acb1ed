/**
 * The interviewer dashboard's helpers: the search filter and the sort of the candidate
 * list, the colour bands for scores and statuses, the time shown for an answer, and the
 * count of completed interviews.
 */
module Dashboard {
  import opened Wrappers
  import opened Text
  import opened Types
  import Sidebar

  // ---------------------------------------------------------------------------------------
  // Filter

  /** The lower-cased name or email contains the lower-cased search term. */
  predicate MatchesSearch(c: Candidate, term: string) {
    Includes(Lower(c.name), Lower(term)) || Includes(Lower(c.email), Lower(term))
  }

  /** `candidates.filter(...)`: the matching candidates, in roster order. */
  function FilterCandidates(cs: seq<Candidate>, term: string): (r: seq<Candidate>)
    ensures forall c :: c in r <==> c in cs && MatchesSearch(c, term)
    ensures multiset(r) <= multiset(cs)
    ensures forall c {:trigger multiset(r)[c]} :: multiset(r)[c] == if MatchesSearch(c, term) then multiset(cs)[c] else 0
    ensures |r| <= |cs|
    decreases |cs|
  {
    if |cs| == 0 then []
    else
      var rest := FilterCandidates(cs[1..], term);
      assert cs == [cs[0]] + cs[1..];
      assert multiset(cs) == multiset{cs[0]} + multiset(cs[1..]);
      if MatchesSearch(cs[0], term) then
        assert multiset([cs[0]] + rest) == multiset{cs[0]} + multiset(rest);
        [cs[0]] + rest
      else
        rest
  }

  /** The filter works entry by entry: filtering a split roster filters each part, in order. */
  lemma {:induction false} FilterAppend(xs: seq<Candidate>, ys: seq<Candidate>, term: string)
    ensures FilterCandidates(xs + ys, term) == FilterCandidates(xs, term) + FilterCandidates(ys, term)
    decreases |xs|
  {
    if |xs| > 0 {
      var head := if MatchesSearch(xs[0], term) then [xs[0]] else [];
      FilterCons(xs + ys, term);
      FilterCons(xs, term);
      SplitHead(xs, ys);
      FilterAppend(xs[1..], ys, term);
      Regroup(head, FilterCandidates(xs[1..], term), FilterCandidates(ys, term));
    } else {
      SplitHead(xs, ys);
    }
  }

  /** Where a concatenation starts, and what follows its first element. */
  lemma SplitHead<T>(xs: seq<T>, ys: seq<T>)
    ensures |xs| == 0 ==> xs + ys == ys
    ensures |xs| > 0 ==> (xs + ys)[0] == xs[0] && (xs + ys)[1..] == xs[1..] + ys
  {
    if |xs| == 0 {
      assert xs + ys == ys;
    } else {
      assert (xs + ys)[1..] == xs[1..] + ys;
    }
  }

  /** Concatenation regroups freely. */
  lemma Regroup<T>(a: seq<T>, b: seq<T>, c: seq<T>)
    ensures a + (b + c) == (a + b) + c
  {
  }

  /** The filter of a non-empty roster: its head if that matches, then the filter of the rest. */
  lemma FilterCons(cs: seq<Candidate>, term: string)
    requires |cs| > 0
    ensures FilterCandidates(cs, term) ==
      (if MatchesSearch(cs[0], term) then [cs[0]] else []) + FilterCandidates(cs[1..], term)
  {
    if !MatchesSearch(cs[0], term) {
      assert [] + FilterCandidates(cs[1..], term) == FilterCandidates(cs[1..], term);
    }
  }

  /** A single entry is kept exactly when it matches. */
  lemma FilterOne(c: Candidate, term: string)
    ensures FilterCandidates([c], term) == if MatchesSearch(c, term) then [c] else []
  {
  }

  /** Every string contains the empty string. */
  lemma IncludesEmpty(s: string)
    ensures Includes(s, "")
  {
    assert SliceAt(s, "", 0);
  }

  /** An empty search term keeps every candidate. */
  lemma {:induction false} EmptyTermKeepsAll(cs: seq<Candidate>)
    ensures FilterCandidates(cs, "") == cs
    decreases |cs|
  {
    if |cs| > 0 {
      IncludesEmpty(Lower(cs[0].name));
      EmptyTermKeepsAll(cs[1..]);
    }
  }

  // ---------------------------------------------------------------------------------------
  // Sort

  datatype SortBy = ByScore | ByDate

  /** The sort key: the score, or the creation time in milliseconds. */
  function Key(c: Candidate, order: SortBy): int {
    match order
    case ByScore => c.score
    case ByDate => c.createdAt
  }

  /** Highest key first: no key is smaller than the one after it. */
  predicate Descending(cs: seq<Candidate>, order: SortBy) {
    forall i :: 0 < i < |cs| ==> Key(cs[i - 1], order) >= Key(cs[i], order)
  }

  /** In a descending list every key is at least every later key. */
  lemma {:induction false} DescendingAllPairs(cs: seq<Candidate>, order: SortBy, i: nat, j: nat)
    requires Descending(cs, order) && i <= j < |cs|
    ensures Key(cs[i], order) >= Key(cs[j], order)
    decreases j - i
  {
    if i < j {
      DescendingAllPairs(cs, order, i + 1, j);
    }
  }

  /**
   * Inserts `c` into a descending list in front of the first entry whose key is not
   * greater, so that among equal keys the earlier candidate stays first.
   */
  function Insert(c: Candidate, sorted: seq<Candidate>, order: SortBy): (r: seq<Candidate>)
    requires Descending(sorted, order)
    ensures Descending(r, order)
    ensures multiset(r) == multiset(sorted) + multiset{c}
    ensures |r| == |sorted| + 1 && (r[0] == c || (|sorted| > 0 && r[0] == sorted[0]))
    decreases |sorted|
  {
    if |sorted| == 0 || Key(sorted[0], order) <= Key(c, order) then [c] + sorted
    else
      var rest := Insert(c, sorted[1..], order);
      assert sorted == [sorted[0]] + sorted[1..];
      [sorted[0]] + rest
  }

  /**
   * The comparator sort (`b.score - a.score`, or the same on the creation times): highest
   * key first, stable, and a rearrangement of its input.
   */
  function SortCandidates(cs: seq<Candidate>, order: SortBy): (r: seq<Candidate>)
    ensures Descending(r, order)
    ensures multiset(r) == multiset(cs)
    decreases |cs|
  {
    if |cs| == 0 then []
    else
      assert cs == [cs[0]] + cs[1..];
      Insert(cs[0], SortCandidates(cs[1..], order), order)
  }

  /** The candidates of `cs` whose key is `k`, in their order in `cs`. */
  function WithKey(cs: seq<Candidate>, order: SortBy, k: int): seq<Candidate>
    decreases |cs|
  {
    if |cs| == 0 then [] else (if Key(cs[0], order) == k then [cs[0]] else []) + WithKey(cs[1..], order, k)
  }

  lemma WithKeyCons(x: Candidate, xs: seq<Candidate>, order: SortBy, k: int)
    ensures Key(x, order) == k ==> WithKey([x] + xs, order, k) == [x] + WithKey(xs, order, k)
    ensures Key(x, order) != k ==> WithKey([x] + xs, order, k) == WithKey(xs, order, k)
  {
    assert ([x] + xs)[1..] == xs;
  }

  /** Insertion puts `c` in front of every entry with the same key. */
  lemma {:induction false} InsertWithKey(c: Candidate, sorted: seq<Candidate>, order: SortBy, k: int)
    requires Descending(sorted, order)
    ensures WithKey(Insert(c, sorted, order), order, k) ==
      (if Key(c, order) == k then [c] else []) + WithKey(sorted, order, k)
    decreases |sorted|
  {
    if |sorted| == 0 || Key(sorted[0], order) <= Key(c, order) {
      assert Insert(c, sorted, order) == [c] + sorted;
      WithKeyCons(c, sorted, order, k);
    } else {
      var head, tail := sorted[0], sorted[1..];
      var rest := Insert(c, tail, order);
      assert Insert(c, sorted, order) == [head] + rest;
      assert sorted == [head] + tail;
      InsertWithKey(c, tail, order, k);
      WithKeyCons(head, rest, order, k);
      WithKeyCons(head, tail, order, k);
      var w := WithKey(tail, order, k);
      if Key(head, order) == k {
        assert Key(c, order) != k;
        assert WithKey(rest, order, k) == w;
      } else if Key(c, order) == k {
        assert WithKey(sorted, order, k) == w;
      }
    }
  }

  /**
   * The sort is stable, as `Array.prototype.sort` is: candidates with the same key, such as
   * every unfinished candidate at score 0, keep their roster order.
   */
  lemma {:induction false} SortStable(cs: seq<Candidate>, order: SortBy, k: int)
    ensures WithKey(SortCandidates(cs, order), order, k) == WithKey(cs, order, k)
    decreases |cs|
  {
    if |cs| > 0 {
      SortStable(cs[1..], order, k);
      InsertWithKey(cs[0], SortCandidates(cs[1..], order), order, k);
    }
  }

  /**
   * `filteredAndSortedCandidates`: the matching candidates, highest key first. The sort
   * works on the filtered copy, so the roster itself is never reordered.
   */
  function FilteredAndSorted(cs: seq<Candidate>, term: string, order: SortBy): (r: seq<Candidate>)
    ensures multiset(r) == multiset(FilterCandidates(cs, term))
    ensures Descending(r, order)
    ensures forall c :: c in r <==> c in cs && MatchesSearch(c, term)
  {
    var f := FilterCandidates(cs, term);
    var r := SortCandidates(f, order);
    assert forall c :: c in r <==> c in f by {
      forall c ensures c in r <==> c in f {
        assert c in r <==> c in multiset(r);
        assert c in f <==> c in multiset(f);
      }
    }
    r
  }

  /** A list already in descending order with distinct keys is left as it is. */
  lemma {:induction false} SortedStaysPut(cs: seq<Candidate>, order: SortBy)
    requires forall i, j :: 0 <= i < j < |cs| ==> Key(cs[i], order) > Key(cs[j], order)
    ensures SortCandidates(cs, order) == cs
    decreases |cs|
  {
    if |cs| > 0 {
      SortedStaysPut(cs[1..], order);
    }
  }

  // ---------------------------------------------------------------------------------------
  // Colours and counts

  datatype Color = Green | Blue | YellowText | RedText | Gray

  /** `getScoreColor`: green from 80, blue from 60, yellow from 40, red below. */
  function ScoreColor(score: int): (c: Color)
    ensures c in {Green, Blue, YellowText, RedText}
    ensures c == Green <==> score >= 80
    ensures c == Blue <==> 60 <= score < 80
    ensures c == YellowText <==> 40 <= score < 60
    ensures c == RedText <==> score < 40
  {
    if score >= 80 then Green else if score >= 60 then Blue else if score >= 40 then YellowText else RedText
  }

  /** A higher score never gets a lower band. */
  lemma ScoreColorMonotone(a: int, b: int)
    requires a <= b
    ensures Band(ScoreColor(a)) <= Band(ScoreColor(b))
  {
  }

  function Band(c: Color): nat {
    match c
    case RedText => 0
    case YellowText => 1
    case Blue => 2
    case Green => 3
    case Gray => 0
  }

  /** Per answer the colour is that of the score out of ten scaled to a hundred. */
  function AnswerScoreColor(a: Answer): (c: Color)
    ensures 8 <= a.score ==> c == Green
    ensures a.score < 4 ==> c == RedText
  {
    ScoreColor(a.score * 10)
  }

  /** `getStatusColor`: completed is green, in progress is blue, anything else the default. */
  function StatusColor(s: Status): (c: Color)
    ensures c == Green <==> s == Completed
    ensures c == Blue <==> s == InProgress
    ensures c == Gray <==> s == Pending
  {
    match s
    case Completed => Green
    case InProgress => Blue
    case Pending => Gray
  }

  /** The time an answer took, shown like the sidebar clock. */
  function AnswerTime(a: Answer): (r: string)
    ensures a.timeSpent >= 0 ==> Sidebar.ReadTime(r) == Some(a.timeSpent as nat)
  {
    Sidebar.FormatTimeRoundTrip(if a.timeSpent >= 0 then a.timeSpent else 0);
    Sidebar.FormatTime(a.timeSpent)
  }

  /** The number of completed candidates. */
  function CompletedCount(cs: seq<Candidate>): (n: nat)
    ensures n <= |cs|
    ensures n == |cs| <==> forall i :: 0 <= i < |cs| ==> cs[i].status == Completed
    ensures n == 0 <==> forall i :: 0 <= i < |cs| ==> cs[i].status != Completed
    decreases |cs|
  {
    if |cs| == 0 then 0
    else (if cs[0].status == Completed then 1 else 0) + CompletedCount(cs[1..])
  }

  /** The count adds up over a roster split in two. */
  lemma {:induction false} CompletedCountAppend(a: seq<Candidate>, b: seq<Candidate>)
    ensures CompletedCount(a + b) == CompletedCount(a) + CompletedCount(b)
    decreases |a|
  {
    if |a| > 0 {
      assert (a + b)[0] == a[0] && (a + b)[1..] == a[1..] + b;
      CompletedCountAppend(a[1..], b);
    } else {
      assert a + b == b;
    }
  }
}
